/**
 * The vocabulary shared by the redirection tables of static, constructor and
 * private-method mocking: an owner (a class, a class name, a receiver
 * instance) maps to a method map from a key (a method name or a constructor
 * signature) to the stored answer.
 */
module Redirection {
  import opened Values

  /** A stored answer, tagged with its runtime kind when it is stored: a
      plain object, a Throwable, or a `Function<Object[], R>`. */
  datatype Stored = Plain(v: Value) | Thrown(e: Exn) | Fn(f: Args -> Value)

  /** What a handler tells the rewritten code: return this value, throw this
      Throwable, or run the original body (the `PROCEED` sentinel). */
  datatype Resolution = Return(v: Value) | Raise(e: Exn) | Proceed

  /** The tag an object passed as a plain return value gets: a Throwable is
      recognised by `instanceof Throwable` and is thrown when the call
      happens. */
  function Classify(v: Value): (s: Stored)
    ensures v.Exc? <==> s.Thrown?
    ensures s.Thrown? ==> s.e == v.e
    ensures s.Plain? ==> s.v == v
  {
    if v.Exc? then Thrown(v.e) else Plain(v)
  }

  /** A null object handed to a table: `ConcurrentHashMap` refuses it. */
  predicate IsNull(s: Stored)
  {
    s == Plain(Null)
  }

  /** The object a `Throwable` parameter holds (null when absent). */
  function ThrowableObject(t: Option<Exn>): (s: Stored)
    ensures t.None? <==> IsNull(s)
  {
    if t.Some? then Thrown(t.value) else Plain(Null)
  }

  /** The object a `Function` parameter holds (null when absent). */
  function FunctionObject(f: Option<Args -> Value>): (s: Stored)
    ensures f.None? <==> IsNull(s)
  {
    if f.Some? then Fn(f.value) else Plain(Null)
  }

  /** owner -> key -> stored answer. */
  type Table<O, K> = map<O, map<K, Stored>>

  /** The answer stored for (owner, key), if any. */
  function Entry<O, K>(t: Table<O, K>, owner: O, key: K): (r: Option<Stored>)
    ensures r.Some? <==> owner in t && key in t[owner]
  {
    if owner in t && key in t[owner] then Some(t[owner][key]) else None
  }

  /** `putIfAbsent(owner, new map)`: an owner keeps its method map if it has
      one and gets an empty one otherwise. */
  function Prepared<O, K>(t: Table<O, K>, owner: O): (r: Table<O, K>)
    ensures owner in r
    ensures r.Keys == t.Keys + {owner}
  {
    if owner in t then t else t[owner := map[]]
  }

  /** Prepare the owner, then `put(key, s)` into its method map. */
  function Put<O, K>(t: Table<O, K>, owner: O, key: K, s: Stored): (r: Table<O, K>)
    ensures r.Keys == t.Keys + {owner}
  {
    var p := Prepared(t, owner);
    p[owner := p[owner][key := s]]
  }

  /** Preparing changes no answer, so preparing twice, or preparing an owner
      that is already configured, never discards configuration. */
  lemma PreparedKeepsEntries<O, K>(t: Table<O, K>, owner: O, o: O, key: K)
    ensures Entry(Prepared(t, owner), o, key) == Entry(t, o, key)
    ensures Prepared(Prepared(t, owner), owner) == Prepared(t, owner)
  {
  }

  /** The last write for (owner, key) is the one stored; every other pair
      keeps its answer. */
  lemma PutEntry<O, K>(t: Table<O, K>, owner: O, key: K, s: Stored, o: O, k: K)
    ensures Entry(Put(t, owner, key, s), owner, key) == Some(s)
    ensures (o, k) != (owner, key) ==> Entry(Put(t, owner, key, s), o, k) == Entry(t, o, k)
  {
  }

  /** A second write to the same pair replaces the first. */
  lemma PutTwice<O, K>(t: Table<O, K>, owner: O, key: K, s1: Stored, s2: Stored)
    ensures Put(Put(t, owner, key, s1), owner, key, s2) == Put(t, owner, key, s2)
  {
    var p := Prepared(t, owner);
    assert Prepared(Put(t, owner, key, s1), owner) == Put(t, owner, key, s1);
    assert p[owner][key := s1][key := s2] == p[owner][key := s2];
  }

  /** Removing an owner forgets exactly its answers. */
  lemma RemoveEntry<O, K>(t: Table<O, K>, owner: O, o: O, k: K)
    ensures Entry(t - {owner}, owner, k) == None
    ensures o != owner ==> Entry(t - {owner}, o, k) == Entry(t, o, k)
  {
  }

  /** The handler rule shared by the static and private-method handlers: a
      Throwable is thrown, a Function is applied to the call's arguments, and
      anything else is returned as it is. */
  function Apply(s: Stored, args: Args): (r: Resolution)
    ensures s.Thrown? ==> r == Raise(s.e)
    ensures s.Fn? ==> r == Return(s.f(args))
    ensures s.Plain? ==> r == Return(s.v)
    ensures r != Proceed
  {
    match s
    case Plain(v) => Return(v)
    case Thrown(e) => Raise(e)
    case Fn(f) => Return(f(args))
  }

  /** The lookup shared by the static-method and private-method handlers:
      the stored answer applied to the arguments, or null when the owner or
      the key is not configured. It never tells the caller to proceed. */
  function AnswerOrNull<O, K>(t: Table<O, K>, owner: O, key: K, args: Args): (r: Resolution)
    ensures r != Proceed
    ensures Entry(t, owner, key).None? ==> r == Return(Null)
    ensures Entry(t, owner, key).Some? ==> r == Apply(Entry(t, owner, key).value, args)
  {
    match Entry(t, owner, key)
    case None => Return(Null)
    case Some(s) => Apply(s, args)
  }
}
