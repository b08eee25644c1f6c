/**
 * `StaticMockHandler`: behaviours for static methods keyed by class name and
 * method name, plus the original class bytes kept for restoring a class.
 */
module StaticMockHandler {
  import opened Values
  import opened Redirection

  type byte = bv8

  /** `putIfAbsent` on a plain map: an existing entry is kept. */
  function PutIfAbsent<K, V>(m: map<K, V>, k: K, v: V): (r: map<K, V>)
    ensures k in r && r[k] == (if k in m then m[k] else v)
    ensures forall j :: j in m ==> j in r && r[j] == m[j]
    ensures r.Keys == m.Keys + {k}
  {
    if k in m then m else m[k := v]
  }

  /** `hasMockBehaviors`: the class has a method map with at least one
      entry. */
  predicate HasBehaviors(t: Table<string, string>, className: string)
  {
    className in t && |t[className]| > 0
  }

  /** Having behaviours is having some configured method. */
  lemma HasBehaviorsIffSomeEntry(t: Table<string, string>, className: string)
    ensures HasBehaviors(t, className) <==> exists m :: Entry(t, className, m).Some?
  {
    if HasBehaviors(t, className) {
      var m :| m in t[className];
      assert Entry(t, className, m).Some?;
    }
  }

  /** The static state of `StaticMockHandler`. */
  class StaticMockHandler {
    var staticMockBehaviors: Table<string, string>
    var originalClassBytes: map<string, array<byte>>

    constructor ()
      ensures staticMockBehaviors == map[] && originalClassBytes == map[]
    {
      staticMockBehaviors := map[];
      originalClassBytes := map[];
    }

    /** `registerBehavior`: `computeIfAbsent` then `put`; a null behaviour
        throws after the class got its map. */
    method RegisterBehavior(className: string, methodName: string, behavior: Stored) returns (status: Status)
      modifies this
      ensures IsNull(behavior) ==> status == Failed(NullPointerException)
      ensures IsNull(behavior) ==> staticMockBehaviors == Prepared(old(staticMockBehaviors), className)
      ensures !IsNull(behavior) ==> status == Done
      ensures !IsNull(behavior) ==> staticMockBehaviors == Put(old(staticMockBehaviors), className, methodName, behavior)
      ensures originalClassBytes == old(originalClassBytes)
    {
      if className !in staticMockBehaviors {
        staticMockBehaviors := staticMockBehaviors[className := map[]];
      }
      if IsNull(behavior) {
        return Failed(NullPointerException);
      }
      staticMockBehaviors := staticMockBehaviors[className := staticMockBehaviors[className][methodName := behavior]];
      status := Done;
    }

    /** `handleStaticMethodCall`: a read-only lookup. */
    method HandleStaticMethodCall(className: string, methodName: string, args: Args) returns (r: Resolution)
      ensures r == AnswerOrNull(staticMockBehaviors, className, methodName, args)
    {
      if className in staticMockBehaviors && methodName in staticMockBehaviors[className] {
        var behavior := staticMockBehaviors[className][methodName];
        match behavior
        case Thrown(e) => r := Raise(e);
        case Fn(f) => r := Return(f(args));
        case Plain(v) => r := Return(v);
      } else {
        r := Return(Null);
      }
    }

    /** `storeOriginalBytecode`: `putIfAbsent`, so the first array stored
        for a class stays; a null array throws. */
    method StoreOriginalBytecode(className: string, originalBytes: array?<byte>) returns (status: Status)
      modifies this
      ensures originalBytes == null ==> status == Failed(NullPointerException)
      ensures originalBytes == null ==> originalClassBytes == old(originalClassBytes)
      ensures originalBytes != null ==> status == Done
      ensures originalBytes != null ==> originalClassBytes == PutIfAbsent(old(originalClassBytes), className, originalBytes)
      ensures staticMockBehaviors == old(staticMockBehaviors)
    {
      if originalBytes == null {
        return Failed(NullPointerException);
      }
      if className !in originalClassBytes {
        originalClassBytes := originalClassBytes[className := originalBytes];
      }
      status := Done;
    }

    /** `getOriginalBytecode`: the stored array itself, or null. */
    method GetOriginalBytecode(className: string) returns (bytes: array?<byte>)
      ensures className in originalClassBytes ==> bytes == originalClassBytes[className]
      ensures className !in originalClassBytes ==> bytes == null
    {
      if className in originalClassBytes {
        bytes := originalClassBytes[className];
      } else {
        bytes := null;
      }
    }

    /** `hasMockBehaviors`. */
    method HasMockBehaviors(className: string) returns (b: bool)
      ensures b == HasBehaviors(staticMockBehaviors, className)
    {
      b := className in staticMockBehaviors && |staticMockBehaviors[className]| > 0;
    }

    /** `resetAll`: forgets every behaviour but keeps the original bytes. */
    method ResetAll()
      modifies this
      ensures staticMockBehaviors == map[]
      ensures originalClassBytes == old(originalClassBytes)
    {
      staticMockBehaviors := map[];
    }

    /** `reset(className)`. */
    method Reset(className: string)
      modifies this
      ensures staticMockBehaviors == old(staticMockBehaviors) - {className}
      ensures originalClassBytes == old(originalClassBytes)
    {
      staticMockBehaviors := staticMockBehaviors - {className};
    }
  }

  /** The registered pair answers what was registered, the last write
      winning, and no other pair changes. */
  lemma {:induction false} RegisterThenHandle(t: Table<string, string>, c: string, m: string, s: Stored, d: string, n: string, args: Args)
    ensures AnswerOrNull(Put(t, c, m, s), c, m, args) == Apply(s, args)
    ensures (d, n) != (c, m) ==> AnswerOrNull(Put(t, c, m, s), d, n, args) == AnswerOrNull(t, d, n, args)
  {
    PutEntry(t, c, m, s, d, n);
  }

  /** After a successful registration the class has behaviours. */
  lemma {:induction false} RegisteredClassHasBehaviors(t: Table<string, string>, c: string, m: string, s: Stored)
    ensures HasBehaviors(Put(t, c, m, s), c)
  {
    PutEntry(t, c, m, s, c, m);
    HasBehaviorsIffSomeEntry(Put(t, c, m, s), c);
  }

  /** After `reset(c)` the class answers null everywhere and has no
      behaviours. */
  lemma {:induction false} ResetAnswersNull(t: Table<string, string>, c: string, d: string, n: string, args: Args)
    ensures AnswerOrNull(t - {c}, c, n, args) == Return(Null)
    ensures !HasBehaviors(t - {c}, c)
    ensures d != c ==> AnswerOrNull(t - {c}, d, n, args) == AnswerOrNull(t, d, n, args)
  {
    RemoveEntry(t, c, d, n);
  }

  /** The first bytes stored for a class survive a later store and
      `resetAll`. */
  method BytesSurviveReset(h: StaticMockHandler, c: string, first: array<byte>, second: array<byte>) returns (got: array?<byte>)
    modifies h
    ensures old(c !in h.originalClassBytes) ==> got == first
    ensures old(c in h.originalClassBytes) ==> got == old(h.originalClassBytes[c])
  {
    var _ := h.StoreOriginalBytecode(c, first);
    h.ResetAll();
    var _ := h.StoreOriginalBytecode(c, second);
    got := h.GetOriginalBytecode(c);
  }
}
