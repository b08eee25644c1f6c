/**
 * `ConstructorMocker`: answers for constructors, per class and constructor
 * signature. A signature is the string `(T1,T2,...)` of the parameter type
 * names; the rewritten constructor asks `handleConstructorCall` and runs its
 * original body when told `PROCEED`.
 */
module ConstructorMocker {
  import opened Values
  import opened Redirection

  /** The `getName()` of each parameter type. */
  function Names(ps: seq<JClass>): (ns: seq<string>)
    ensures |ns| == |ps| && forall i :: 0 <= i < |ps| ==> ns[i] == ps[i].name
  {
    if ps == [] then [] else Names(ps[..|ps| - 1]) + [ps[|ps| - 1].name]
  }

  /** Names separated by single commas. */
  function Join(ns: seq<string>): string
  {
    if |ns| == 0 then ""
    else if |ns| == 1 then ns[0]
    else Join(ns[..|ns| - 1]) + "," + ns[|ns| - 1]
  }

  /** The constructor signature string of a parameter-type array; a null
      array counts as no parameters. */
  function KeyOf(parameterTypes: Option<seq<JClass>>): (key: string)
    ensures |key| >= 2 && key[0] == '(' && key[|key| - 1] == ')'
    ensures parameterTypes.None? || parameterTypes == Some([]) ==> key == "()"
  {
    match parameterTypes
    case None => "()"
    case Some(ps) => "(" + Join(Names(ps)) + ")"
  }

  /** Appending a name appends it after a comma, or alone to no names. */
  lemma JoinSnoc(ns: seq<string>, x: string)
    ensures Join(ns + [x]) == if ns == [] then x else Join(ns) + "," + x
  {
    assert (ns + [x])[..|ns|] == ns;
  }

  /** One more parameter type extends the joined names by its own. */
  lemma KeyStep(ps: seq<JClass>, i: nat)
    requires i < |ps|
    ensures Join(Names(ps[..i + 1])) == if i == 0 then ps[i].name else Join(Names(ps[..i])) + "," + ps[i].name
  {
    assert ps[..i + 1] == ps[..i] + [ps[i]];
    assert Names(ps[..i + 1]) == Names(ps[..i]) + [ps[i].name];
    JoinSnoc(Names(ps[..i]), ps[i].name);
  }

  /** `constructorKey`: builds the signature in a string builder. */
  method ConstructorKey(parameterTypes: Option<seq<JClass>>) returns (key: string)
    ensures key == KeyOf(parameterTypes)
  {
    if parameterTypes.None? || |parameterTypes.value| == 0 {
      return "()";
    }
    var ps := parameterTypes.value;
    key := "(";
    var i := 0;
    while i < |ps|
      invariant 0 <= i <= |ps|
      invariant key == "(" + Join(Names(ps[..i]))
    {
      KeyStep(ps, i);
      if i > 0 {
        key := key + ",";
      }
      key := key + ps[i].name;
      i := i + 1;
    }
    assert ps[..i] == ps;
    key := key + ")";
  }

  /** A Java binary class name: not empty and without commas. */
  predicate IsClassName(n: string)
  {
    |n| > 0 && CommaFree(n)
  }

  predicate AllClassNames(ns: seq<string>)
  {
    forall i :: 0 <= i < |ns| ==> IsClassName(ns[i])
  }

  lemma {:induction false} JoinEndsWithLast(ns: seq<string>)
    requires |ns| > 0
    ensures |Join(ns)| >= |ns[|ns| - 1]|
    ensures Join(ns)[|Join(ns)| - |ns[|ns| - 1]|..] == ns[|ns| - 1]
  {
  }

  predicate CommaFree(s: string)
  {
    forall i :: 0 <= i < |s| ==> s[i] != ','
  }

  /** In `p + "," + x` with a comma-free `x`, the comma after `p` is the
      last one. */
  lemma LastComma(p: string, x: string)
    requires CommaFree(x)
    ensures (p + "," + x)[|p|] == ','
    ensures forall j :: |p| < j < |p| + 1 + |x| ==> (p + "," + x)[j] != ','
  {
    forall j | |p| < j < |p| + 1 + |x|
      ensures (p + "," + x)[j] != ','
    {
      assert (p + "," + x)[j] == x[j - |p| - 1];
    }
  }

  /** `p + "," + x == q + "," + y` with comma-free `x` and `y` splits at the
      same comma. */
  lemma {:induction false} SplitAtLastComma(p: string, x: string, q: string, y: string)
    requires CommaFree(x) && CommaFree(y)
    requires p + "," + x == q + "," + y
    ensures p == q && x == y
  {
    var s := p + "," + x;
    LastComma(p, x);
    LastComma(q, y);
    assert s[|q|] == ',' && s[|p|] == ',';
    assert |p| == |q|;
    assert p == s[..|p|] && q == s[..|q|];
    assert x == s[|p| + 1..] && y == s[|q| + 1..];
  }

  /** The join of class names has a comma exactly when it joins two or
      more. */
  lemma {:induction false} JoinCommaFree(ns: seq<string>)
    requires AllClassNames(ns) && |ns| > 0
    ensures CommaFree(Join(ns)) <==> |ns| == 1
  {
    if |ns| == 1 {
      assert IsClassName(ns[0]);
    } else {
      var j := Join(ns[..|ns| - 1]);
      assert Join(ns)[|j|] == ',';
    }
  }

  /** Only the empty list of class names joins to "". */
  lemma {:induction false} JoinEmpty(ns: seq<string>)
    requires AllClassNames(ns)
    ensures Join(ns) == "" <==> |ns| == 0
  {
    if |ns| > 0 {
      JoinEndsWithLast(ns);
      assert IsClassName(ns[|ns| - 1]);
    }
  }

  /** Joining class names loses nothing. */
  lemma {:induction false} JoinInjective(xs: seq<string>, ys: seq<string>)
    requires AllClassNames(xs) && AllClassNames(ys)
    requires Join(xs) == Join(ys)
    ensures xs == ys
    decreases |xs|
  {
    JoinEmpty(xs);
    JoinEmpty(ys);
    if |xs| > 0 && |ys| > 0 {
      JoinCommaFree(xs);
      JoinCommaFree(ys);
      if |xs| > 1 {
        var xs', ys' := xs[..|xs| - 1], ys[..|ys| - 1];
        assert IsClassName(xs[|xs| - 1]) && IsClassName(ys[|ys| - 1]);
        SplitAtLastComma(Join(xs'), xs[|xs| - 1], Join(ys'), ys[|ys| - 1]);
        assert AllClassNames(xs') && AllClassNames(ys') by {
          forall i | 0 <= i < |xs'| ensures IsClassName(xs'[i]) { assert xs'[i] == xs[i]; }
          forall i | 0 <= i < |ys'| ensures IsClassName(ys'[i]) { assert ys'[i] == ys[i]; }
        }
        JoinInjective(xs', ys');
        assert xs == xs' + [xs[|xs| - 1]] && ys == ys' + [ys[|ys| - 1]];
      }
    }
  }

  /** Two constructor signatures share a key exactly when their parameter
      type names agree, a null array counting as an empty one. */
  lemma {:induction false} KeyIdentifiesSignature(a: Option<seq<JClass>>, b: Option<seq<JClass>>)
    requires a.Some? ==> AllClassNames(Names(a.value))
    requires b.Some? ==> AllClassNames(Names(b.value))
    ensures KeyOf(a) == KeyOf(b) <==>
      Names(if a.Some? then a.value else []) == Names(if b.Some? then b.value else [])
  {
    var na := Names(if a.Some? then a.value else []);
    var nb := Names(if b.Some? then b.value else []);
    assert KeyOf(a) == "(" + Join(na) + ")";
    assert KeyOf(b) == "(" + Join(nb) + ")";
    if KeyOf(a) == KeyOf(b) {
      assert Join(na) == KeyOf(a)[1..|KeyOf(a)| - 1];
      assert Join(nb) == KeyOf(b)[1..|KeyOf(b)| - 1];
      JoinInjective(na, nb);
    }
  }

  /** What `handleConstructorCall` answers: a stored function is applied to
      the arguments and any other stored object is returned as the same
      object, a Throwable included; an unconfigured class or signature
      proceeds to the original constructor. */
  function Resolve(t: Table<JClass, string>, clazz: JClass, key: string, args: Args): (r: Resolution)
    ensures r == Proceed <==> Entry(t, clazz, key).None?
    ensures !r.Raise?
    ensures Entry(t, clazz, key).Some? && Entry(t, clazz, key).value.Fn? ==> r == Return(Entry(t, clazz, key).value.f(args))
    ensures Entry(t, clazz, key).Some? && Entry(t, clazz, key).value.Plain? ==> r == Return(Entry(t, clazz, key).value.v)
    ensures Entry(t, clazz, key).Some? && Entry(t, clazz, key).value.Thrown? ==> r == Return(Exc(Entry(t, clazz, key).value.e))
  {
    match Entry(t, clazz, key)
    case None => Proceed
    case Some(s) =>
      match s
      case Fn(f) => Return(f(args))
      case Plain(v) => Return(v)
      case Thrown(e) => Return(Exc(e))
  }

  /** The implementation `whenDefaultConstructor` registers: it ignores the
      arguments and asks the supplier. */
  function SupplierAsFunction(supplier: () -> Value): (f: Args -> Value)
    ensures forall a :: f(a) == supplier()
  {
    (a: Args) => supplier()
  }

  /** The static state of `ConstructorMocker`. */
  class ConstructorMocker {
    var constructorMocks: Table<JClass, string>

    constructor ()
      ensures constructorMocks == map[]
    {
      constructorMocks := map[];
    }

    /** `prepareForConstructorMocking`, table part: `putIfAbsent` of an
        empty map, on either the optimised or the standard path. */
    method PrepareForConstructorMocking(clazz: JClass)
      modifies this
      ensures constructorMocks == Prepared(old(constructorMocks), clazz)
    {
      if clazz !in constructorMocks {
        constructorMocks := constructorMocks[clazz := map[]];
      }
    }

    /** `ensurePrepared`: prepares only a class without a map. */
    method EnsurePrepared(clazz: JClass)
      modifies this
      ensures old(clazz in constructorMocks) ==> constructorMocks == old(constructorMocks)
      ensures constructorMocks == Prepared(old(constructorMocks), clazz)
    {
      if clazz !in constructorMocks {
        PrepareForConstructorMocking(clazz);
      }
    }

    /** Prepare, compute the key, `put`; a null object throws after the
        class has been prepared. */
    method Store(clazz: JClass, s: Stored, parameterTypes: Option<seq<JClass>>) returns (status: Status)
      modifies this
      ensures IsNull(s) ==> status == Failed(NullPointerException)
      ensures IsNull(s) ==> constructorMocks == Prepared(old(constructorMocks), clazz)
      ensures !IsNull(s) ==> status == Done
      ensures !IsNull(s) ==> constructorMocks == Put(old(constructorMocks), clazz, KeyOf(parameterTypes), s)
    {
      EnsurePrepared(clazz);
      var key := ConstructorKey(parameterTypes);
      if IsNull(s) {
        return Failed(NullPointerException);
      }
      constructorMocks := constructorMocks[clazz := constructorMocks[clazz][key := s]];
      status := Done;
    }

    /** `whenConstructor(clazz, instance, parameterTypes...)`: the instance is
        stored as an object, whatever its class. */
    method WhenConstructor(clazz: JClass, instance: Value, parameterTypes: Option<seq<JClass>>) returns (status: Status)
      modifies this
      ensures instance == Null ==> status == Failed(NullPointerException)
      ensures instance == Null ==> constructorMocks == Prepared(old(constructorMocks), clazz)
      ensures instance != Null ==> status == Done
      ensures instance != Null ==> constructorMocks == Put(old(constructorMocks), clazz, KeyOf(parameterTypes), Plain(instance))
    {
      status := Store(clazz, Plain(instance), parameterTypes);
    }

    /** `whenConstructorImplement(clazz, implementation, parameterTypes...)`. */
    method WhenConstructorImplement(clazz: JClass, implementation: Option<Args -> Value>, parameterTypes: Option<seq<JClass>>)
      returns (status: Status)
      modifies this
      ensures implementation.None? ==> status == Failed(NullPointerException)
      ensures implementation.None? ==> constructorMocks == Prepared(old(constructorMocks), clazz)
      ensures implementation.Some? ==> status == Done
      ensures implementation.Some? ==>
        constructorMocks == Put(old(constructorMocks), clazz, KeyOf(parameterTypes), Fn(implementation.value))
    {
      status := Store(clazz, FunctionObject(implementation), parameterTypes);
    }

    /** `whenDefaultConstructor(clazz, supplier)`: an implementation for the
        signature `()` that ignores the arguments. */
    method WhenDefaultConstructor(clazz: JClass, supplier: () -> Value)
      modifies this
      ensures constructorMocks == Put(old(constructorMocks), clazz, "()", Fn(SupplierAsFunction(supplier)))
    {
      assert KeyOf(Some([])) == "()";
      var _ := WhenConstructorImplement(clazz, Some(SupplierAsFunction(supplier)), Some([]));
    }

    /** `handleConstructorCall`: a read-only lookup. */
    method HandleConstructorCall(clazz: JClass, args: Args, parameterTypes: Option<seq<JClass>>) returns (r: Resolution)
      ensures r == Resolve(constructorMocks, clazz, KeyOf(parameterTypes), args)
    {
      if clazz in constructorMocks {
        var key := ConstructorKey(parameterTypes);
        if key in constructorMocks[clazz] {
          var result := constructorMocks[clazz][key];
          if result.Fn? {
            r := Return(result.f(args));
          } else if result.Plain? {
            r := Return(result.v);
          } else {
            r := Return(Exc(result.e));
          }
          return;
        }
      }
      r := Proceed;
    }

    /** `resetAll`. */
    method ResetAll()
      modifies this
      ensures constructorMocks == map[]
    {
      constructorMocks := map[];
    }

    /** `reset(clazz)`. */
    method Reset(clazz: JClass)
      modifies this
      ensures constructorMocks == old(constructorMocks) - {clazz}
    {
      constructorMocks := constructorMocks - {clazz};
    }
  }

  /** A stored instance is handed back as that very object, for every
      argument array. */
  lemma {:induction false} ConstructorReturnsStoredInstance(t: Table<JClass, string>, c: JClass, ps: Option<seq<JClass>>, v: Value, args: Args)
    ensures Resolve(Put(t, c, KeyOf(ps), Plain(v)), c, KeyOf(ps), args) == Return(v)
  {
    PutEntry(t, c, KeyOf(ps), Plain(v), c, KeyOf(ps));
  }

  /** A Throwable instance given to `whenConstructor` is returned as the new
      object, where the same object given to the static and private handlers'
      `when` is thrown. */
  lemma {:induction false} ThrowableIsReturnedNotThrown(t: Table<JClass, string>, c: JClass, ps: Option<seq<JClass>>, e: Exn, args: Args)
    ensures Resolve(Put(t, c, KeyOf(ps), Plain(Exc(e))), c, KeyOf(ps), args) == Return(Exc(e))
    ensures Apply(Classify(Exc(e)), args) == Raise(e)
  {
    ConstructorReturnsStoredInstance(t, c, ps, Exc(e), args);
  }

  /** The default-constructor implementation answers the supplier's object
      for a call with no parameter types, null or empty. */
  lemma {:induction false} DefaultConstructorAnswersSupplier(t: Table<JClass, string>, c: JClass, supplier: () -> Value, args: Args, ps: Option<seq<JClass>>)
    requires ps.None? || ps == Some([])
    ensures Resolve(Put(t, c, "()", Fn(SupplierAsFunction(supplier))), c, KeyOf(ps), args) == Return(supplier())
  {
    assert KeyOf(ps) == "()";
    PutEntry(t, c, "()", Fn(SupplierAsFunction(supplier)), c, "()");
  }

  /** Configuring one signature leaves every other signature, and every
      other class, as it was. */
  lemma {:induction false} OtherSignaturesUnaffected(t: Table<JClass, string>, c: JClass, k: string, s: Stored, d: JClass, k': string, args: Args)
    requires (d, k') != (c, k)
    ensures Resolve(Put(t, c, k, s), d, k', args) == Resolve(t, d, k', args)
  {
    PutEntry(t, c, k, s, d, k');
  }

  /** After `reset(c)` every constructor of `c` proceeds; preparing changes
      no answer. */
  lemma {:induction false} ResetAndPrepare(t: Table<JClass, string>, c: JClass, d: JClass, k: string, args: Args)
    ensures Resolve(t - {c}, c, k, args) == Proceed
    ensures d != c ==> Resolve(t - {c}, d, k, args) == Resolve(t, d, k, args)
    ensures Resolve(Prepared(t, c), d, k, args) == Resolve(t, d, k, args)
  {
    RemoveEntry(t, c, d, k);
    PreparedKeepsEntries(t, c, d, k);
  }

  /** The constructor scenario: the no-argument constructor answers the
      prepared instance itself, and `(java.lang.String)` answers the
      implementation's result for its arguments. */
  method ConstructorScenario(c: JClass, instance: nat, stringClass: JClass) returns (noArgs: Resolution, oneArg: Resolution)
    requires stringClass.name == "java.lang.String"
    ensures noArgs == Return(Ref(instance))
    ensures oneArg == Return(Str("built"))
  {
    var cm := new ConstructorMocker();
    cm.PrepareForConstructorMocking(c);
    assert cm.constructorMocks == map[c := map[]];
    assert KeyOf(Some([])) == "()";
    var _ := cm.WhenConstructor(c, Ref(instance), Some([]));
    var t1 := cm.constructorMocks;
    ConstructorReturnsStoredInstance(map[c := map[]], c, Some([]), Ref(instance), Some([]));
    noArgs := cm.HandleConstructorCall(c, Some([]), Some([]));
    var impl := (a: Args) => Str("built");
    var _ := cm.WhenConstructorImplement(c, Some(impl), Some([stringClass]));
    assert Names([stringClass]) == ["java.lang.String"];
    assert KeyOf(Some([stringClass])) == "(java.lang.String)";
    PutEntry(t1, c, "(java.lang.String)", Fn(impl), c, "(java.lang.String)");
    oneArg := cm.HandleConstructorCall(c, Some([Str("x")]), Some([stringClass]));
  }
}
