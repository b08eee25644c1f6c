/**
 * `StaticMocker`: answers for static methods, per class and method name.
 * The rewritten static method asks `handleStaticMethodCall` and runs its
 * original body when told `PROCEED`.
 */
module StaticMocker {
  import opened Values
  import opened Redirection

  /** What `handleStaticMethodCall` answers: the stored answer for (class,
      method name) applied to the arguments, or `PROCEED` when there is
      none. The arguments play no part in choosing the answer. */
  function Resolve(t: Table<JClass, string>, clazz: JClass, methodName: string, args: Args): (r: Resolution)
    ensures r == Proceed <==> Entry(t, clazz, methodName).None?
    ensures Entry(t, clazz, methodName).Some? ==> r == Apply(Entry(t, clazz, methodName).value, args)
  {
    match Entry(t, clazz, methodName)
    case None => Proceed
    case Some(s) => Apply(s, args)
  }

  /** The static state of `StaticMocker`. */
  class StaticMocker {
    var staticMethodReturns: Table<JClass, string>

    constructor ()
      ensures staticMethodReturns == map[]
    {
      staticMethodReturns := map[];
    }

    /** `prepareForStaticMocking`, table part: `putIfAbsent` of an empty
        method map. */
    method PrepareForStaticMocking(clazz: JClass)
      modifies this
      ensures staticMethodReturns == Prepared(old(staticMethodReturns), clazz)
    {
      if clazz !in staticMethodReturns {
        staticMethodReturns := staticMethodReturns[clazz := map[]];
      }
    }

    /** `ensurePrepared`: prepares only a class without a method map. */
    method EnsurePrepared(clazz: JClass)
      modifies this
      ensures old(clazz in staticMethodReturns) ==> staticMethodReturns == old(staticMethodReturns)
      ensures staticMethodReturns == Prepared(old(staticMethodReturns), clazz)
    {
      if clazz !in staticMethodReturns {
        PrepareForStaticMocking(clazz);
      }
    }

    /** The body shared by the three configuration methods: prepare the
        class, then store; a null object makes the `put` throw after the
        class has been prepared. */
    method Store(clazz: JClass, methodName: string, s: Stored) returns (status: Status)
      modifies this
      ensures IsNull(s) ==> status == Failed(NullPointerException)
      ensures IsNull(s) ==> staticMethodReturns == Prepared(old(staticMethodReturns), clazz)
      ensures !IsNull(s) ==> status == Done
      ensures !IsNull(s) ==> staticMethodReturns == Put(old(staticMethodReturns), clazz, methodName, s)
    {
      EnsurePrepared(clazz);
      if IsNull(s) {
        return Failed(NullPointerException);
      }
      staticMethodReturns := staticMethodReturns[clazz := staticMethodReturns[clazz][methodName := s]];
      status := Done;
    }

    /** `when(clazz, methodName, returnValue)`. */
    method When(clazz: JClass, methodName: string, returnValue: Value) returns (status: Status)
      modifies this
      ensures returnValue == Null ==> status == Failed(NullPointerException)
      ensures returnValue == Null ==> staticMethodReturns == Prepared(old(staticMethodReturns), clazz)
      ensures returnValue != Null ==> status == Done
      ensures returnValue != Null ==> staticMethodReturns == Put(old(staticMethodReturns), clazz, methodName, Classify(returnValue))
    {
      status := Store(clazz, methodName, Classify(returnValue));
    }

    /** `whenThrow(clazz, methodName, throwable)`. */
    method WhenThrow(clazz: JClass, methodName: string, throwable: Option<Exn>) returns (status: Status)
      modifies this
      ensures throwable.None? ==> status == Failed(NullPointerException)
      ensures throwable.None? ==> staticMethodReturns == Prepared(old(staticMethodReturns), clazz)
      ensures throwable.Some? ==> status == Done
      ensures throwable.Some? ==> staticMethodReturns == Put(old(staticMethodReturns), clazz, methodName, Thrown(throwable.value))
    {
      status := Store(clazz, methodName, ThrowableObject(throwable));
    }

    /** `whenImplement(clazz, methodName, implementation)`. */
    method WhenImplement(clazz: JClass, methodName: string, implementation: Option<Args -> Value>) returns (status: Status)
      modifies this
      ensures implementation.None? ==> status == Failed(NullPointerException)
      ensures implementation.None? ==> staticMethodReturns == Prepared(old(staticMethodReturns), clazz)
      ensures implementation.Some? ==> status == Done
      ensures implementation.Some? ==> staticMethodReturns == Put(old(staticMethodReturns), clazz, methodName, Fn(implementation.value))
    {
      status := Store(clazz, methodName, FunctionObject(implementation));
    }

    /** `handleStaticMethodCall`: a read-only lookup. */
    method HandleStaticMethodCall(clazz: JClass, methodName: string, args: Args) returns (r: Resolution)
      ensures r == Resolve(staticMethodReturns, clazz, methodName, args)
    {
      if clazz in staticMethodReturns && methodName in staticMethodReturns[clazz] {
        var result := staticMethodReturns[clazz][methodName];
        match result
        case Thrown(e) => r := Raise(e);
        case Fn(f) => r := Return(f(args));
        case Plain(v) => r := Return(v);
      } else {
        r := Proceed;
      }
    }

    /** `resetAll`, table part. */
    method ResetAll()
      modifies this
      ensures staticMethodReturns == map[]
    {
      staticMethodReturns := map[];
    }

    /** `reset(clazz)`. */
    method Reset(clazz: JClass)
      modifies this
      ensures staticMethodReturns == old(staticMethodReturns) - {clazz}
    {
      staticMethodReturns := staticMethodReturns - {clazz};
    }
  }

  /** After `when(c, m, v)` with a non-null `v`, a call of `m` on `c` returns
      `v`, or throws it when it is a Throwable; every other (class, method)
      is answered as before. */
  lemma {:induction false} WhenThenHandle(t: Table<JClass, string>, c: JClass, m: string, v: Value, d: JClass, n: string, args: Args)
    requires v != Null
    ensures Resolve(Put(t, c, m, Classify(v)), c, m, args) == (if v.Exc? then Raise(v.e) else Return(v))
    ensures (d, n) != (c, m) ==> Resolve(Put(t, c, m, Classify(v)), d, n, args) == Resolve(t, d, n, args)
  {
    PutEntry(t, c, m, Classify(v), d, n);
  }

  /** `whenThrow` makes the call throw that very Throwable. */
  lemma {:induction false} WhenThrowThenHandle(t: Table<JClass, string>, c: JClass, m: string, e: Exn, args: Args)
    ensures Resolve(Put(t, c, m, Thrown(e)), c, m, args) == Raise(e)
  {
    PutEntry(t, c, m, Thrown(e), c, m);
  }

  /** `whenImplement` makes the call answer the function of its arguments. */
  lemma {:induction false} WhenImplementThenHandle(t: Table<JClass, string>, c: JClass, m: string, f: Args -> Value, args: Args)
    ensures Resolve(Put(t, c, m, Fn(f)), c, m, args) == Return(f(args))
  {
    PutEntry(t, c, m, Fn(f), c, m);
  }

  /** A later configuration of the same (class, method) replaces the earlier
      one. */
  lemma {:induction false} LaterConfigurationWins(t: Table<JClass, string>, c: JClass, m: string, s1: Stored, s2: Stored, args: Args)
    ensures Resolve(Put(Put(t, c, m, s1), c, m, s2), c, m, args) == Apply(s2, args)
  {
    PutTwice(t, c, m, s1, s2);
    PutEntry(t, c, m, s2, c, m);
  }

  /** Unless the answer is a function, the arguments do not matter. */
  lemma ArgumentsIgnored(t: Table<JClass, string>, c: JClass, m: string, a1: Args, a2: Args)
    requires Entry(t, c, m).None? || !Entry(t, c, m).value.Fn?
    ensures Resolve(t, c, m, a1) == Resolve(t, c, m, a2)
  {
  }

  /** Preparing a class, again or for the first time, changes no answer. */
  lemma {:induction false} PrepareChangesNoAnswer(t: Table<JClass, string>, c: JClass, d: JClass, n: string, args: Args)
    ensures Resolve(Prepared(t, c), d, n, args) == Resolve(t, d, n, args)
  {
    PreparedKeepsEntries(t, c, d, n);
  }

  /** After `reset(c)` every static call of `c` proceeds to the original,
      and other classes are unaffected. */
  lemma {:induction false} ResetProceeds(t: Table<JClass, string>, c: JClass, d: JClass, n: string, args: Args)
    ensures Resolve(t - {c}, c, n, args) == Proceed
    ensures d != c ==> Resolve(t - {c}, d, n, args) == Resolve(t, d, n, args)
  {
    RemoveEntry(t, c, d, n);
  }

  /** The static-mocking scenario: a stubbed value, then a stubbed
      exception, then an implementation, on the same method. */
  method StaticScenario(c: JClass, boom: Exn) returns (first: Resolution, second: Resolution, third: Resolution)
    ensures first == Return(Str("Mocked Static Value"))
    ensures second == Raise(boom)
    ensures third == Return(Str("Implemented: x"))
  {
    var sm := new StaticMocker();
    var _ := sm.When(c, "getStaticValue", Str("Mocked Static Value"));
    WhenThenHandle(map[], c, "getStaticValue", Str("Mocked Static Value"), c, "getStaticValue", None);
    first := sm.HandleStaticMethodCall(c, "getStaticValue", None);
    var t1 := sm.staticMethodReturns;
    var _ := sm.WhenThrow(c, "getStaticValue", Some(boom));
    WhenThrowThenHandle(t1, c, "getStaticValue", boom, None);
    second := sm.HandleStaticMethodCall(c, "getStaticValue", None);
    var t2 := sm.staticMethodReturns;
    var impl := (a: Args) => if a == Some([Str("x")]) then Str("Implemented: x") else Null;
    var _ := sm.WhenImplement(c, "getStaticValue", Some(impl));
    WhenImplementThenHandle(t2, c, "getStaticValue", impl, Some([Str("x")]));
    third := sm.HandleStaticMethodCall(c, "getStaticValue", Some([Str("x")]));
  }
}
