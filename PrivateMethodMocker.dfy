/**
 * `PrivateMethodMocker`: answers for private methods, per receiver instance
 * and method name. Receivers are compared with their own `equals`, which is
 * `==` on the receiver type `R` here.
 */
module PrivateMethodMocker {
  import opened Values
  import opened Redirection

  /** The static state of `PrivateMethodMocker`. */
  class PrivateMethodMocker<R(==)> {
    var privateMethodReturns: Table<R, string>

    constructor ()
      ensures privateMethodReturns == map[]
    {
      privateMethodReturns := map[];
    }

    /** `computeIfAbsent(instance, new map).put(methodName, s)`; the `put`
        of a null object throws after the receiver got its map. */
    method Store(instance: R, methodName: string, s: Stored) returns (status: Status)
      modifies this
      ensures IsNull(s) ==> status == Failed(NullPointerException)
      ensures IsNull(s) ==> privateMethodReturns == Prepared(old(privateMethodReturns), instance)
      ensures !IsNull(s) ==> status == Done
      ensures !IsNull(s) ==> privateMethodReturns == Put(old(privateMethodReturns), instance, methodName, s)
    {
      if instance !in privateMethodReturns {
        privateMethodReturns := privateMethodReturns[instance := map[]];
      }
      if IsNull(s) {
        return Failed(NullPointerException);
      }
      privateMethodReturns := privateMethodReturns[instance := privateMethodReturns[instance][methodName := s]];
      status := Done;
    }

    /** `when(instance, methodName, returnValue)`. */
    method When(instance: R, methodName: string, returnValue: Value) returns (status: Status)
      modifies this
      ensures returnValue == Null ==> status == Failed(NullPointerException)
      ensures returnValue == Null ==> privateMethodReturns == Prepared(old(privateMethodReturns), instance)
      ensures returnValue != Null ==> status == Done
      ensures returnValue != Null ==> privateMethodReturns == Put(old(privateMethodReturns), instance, methodName, Classify(returnValue))
    {
      status := Store(instance, methodName, Classify(returnValue));
    }

    /** `whenThrow(instance, methodName, throwable)`. */
    method WhenThrow(instance: R, methodName: string, throwable: Option<Exn>) returns (status: Status)
      modifies this
      ensures throwable.None? ==> status == Failed(NullPointerException)
      ensures throwable.None? ==> privateMethodReturns == Prepared(old(privateMethodReturns), instance)
      ensures throwable.Some? ==> status == Done
      ensures throwable.Some? ==> privateMethodReturns == Put(old(privateMethodReturns), instance, methodName, Thrown(throwable.value))
    {
      status := Store(instance, methodName, ThrowableObject(throwable));
    }

    /** `whenImplement(instance, methodName, implementation)`. */
    method WhenImplement(instance: R, methodName: string, implementation: Option<Args -> Value>) returns (status: Status)
      modifies this
      ensures implementation.None? ==> status == Failed(NullPointerException)
      ensures implementation.None? ==> privateMethodReturns == Prepared(old(privateMethodReturns), instance)
      ensures implementation.Some? ==> status == Done
      ensures implementation.Some? ==> privateMethodReturns == Put(old(privateMethodReturns), instance, methodName, Fn(implementation.value))
    {
      status := Store(instance, methodName, FunctionObject(implementation));
    }

    /** `handlePrivateMethodCall`: a read-only lookup. */
    method HandlePrivateMethodCall(instance: R, methodName: string, args: Args) returns (r: Resolution)
      ensures r == AnswerOrNull(privateMethodReturns, instance, methodName, args)
    {
      if instance in privateMethodReturns && methodName in privateMethodReturns[instance] {
        var result := privateMethodReturns[instance][methodName];
        match result
        case Thrown(e) => r := Raise(e);
        case Fn(f) => r := Return(f(args));
        case Plain(v) => r := Return(v);
      } else {
        r := Return(Null);
      }
    }

    /** `resetAll`. */
    method ResetAll()
      modifies this
      ensures privateMethodReturns == map[]
    {
      privateMethodReturns := map[];
    }

    /** `reset(instance)`. */
    method Reset(instance: R)
      modifies this
      ensures privateMethodReturns == old(privateMethodReturns) - {instance}
    {
      privateMethodReturns := privateMethodReturns - {instance};
    }
  }

  /** Configuring one receiver never changes the answers for another, nor
      for another method of the same receiver; the configured pair answers
      what was stored, a later store replacing an earlier one. */
  lemma {:induction false} ConfigurationIsPerReceiver<R>(t: Table<R, string>, i: R, m: string, s: Stored, j: R, n: string, args: Args)
    ensures AnswerOrNull(Put(t, i, m, s), i, m, args) == Apply(s, args)
    ensures (j, n) != (i, m) ==> AnswerOrNull(Put(t, i, m, s), j, n, args) == AnswerOrNull(t, j, n, args)
  {
    PutEntry(t, i, m, s, j, n);
  }

  /** A later configuration of the same pair replaces the earlier one. */
  lemma {:induction false} LaterConfigurationWins<R>(t: Table<R, string>, i: R, m: string, s1: Stored, s2: Stored, args: Args)
    ensures AnswerOrNull(Put(Put(t, i, m, s1), i, m, s2), i, m, args) == Apply(s2, args)
  {
    PutTwice(t, i, m, s1, s2);
    PutEntry(t, i, m, s2, i, m);
  }

  /** After `reset(i)`, every private call on `i` answers null; other
      receivers are unaffected. */
  lemma {:induction false} ResetAnswersNull<R>(t: Table<R, string>, i: R, j: R, n: string, args: Args)
    ensures AnswerOrNull(t - {i}, i, n, args) == Return(Null)
    ensures j != i ==> AnswerOrNull(t - {i}, j, n, args) == AnswerOrNull(t, j, n, args)
  {
    RemoveEntry(t, i, j, n);
  }

  /** The private-method scenario on one receiver: a stubbed value answers
      100, a stubbed exception is rethrown as the same object, and an
      implementation answers 200; another receiver still answers null. */
  method PrivateScenario(user: nat, other: nat, boom: Exn) returns (a: Resolution, b: Resolution, c: Resolution, d: Resolution)
    requires user != other
    ensures a == Return(Int(100))
    ensures b == Raise(boom)
    ensures c == Return(Int(200))
    ensures d == Return(Null)
  {
    var pm := new PrivateMethodMocker<nat>();
    var _ := pm.When(user, "calculateScore", Int(100));
    ConfigurationIsPerReceiver(map[], user, "calculateScore", Plain(Int(100)), user, "calculateScore", Some([]));
    a := pm.HandlePrivateMethodCall(user, "calculateScore", Some([]));
    var t1 := pm.privateMethodReturns;
    var _ := pm.WhenThrow(user, "calculateScore", Some(boom));
    ConfigurationIsPerReceiver(t1, user, "calculateScore", Thrown(boom), user, "calculateScore", Some([]));
    b := pm.HandlePrivateMethodCall(user, "calculateScore", Some([]));
    var t2 := pm.privateMethodReturns;
    var _ := pm.WhenImplement(user, "calculateScore", Some((x: Args) => Int(200)));
    ConfigurationIsPerReceiver(t2, user, "calculateScore", Fn((x: Args) => Int(200)), other, "calculateScore", Some([]));
    c := pm.HandlePrivateMethodCall(user, "calculateScore", Some([]));
    assert other !in pm.privateMethodReturns;
    d := pm.HandlePrivateMethodCall(other, "calculateScore", Some([]));
  }
}
