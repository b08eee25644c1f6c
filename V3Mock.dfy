/**
 * The v3 public API: `when(...)` returns a builder that registers a
 * behaviour with the factory, `verify(...)` returns a builder that compares
 * the recorded call count with an expected count.
 */
module V3Mock {
  import opened Values
  import opened V3Factory

  /** `Mock.when(mock, methodName, args...)`: remembers the call it is about
      and registers one behaviour per `then...` call. */
  class WhenBuilder {
    const mock: Option<MockId>
    const methodName: string
    const args: Args
    var returnValue: Value
    var throwable: Option<Exn>

    constructor (mock: Option<MockId>, methodName: string, args: Args)
      ensures this.mock == mock && this.methodName == methodName && this.args == args
      ensures returnValue == Null && throwable == None
    {
      this.mock := mock;
      this.methodName := methodName;
      this.args := args;
      returnValue := Null;
      throwable := None;
    }

    /** `thenReturn`: the call now answers `value`; the builder is returned
        for chaining. A call stubbed twice keeps its first answer (see
        `V3Factory.EarliestRegistrationWins`). */
    method ThenReturn(f: MockFactory, value: Value) returns (self: WhenBuilder)
      modifies this, f
      ensures self == this
      ensures returnValue == value && throwable == old(throwable)
      ensures mock.Some? ==>
        f.configRegistry == old(f.configRegistry)[mock.value :=
          old(f.Behaviors(mock.value)) + [MockBehavior(methodName, args, value, None)]]
      ensures mock.None? ==> f.configRegistry == old(f.configRegistry)
      ensures f.registry == old(f.registry) && f.invocationRegistry == old(f.invocationRegistry)
    {
      returnValue := value;
      f.RegisterBehavior(mock, Some(MockBehavior(methodName, args, value, None)));
      self := this;
    }

    /** `thenThrow`: the call now throws `t` (a null Throwable gives a
        behaviour that returns null). */
    method ThenThrow(f: MockFactory, t: Option<Exn>) returns (self: WhenBuilder)
      modifies this, f
      ensures self == this
      ensures throwable == t && returnValue == old(returnValue)
      ensures mock.Some? ==>
        f.configRegistry == old(f.configRegistry)[mock.value :=
          old(f.Behaviors(mock.value)) + [MockBehavior(methodName, args, Null, t)]]
      ensures mock.None? ==> f.configRegistry == old(f.configRegistry)
      ensures f.registry == old(f.registry) && f.invocationRegistry == old(f.invocationRegistry)
    {
      throwable := t;
      f.RegisterBehavior(mock, Some(MockBehavior(methodName, args, Null, t)));
      self := this;
    }
  }

  /** The verdict of a count check against a ledger: no method chosen, a
      count mismatch, or success. */
  function Verdict(ledger: seq<InvocationRecord>, methodName: Option<string>, args: Args, expected: int): (s: Status)
    ensures methodName.None? ==> s == Failed(IllegalStateException)
    ensures methodName.Some? ==>
      (s == Done <==> CountMatching(ledger, methodName.value, args) == expected)
    ensures methodName.Some? && s != Done ==>
      s == Failed(AssertionError(methodName.value, expected, CountMatching(ledger, methodName.value, args)))
  {
    if methodName.None? then Failed(IllegalStateException)
    else
      var actual := CountMatching(ledger, methodName.value, args);
      if actual != expected then Failed(AssertionError(methodName.value, expected, actual)) else Done
  }

  /** `Mock.verify(mock)`: expects one call unless told otherwise. */
  class VerifyBuilder {
    const mock: MockId
    var methodName: Option<string>
    var args: Args
    var expectedTimes: int

    constructor (mock: MockId)
      ensures this.mock == mock && methodName == None && args == None && expectedTimes == 1
    {
      this.mock := mock;
      methodName := None;
      args := None;
      expectedTimes := 1;
    }

    /** `method(name, args...)`: chooses the call to count. */
    method Method(methodName: string, args: Args) returns (self: VerifyBuilder)
      modifies this
      ensures self == this
      ensures this.methodName == Some(methodName) && this.args == args
      ensures expectedTimes == old(expectedTimes)
    {
      this.methodName := Some(methodName);
      this.args := args;
      self := this;
    }

    /** The private `check`: fails without a chosen method, fails with an
        `AssertionError` naming both counts when the recorded count differs
        from the expected one, and otherwise passes. */
    method Check(f: MockFactory) returns (self: VerifyBuilder, s: Status)
      ensures self == this
      ensures s == Verdict(f.Ledger(mock), methodName, args, expectedTimes)
    {
      self := this;
      if methodName.None? {
        return this, Failed(IllegalStateException);
      }
      var actual := f.CountInvocations(mock, methodName.value, args);
      if actual != expectedTimes {
        return this, Failed(AssertionError(methodName.value, expectedTimes, actual));
      }
      s := Done;
    }

    /** `once()`: expects exactly one matching call. */
    method Once(f: MockFactory) returns (self: VerifyBuilder, s: Status)
      modifies this
      ensures self == this
      ensures expectedTimes == 1
      ensures methodName == old(methodName) && args == old(args)
      ensures s == Verdict(f.Ledger(mock), methodName, args, 1)
    {
      expectedTimes := 1;
      self, s := Check(f);
    }

    /** `times(n)`: expects exactly `n` matching calls. */
    method Times(f: MockFactory, n: int) returns (self: VerifyBuilder, s: Status)
      modifies this
      ensures self == this
      ensures expectedTimes == n
      ensures methodName == old(methodName) && args == old(args)
      ensures s == Verdict(f.Ledger(mock), methodName, args, n)
    {
      expectedTimes := n;
      self, s := Check(f);
    }
  }

  /** After `k` identical calls, `times(k)` passes and every other expected
      count fails with the actual count `k`. */
  lemma {:induction false} VerifyAfterRepeatedCalls(rs: seq<InvocationRecord>, methodName: string, args: Args, k: nat, m: int)
    requires CountMatching(rs, methodName, args) == 0
    ensures Verdict(rs + Repeat(InvocationRecord(methodName, args), k), Some(methodName), args, k) == Done
    ensures m != k ==>
      Verdict(rs + Repeat(InvocationRecord(methodName, args), k), Some(methodName), args, m)
        == Failed(AssertionError(methodName, m, k))
  {
    var r := InvocationRecord(methodName, args);
    assert r.Covers(methodName, args);
    CountAfterRepeats(rs, r, k, methodName, args);
  }

  /** The interface scenario: two recorded `hello("world")` calls satisfy
      `times(2)` and fail `once()`. */
  method TwoCallsScenario(proxy: MockId) returns (twice: Status, once: Status)
    ensures twice == Done
    ensures once == Failed(AssertionError("hello", 1, 2))
  {
    var f := new MockFactory();
    var a := new Value[1];
    a[0] := Str("world");
    assert a[..] == [Str("world")];
    f.RecordInvocation(proxy, "hello", a);
    f.RecordInvocation(proxy, "hello", a);
    var r := InvocationRecord("hello", Some([Str("world")]));
    assert Repeat(r, 1) == [r];
    assert f.Ledger(proxy) == [] + Repeat(r, 2);
    VerifyAfterRepeatedCalls([], "hello", Some([Str("world")]), 2, 1);
    var v := new VerifyBuilder(proxy);
    var _ := v.Method("hello", Some([Str("world")]));
    var _, t := v.Times(f, 2);
    twice := t;
    var _, o := v.Once(f);
    once := o;
  }
}
