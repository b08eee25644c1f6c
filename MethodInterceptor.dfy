/**
 * The legacy stubbing scheme: a call is identified by the default value the
 * mock returned for it. `recordMethodCall` remembers that value on the
 * interceptor; `thenReturn`/`thenThrow`/`thenImplement` key one of three
 * shared maps by it; the proxy later asks whether its default value has a
 * stub and, if so, what it is.
 */
module MethodInterceptor {
  import opened Values

  /** The answer the shared maps give for key `k`, in the fixed precedence:
      an exception (a null one makes `throw` raise a
      `NullPointerException`), then an implementation (a null one fails
      when applied), then the stored return value (null when there is
      none). */
  function StubAnswer(returnValues: map<Value, Value>, exceptions: map<Value, Option<Exn>>,
                      implementations: map<Value, Option<Args -> Value>>, k: Value, args: Args): (r: Reply)
    ensures k in exceptions && exceptions[k].Some? ==> r == Threw(exceptions[k].value)
    ensures k in exceptions && exceptions[k].None? ==> r == Crashed(NullPointerException)
    ensures k !in exceptions && k in implementations && implementations[k].Some? ==>
      r == Returned(implementations[k].value(args))
    ensures k !in exceptions && k in implementations && implementations[k].None? ==>
      r == Crashed(NullPointerException)
    ensures k !in exceptions && k !in implementations ==>
      r == Returned(if k in returnValues then returnValues[k] else Null)
  {
    if k in exceptions then
      (if exceptions[k].Some? then Threw(exceptions[k].value) else Crashed(NullPointerException))
    else if k in implementations then
      (if implementations[k].Some? then Returned(implementations[k].value(args)) else Crashed(NullPointerException))
    else
      Returned(if k in returnValues then returnValues[k] else Null)
  }

  /** An exception stub wins over every other stub of the same key, and an
      implementation wins over a return value. */
  lemma PrecedenceIsFixed(rv: map<Value, Value>, ex: map<Value, Option<Exn>>, im: map<Value, Option<Args -> Value>>,
                          k: Value, e: Exn, f: Args -> Value, v: Value, args: Args)
    ensures StubAnswer(rv[k := v], ex[k := Some(e)], im[k := Some(f)], k, args) == Threw(e)
    ensures k !in ex ==> StubAnswer(rv[k := v], ex, im[k := Some(f)], k, args) == Returned(f(args))
    ensures k !in ex && k !in im ==> StubAnswer(rv[k := v], ex, im, k, args) == Returned(v)
  {
  }

  /** `ResultBuilder`: carries the recorded call's value. */
  datatype ResultBuilder = ResultBuilder(methodReturnValue: Value)
  {
    /** `getMethodReturnValue`. */
    function GetMethodReturnValue(): (v: Value)
      ensures v == methodReturnValue
    {
      methodReturnValue
    }
  }

  /** The three static maps shared by every interceptor. */
  class StubMaps {
    var methodReturnValues: map<Value, Value>
    var methodExceptions: map<Value, Option<Exn>>
    var methodImplementations: map<Value, Option<Args -> Value>>

    constructor ()
      ensures methodReturnValues == map[] && methodExceptions == map[] && methodImplementations == map[]
    {
      methodReturnValues := map[];
      methodExceptions := map[];
      methodImplementations := map[];
    }

    /** Nothing is ever stored under a null key. */
    predicate Valid()
      reads this
    {
      Null !in methodReturnValues && Null !in methodExceptions && Null !in methodImplementations
    }

    /** `hasReturnValue(k)`: `k` is a key of one of the maps. */
    predicate Has(k: Value)
      reads this
    {
      k in methodReturnValues || k in methodExceptions || k in methodImplementations
    }

    /** `getReturnValue(k, args)`. */
    function Answer(k: Value, args: Args): Reply
      reads this
    {
      StubAnswer(methodReturnValues, methodExceptions, methodImplementations, k, args)
    }

    /** `hasReturnValue`. */
    method HasReturnValue(methodCall: Value) returns (b: bool)
      ensures b <==> Has(methodCall)
      ensures Valid() && methodCall == Null ==> !b
    {
      b := methodCall in methodReturnValues || methodCall in methodExceptions || methodCall in methodImplementations;
    }

    /** `getReturnValue`: exception first, then implementation, then the
        stored return value. */
    method GetReturnValue(methodCall: Value, args: Args) returns (r: Reply)
      ensures r == Answer(methodCall, args)
    {
      if methodCall in methodExceptions {
        var t := methodExceptions[methodCall];
        if t.None? {
          return Crashed(NullPointerException);
        }
        return Threw(t.value);
      }
      if methodCall in methodImplementations {
        var f := methodImplementations[methodCall];
        if f.None? {
          return Crashed(NullPointerException);
        }
        return Returned(f.value(args));
      }
      if methodCall in methodReturnValues {
        return Returned(methodReturnValues[methodCall]);
      }
      r := Returned(Null);
    }
  }

  /** `MethodInterceptor`: one per mock; remembers the last recorded call. */
  class MethodInterceptor {
    const mock: Value
    var lastMethodReturnValue: Value
    var methodCalled: bool

    constructor (mock: Value)
      ensures this.mock == mock && lastMethodReturnValue == Null && !methodCalled
    {
      this.mock := mock;
      lastMethodReturnValue := Null;
      methodCalled := false;
    }

    /** `recordMethodCall(returnValue)`. */
    method RecordMethodCall(returnValue: Value)
      modifies this
      ensures lastMethodReturnValue == returnValue && methodCalled
    {
      lastMethodReturnValue := returnValue;
      methodCalled := true;
    }

    /** `thenReturn(returnValue)`: without a recorded call it throws;
        otherwise it stores under the recorded value unless that is null,
        and returns a builder for it either way. */
    method ThenReturn(maps: StubMaps, returnValue: Value) returns (r: Result<ResultBuilder>)
      requires maps.Valid()
      modifies maps
      ensures maps.Valid()
      ensures !methodCalled ==> r == Failure(IllegalStateException)
      ensures methodCalled ==> r == Success(ResultBuilder(lastMethodReturnValue))
      ensures maps.methodReturnValues ==
        if methodCalled && lastMethodReturnValue != Null then old(maps.methodReturnValues)[lastMethodReturnValue := returnValue]
        else old(maps.methodReturnValues)
      ensures maps.methodExceptions == old(maps.methodExceptions)
      ensures maps.methodImplementations == old(maps.methodImplementations)
    {
      if !methodCalled {
        return Failure(IllegalStateException);
      }
      if lastMethodReturnValue != Null {
        maps.methodReturnValues := maps.methodReturnValues[lastMethodReturnValue := returnValue];
      }
      r := Success(ResultBuilder(lastMethodReturnValue));
    }

    /** `thenThrow(throwable)`. */
    method ThenThrow(maps: StubMaps, throwable: Option<Exn>) returns (r: Result<ResultBuilder>)
      requires maps.Valid()
      modifies maps
      ensures maps.Valid()
      ensures !methodCalled ==> r == Failure(IllegalStateException)
      ensures methodCalled ==> r == Success(ResultBuilder(lastMethodReturnValue))
      ensures maps.methodExceptions ==
        if methodCalled && lastMethodReturnValue != Null then old(maps.methodExceptions)[lastMethodReturnValue := throwable]
        else old(maps.methodExceptions)
      ensures maps.methodReturnValues == old(maps.methodReturnValues)
      ensures maps.methodImplementations == old(maps.methodImplementations)
    {
      if !methodCalled {
        return Failure(IllegalStateException);
      }
      if lastMethodReturnValue != Null {
        maps.methodExceptions := maps.methodExceptions[lastMethodReturnValue := throwable];
      }
      r := Success(ResultBuilder(lastMethodReturnValue));
    }

    /** `thenImplement(implementation)`. */
    method ThenImplement(maps: StubMaps, implementation: Option<Args -> Value>) returns (r: Result<ResultBuilder>)
      requires maps.Valid()
      modifies maps
      ensures maps.Valid()
      ensures !methodCalled ==> r == Failure(IllegalStateException)
      ensures methodCalled ==> r == Success(ResultBuilder(lastMethodReturnValue))
      ensures maps.methodImplementations ==
        if methodCalled && lastMethodReturnValue != Null then old(maps.methodImplementations)[lastMethodReturnValue := implementation]
        else old(maps.methodImplementations)
      ensures maps.methodReturnValues == old(maps.methodReturnValues)
      ensures maps.methodExceptions == old(maps.methodExceptions)
    {
      if !methodCalled {
        return Failure(IllegalStateException);
      }
      if lastMethodReturnValue != Null {
        maps.methodImplementations := maps.methodImplementations[lastMethodReturnValue := implementation];
      }
      r := Success(ResultBuilder(lastMethodReturnValue));
    }
  }

  /** The recorded value keys the stub: record `k`, stub it with `v`, and
      the maps answer `v` for `k` (when no exception or implementation
      shadows it); a recorded null stores nothing. */
  method RecordThenStub(maps: StubMaps, mi: MethodInterceptor, k: Value, v: Value, args: Args)
    returns (b: Result<ResultBuilder>, has: bool, answer: Reply)
    requires maps.Valid()
    requires k !in maps.methodExceptions && k !in maps.methodImplementations
    modifies maps, mi
    ensures b == Success(ResultBuilder(k))
    ensures k != Null ==> has && answer == Returned(v)
    ensures k == Null ==> !has
  {
    mi.RecordMethodCall(k);
    b := mi.ThenReturn(maps, v);
    has := maps.HasReturnValue(k);
    answer := maps.GetReturnValue(k, args);
  }
}
