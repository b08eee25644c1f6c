/**
 * The fallback JDK-proxy handler `MockitoAdapter.MockInvocationHandler`. It
 * answers `equals`, `hashCode` and `toString` by name alone; every other
 * call is answered from the return-value-keyed stubs of `MethodInterceptor`
 * (keyed by the call's default value), then from the handler's own
 * `methodReturns` (keyed by method name), and otherwise with the default.
 */
module MockitoAdapter {
  import opened Values
  import opened ObjenesisEngine
  import opened MethodInterceptor

  /** `getDefaultReturnValue`: the zero of a primitive type or of its box;
      null for `void`, for other `Number` subclasses and for every other
      reference type. */
  function AdapterDefault(t: JType): (v: Value)
    ensures v != Null <==> t.Primitive? || t.Boxed?
    ensures t.Primitive? ==> PrimOf(v) == Some(t.p) && IsZero(v)
    ensures t.Boxed? ==> PrimOf(v) == Some(t.boxOf) && IsZero(v)
  {
    match t
    case Void => Null
    case Primitive(p) => ZeroOf(p)
    case Boxed(p) => ZeroOf(p)
    case OtherNumber(_) => Null
    case Reference(_) => Null
  }

  /** The adapter and the v3 engine choose the same default except for the
      boxed types, where the v3 engine answers null. */
  lemma {:induction false} DefaultsDifferOnlyForBoxes(t: JType)
    ensures AdapterDefault(t) == DefaultValue(t) <==> !t.Boxed?
  {
    if t.Primitive? {
      ZeroIsUnique(AdapterDefault(t), DefaultValue(t));
    }
  }

  /** The names the handler answers itself, whatever the parameters. */
  predicate IsObjectMethodName(name: string)
  {
    name == "equals" || name == "hashCode" || name == "toString"
  }

  /** The answer to a call that is not an `Object` method: first the
      interceptor's stub for the call's default value, then the local stub
      for the method's name (a Throwable is thrown), then the default
      itself. `rv`, `ex`, `im` are the interceptor's three maps. */
  function StubbedReply(rv: map<Value, Value>, ex: map<Value, Option<Exn>>, im: map<Value, Option<Args -> Value>>,
                        local: map<string, Value>, name: string, t: JType, args: Args): (r: Reply)
    ensures r.Crashed? ==> r == Crashed(NullPointerException) && (AdapterDefault(t) in ex || AdapterDefault(t) in im)
    ensures r.Threw? ==> (AdapterDefault(t) in ex && ex[AdapterDefault(t)] == Some(r.e))
                         || (name in local && local[name] == Exc(r.e))
  {
    var result := AdapterDefault(t);
    if result in rv || result in ex || result in im then StubAnswer(rv, ex, im, result, args)
    else if name in local then
      (if local[name].Exc? then Threw(local[name].e) else Returned(local[name]))
    else Returned(result)
  }

  /** `MockInvocationHandler` for one mocked interface: `methodReturns` is
      its local stub map, keyed by method name. */
  class MockInvocationHandler {
    const mockedInterface: JClass
    var methodReturns: map<string, Value>

    constructor (mockedInterface: JClass)
      ensures this.mockedInterface == mockedInterface && methodReturns == map[]
    {
      this.mockedInterface := mockedInterface;
      methodReturns := map[];
    }

    /** `invoke(proxy, method, args)`. `proxy` is the proxy's identity and
        `identityHash` its identity hash. `equals` reads `args[0]`, so it
        fails on a null or an empty argument array. */
    method Invoke(maps: StubMaps, proxy: nat, m: MethodSig, args: array?<Value>, identityHash: int) returns (r: Reply)
      ensures m.name == "equals" && args == null ==> r == Crashed(NullPointerException)
      ensures m.name == "equals" && args != null && args.Length == 0 ==> r == Crashed(ArrayIndexOutOfBoundsException)
      ensures m.name == "equals" && args != null && args.Length > 0 ==> r == Returned(Bool(args[0] == Ref(proxy)))
      ensures m.name == "hashCode" ==> r == Returned(Int(identityHash))
      ensures m.name == "toString" ==> r == Returned(Str("Mock of " + mockedInterface.name + "@" + ToHexString(identityHash)))
      ensures !IsObjectMethodName(m.name) ==>
        r == StubbedReply(maps.methodReturnValues, maps.methodExceptions, maps.methodImplementations,
                          methodReturns, m.name, m.returnType, Snapshot(args))
    {
      if m.name == "equals" {
        if args == null {
          return Crashed(NullPointerException);
        }
        if args.Length == 0 {
          return Crashed(ArrayIndexOutOfBoundsException);
        }
        return Returned(Bool(args[0] == Ref(proxy)));
      } else if m.name == "hashCode" {
        return Returned(Int(identityHash));
      } else if m.name == "toString" {
        return Returned(Str("Mock of " + mockedInterface.name + "@" + ToHexString(identityHash)));
      }
      var result := AdapterDefault(m.returnType);
      var stubbed := maps.HasReturnValue(result);
      if stubbed {
        r := maps.GetReturnValue(result, Snapshot(args));
        return;
      }
      var methodKey := m.name;
      if methodKey in methodReturns {
        var returnValue := methodReturns[methodKey];
        if returnValue.Exc? {
          return Threw(returnValue.e);
        }
        return Returned(returnValue);
      }
      r := Returned(result);
    }
  }

  /** An interceptor stub for the default value wins over a local stub of
      the same method. */
  lemma InterceptorStubWins(rv: map<Value, Value>, ex: map<Value, Option<Exn>>, im: map<Value, Option<Args -> Value>>,
                            local: map<string, Value>, name: string, t: JType, args: Args, v: Value)
    requires AdapterDefault(t) !in ex && AdapterDefault(t) !in im
    ensures StubbedReply(rv[AdapterDefault(t) := v], ex, im, local, name, t, args) == Returned(v)
  {
  }

  /** Without an interceptor stub, a local stub answers: a Throwable is
      thrown, anything else (null included) returned as it is. Nothing in
      the adapter ever writes `methodReturns`, so in the program itself this
      branch is never taken; the lemma states what it would do. */
  lemma LocalStubAnswers(rv: map<Value, Value>, ex: map<Value, Option<Exn>>, im: map<Value, Option<Args -> Value>>,
                         local: map<string, Value>, name: string, t: JType, args: Args, v: Value)
    requires AdapterDefault(t) !in rv && AdapterDefault(t) !in ex && AdapterDefault(t) !in im
    ensures v.Exc? ==> StubbedReply(rv, ex, im, local[name := v], name, t, args) == Threw(v.e)
    ensures !v.Exc? ==> StubbedReply(rv, ex, im, local[name := v], name, t, args) == Returned(v)
  {
  }

  /** An unstubbed call answers the default of its return type. */
  lemma UnstubbedAnswersDefault(rv: map<Value, Value>, ex: map<Value, Option<Exn>>, im: map<Value, Option<Args -> Value>>,
                                local: map<string, Value>, name: string, t: JType, args: Args)
    requires AdapterDefault(t) !in rv && AdapterDefault(t) !in ex && AdapterDefault(t) !in im
    requires name !in local
    ensures StubbedReply(rv, ex, im, local, name, t, args) == Returned(AdapterDefault(t))
  {
  }

  /** Because the interceptor keys stubs by default value, a stub for that
      value answers every method with the same return type, whatever its
      name. */
  lemma {:induction false} StubSharedBySameReturnType(rv: map<Value, Value>, ex: map<Value, Option<Exn>>,
                                                      im: map<Value, Option<Args -> Value>>, local: map<string, Value>,
                                                      n1: string, n2: string, t: JType, args: Args)
    requires AdapterDefault(t) in rv || AdapterDefault(t) in ex || AdapterDefault(t) in im
    ensures StubbedReply(rv, ex, im, local, n1, t, args) == StubbedReply(rv, ex, im, local, n2, t, args)
    ensures StubbedReply(rv, ex, im, local, n1, t, args) == StubAnswer(rv, ex, im, AdapterDefault(t), args)
  {
  }

  /** With no null key in the interceptor's maps, a method whose default is
      null (a `void`, a non-number reference or an unlisted `Number` type)
      is never answered from them. */
  lemma {:induction false} NullDefaultNeverIntercepted(rv: map<Value, Value>, ex: map<Value, Option<Exn>>,
                                                      im: map<Value, Option<Args -> Value>>, local: map<string, Value>,
                                                      name: string, t: JType, args: Args)
    requires Null !in rv && Null !in ex && Null !in im
    requires !t.Primitive? && !t.Boxed?
    ensures StubbedReply(rv, ex, im, local, name, t, args) ==
      (if name in local then (if local[name].Exc? then Threw(local[name].e) else Returned(local[name])) else Returned(Null))
  {
  }
}
