/**
 * The two call handlers of the v3 proxy engine: `MockInvocationHandler` for
 * interface proxies and `CglibMockInterceptor` for class proxies. Both answer
 * `hashCode`, `equals` and `toString` themselves, record every other call,
 * then answer it from the earliest matching behaviour, or with the default of
 * the declared return type.
 */
module ObjenesisEngine {
  import opened Values
  import opened V3Factory

  /** The parts of a `java.lang.reflect.Method` the handlers look at. */
  datatype MethodSig = MethodSig(name: string, paramCount: nat, returnType: JType)

  /** What a proxy passes for the arguments of a call to `m`: a JDK proxy
      passes a null array for a method without parameters, cglib an empty
      one; otherwise the array has one element per parameter. */
  predicate ArgsFit(m: MethodSig, args: Args)
  {
    if args.None? then m.paramCount == 0 else |args.value| == m.paramCount
  }

  /** The three `Object` methods the handlers answer without consulting the
      factory. */
  predicate IsObjectMethod(m: MethodSig)
  {
    (m.name == "hashCode" && m.paramCount == 0)
    || (m.name == "equals" && m.paramCount == 1)
    || (m.name == "toString" && m.paramCount == 0)
  }

  /** The value a handler returns for an unstubbed call: the zero of a
      primitive return type, and null for everything else, `void` and the
      boxed types included. */
  function DefaultValue(t: JType): (v: Value)
    ensures t.Primitive? ==> PrimOf(v) == Some(t.p) && IsZero(v)
    ensures !t.Primitive? ==> v == Null
  {
    if t.Primitive? then ZeroOf(t.p) else Null
  }

  /** A stubbed call rethrows the behaviour's Throwable if it has one and
      otherwise returns its value; an unstubbed one returns the default. */
  function Respond(found: Option<MockBehavior>, t: JType): (r: Reply)
    ensures found.Some? && found.value.throwable.Some? ==> r == Threw(found.value.throwable.value)
    ensures found.Some? && found.value.throwable.None? ==> r == Returned(found.value.returnValue)
    ensures found.None? ==> r == Returned(DefaultValue(t))
  {
    match found
    case Some(b) => if b.throwable.Some? then Threw(b.throwable.value) else Returned(b.returnValue)
    case None => Returned(DefaultValue(t))
  }

  /** The answer to `hashCode`, `equals` or `toString` on the proxy `self`,
      whose identity hash is `identityHash`; `typeName` is the simple name of
      the proxied interface (or superclass). */
  function ObjectMethodReply(m: MethodSig, self: MockId, args: Args, identityHash: int, typeName: string): (r: Reply)
    requires IsObjectMethod(m) && ArgsFit(m, args)
    ensures m.name == "hashCode" ==> r == Returned(Int(identityHash))
    ensures m.name == "equals" ==> r == Returned(Bool(Elements(args)[0] == Ref(self)))
    ensures m.name == "toString" ==>
      r == Returned(Str("MockProxy(" + typeName + ")@" + ToHexString(identityHash)))
  {
    if m.name == "hashCode" then Returned(Int(identityHash))
    else if m.name == "equals" then Returned(Bool(Elements(args)[0] == Ref(self)))
    else Returned(Str("MockProxy(" + typeName + ")@" + ToHexString(identityHash)))
  }

  /** A proxy equals exactly the one object that is itself. */
  lemma EqualsIsIdentity(self: MockId, other: Value, identityHash: int, typeName: string)
    ensures (ObjectMethodReply(MethodSig("equals", 1, Primitive(PBoolean)), self, Some([other]), identityHash, typeName)
             == Returned(Bool(true)))
            <==> other == Ref(self)
  {
  }

  /** Two proxies with different identity hashes print differently. */
  lemma {:induction false} ToStringTellsProxiesApart(m: MethodSig, p: MockId, q: MockId, args: Args, hp: int, hq: int, typeName: string)
    requires m.name == "toString" && m.paramCount == 0 && ArgsFit(m, args)
    requires IsInt32(hp) && IsInt32(hq) && hp != hq
    ensures ObjectMethodReply(m, p, args, hp, typeName) != ObjectMethodReply(m, q, args, hq, typeName)
  {
    var prefix := "MockProxy(" + typeName + ")@";
    if prefix + ToHexString(hp) == prefix + ToHexString(hq) {
      assert ToHexString(hp) == (prefix + ToHexString(hp))[|prefix|..];
      assert ToHexString(hq) == (prefix + ToHexString(hq))[|prefix|..];
      ToHexStringInjective(hp, hq);
    }
  }

  /** The body shared by both handlers. `self` is the proxy; `typeName` is
      the name its `toString` shows. */
  method Handle(f: MockFactory, self: MockId, m: MethodSig, args: array?<Value>, identityHash: int, typeName: string)
    returns (r: Reply)
    requires ArgsFit(m, Snapshot(args))
    modifies f
    ensures IsObjectMethod(m) ==>
      r == ObjectMethodReply(m, self, Snapshot(args), identityHash, typeName)
      && f.invocationRegistry == old(f.invocationRegistry)
    ensures !IsObjectMethod(m) ==>
      f.invocationRegistry ==
        old(f.invocationRegistry)[self := old(f.Ledger(self)) + [InvocationRecord(m.name, Snapshot(args))]]
      && r == Respond(FirstMatch(f.Behaviors(self), m.name, Snapshot(args)), m.returnType)
    ensures f.registry == old(f.registry) && f.configRegistry == old(f.configRegistry)
  {
    if m.name == "hashCode" && m.paramCount == 0 {
      return Returned(Int(identityHash));
    }
    if m.name == "equals" && m.paramCount == 1 {
      return Returned(Bool(args[0] == Ref(self)));
    }
    if m.name == "toString" && m.paramCount == 0 {
      return Returned(Str("MockProxy(" + typeName + ")@" + ToHexString(identityHash)));
    }
    f.RecordInvocation(self, m.name, args);
    var behavior := f.FindBehavior(self, m.name, Snapshot(args));
    if behavior.Some? {
      if behavior.value.throwable.Some? {
        return Threw(behavior.value.throwable.value);
      }
      return Returned(behavior.value.returnValue);
    }
    r := Returned(DefaultValue(m.returnType));
  }

  /** `MockInvocationHandler.invoke` on an interface proxy; `interfaceName`
      is the simple name of the proxy's first interface. */
  method Invoke(f: MockFactory, proxy: MockId, m: MethodSig, args: array?<Value>, identityHash: int, interfaceName: string)
    returns (r: Reply)
    requires ArgsFit(m, Snapshot(args))
    modifies f
    ensures IsObjectMethod(m) ==>
      r == ObjectMethodReply(m, proxy, Snapshot(args), identityHash, interfaceName)
      && f.invocationRegistry == old(f.invocationRegistry)
    ensures !IsObjectMethod(m) ==>
      f.invocationRegistry ==
        old(f.invocationRegistry)[proxy := old(f.Ledger(proxy)) + [InvocationRecord(m.name, Snapshot(args))]]
      && r == Respond(FirstMatch(f.Behaviors(proxy), m.name, Snapshot(args)), m.returnType)
    ensures f.registry == old(f.registry) && f.configRegistry == old(f.configRegistry)
  {
    r := Handle(f, proxy, m, args, identityHash, interfaceName);
  }

  /** `CglibMockInterceptor.intercept` on a class proxy; `superclassName` is
      the simple name of the proxied class. */
  method Intercept(f: MockFactory, obj: MockId, m: MethodSig, args: array?<Value>, identityHash: int, superclassName: string)
    returns (r: Reply)
    requires ArgsFit(m, Snapshot(args))
    modifies f
    ensures IsObjectMethod(m) ==>
      r == ObjectMethodReply(m, obj, Snapshot(args), identityHash, superclassName)
      && f.invocationRegistry == old(f.invocationRegistry)
    ensures !IsObjectMethod(m) ==>
      f.invocationRegistry ==
        old(f.invocationRegistry)[obj := old(f.Ledger(obj)) + [InvocationRecord(m.name, Snapshot(args))]]
      && r == Respond(FirstMatch(f.Behaviors(obj), m.name, Snapshot(args)), m.returnType)
    ensures f.registry == old(f.registry) && f.configRegistry == old(f.configRegistry)
  {
    r := Handle(f, obj, m, args, identityHash, superclassName);
  }

  /** A call stubbed once, on a mock where nothing else matches it, answers
      the stubbed value. */
  lemma {:induction false} StubbedCallAnswers(bs: seq<MockBehavior>, stubArgs: Args, v: Value, n: string, a: Args, t: JType)
    requires FirstMatch(bs, n, a).None?
    requires Elements(stubArgs) == Elements(a)
    ensures Respond(FirstMatch(bs + [MockBehavior(n, stubArgs, v, None)], n, a), t) == Returned(v)
  {
    AppendedBehaviorFound(bs, MockBehavior(n, stubArgs, v, None), n, a);
  }

  /** A stubbed exception is thrown, even for a call whose return type has a
      default. */
  lemma {:induction false} StubbedThrowableWins(bs: seq<MockBehavior>, stubArgs: Args, e: Exn, n: string, a: Args, t: JType)
    requires FirstMatch(bs, n, a).None?
    requires Elements(stubArgs) == Elements(a)
    ensures Respond(FirstMatch(bs + [MockBehavior(n, stubArgs, Null, Some(e))], n, a), t) == Threw(e)
  {
    AppendedBehaviorFound(bs, MockBehavior(n, stubArgs, Null, Some(e)), n, a);
  }

  /** Stubbing a call with other arguments does not change the answer to
      this one. */
  lemma {:induction false} OtherStubIrrelevant(bs: seq<MockBehavior>, b: MockBehavior, n: string, a: Args, t: JType)
    requires Elements(b.args) != Elements(a)
    ensures Respond(FirstMatch(bs + [b], n, a), t) == Respond(FirstMatch(bs, n, a), t)
  {
    AppendedOtherBehavior(bs, b, n, a);
  }

  /** One call `hello(word)` through an interface proxy, with a fresh
      argument array. */
  method CallHello(f: MockFactory, proxy: MockId, word: string) returns (r: Reply)
    modifies f
    ensures r == Respond(FirstMatch(old(f.Behaviors(proxy)), "hello", Some([Str(word)])), Reference("String"))
    ensures f.invocationRegistry ==
      old(f.invocationRegistry)[proxy := old(f.Ledger(proxy)) + [InvocationRecord("hello", Some([Str(word)]))]]
    ensures f.registry == old(f.registry) && f.configRegistry == old(f.configRegistry)
  {
    var hello := MethodSig("hello", 1, Reference("String"));
    assert !IsObjectMethod(hello);
    var a := new Value[1];
    a[0] := Str(word);
    assert a[..] == [Str(word)];
    r := Invoke(f, proxy, hello, a, 0, "Greeter");
  }

  /** The interface scenario: with `hello("world")` stubbed to return
      "hi, world", `hello("world")` answers "hi, world" and
      `hello("other")` answers null. */
  method HelloScenario(proxy: MockId) returns (stubbed: Reply, other: Reply)
    ensures stubbed == Returned(Str("hi, world"))
    ensures other == Returned(Null)
  {
    var f := new MockFactory();
    var b := MockBehavior("hello", Some([Str("world")]), Str("hi, world"), None);
    f.RegisterBehavior(Some(proxy), Some(b));
    assert f.Behaviors(proxy) == [b];
    StubbedCallAnswers([], Some([Str("world")]), Str("hi, world"), "hello", Some([Str("world")]), Reference("String"));
    stubbed := CallHello(f, proxy, "world");
    assert f.Behaviors(proxy) == [b];
    assert Elements(Some([Str("world")])) != Elements(Some([Str("other")]));
    OtherStubIrrelevant([], b, "hello", Some([Str("other")]), Reference("String"));
    other := CallHello(f, proxy, "other");
  }
}
