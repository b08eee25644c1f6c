/**
 * The per-mock stub registry and invocation ledger of the v3 API
 * (`core/v3/MockFactory.java`). Each mock object owns an append-only list of
 * behaviours and an append-only list of invocation records; lookup returns
 * the earliest behaviour that matches, and counting returns how many records
 * match.
 */
module V3Factory {
  import opened Values

  /** The identity of a mock object (a proxy); the registries are keyed by it. */
  type MockId = nat

  /** `matches`: equal method names, equal argument counts (a null array
      counting as empty) and equal arguments element by element (`==` on
      `Value`, which treats every `Ref` by identity). */
  predicate SameCall(n1: string, a1: Args, n2: string, a2: Args)
    ensures SameCall(n1, a1, n2, a2) <==> n1 == n2 && Elements(a1) == Elements(a2)
  {
    && n1 == n2
    && |Elements(a1)| == |Elements(a2)|
    && forall i :: 0 <= i < |Elements(a1)| ==> Elements(a1)[i] == Elements(a2)[i]
  }

  /** A behaviour stubbed for a method without parameters (`when(m, "fail")`,
      an empty array) matches the call a JDK proxy reports (a null array). */
  lemma NullArgsMatchEmpty(n: string)
    ensures SameCall(n, Some([]), n, None) && SameCall(n, None, n, Some([]))
  {
  }

  /** The comparison loop that both `matches` methods run. */
  method MatchCall(n1: string, a1: Args, n2: string, a2: Args) returns (b: bool)
    ensures b == SameCall(n1, a1, n2, a2)
  {
    if n1 != n2 {
      return false;
    }
    var xs, ys := Elements(a1), Elements(a2);
    if |xs| != |ys| {
      return false;
    }
    var i := 0;
    while i < |xs|
      invariant 0 <= i <= |xs|
      invariant forall j :: 0 <= j < i ==> xs[j] == ys[j]
    {
      if xs[i] != ys[i] {
        return false;
      }
      i := i + 1;
    }
    return true;
  }

  /** A stubbed behaviour: a call description plus the value to return or the
      Throwable to throw (`null` is `None`). */
  datatype MockBehavior = MockBehavior(methodName: string, args: Args, returnValue: Value, throwable: Option<Exn>)
  {
    predicate Covers(n: string, a: Args)
    {
      SameCall(methodName, args, n, a)
    }

    method Matches(n: string, a: Args) returns (b: bool)
      ensures b <==> Covers(n, a)
    {
      b := MatchCall(methodName, args, n, a);
    }
  }

  /** One observed call; its arguments are the copy taken when it was recorded. */
  datatype InvocationRecord = InvocationRecord(methodName: string, args: Args)
  {
    predicate Covers(n: string, a: Args)
    {
      SameCall(methodName, args, n, a)
    }

    /** `InvocationRecord.matches`, whose body is the same as that of
        `MockBehavior.matches`; both share `MatchCall`. */
    method Matches(n: string, a: Args) returns (b: bool)
      ensures b <==> Covers(n, a)
    {
      b := MatchCall(methodName, args, n, a);
    }
  }

  /** The position of the earliest behaviour that matches, `|bs|` if none does. */
  function FirstMatchIndex(bs: seq<MockBehavior>, n: string, a: Args): (k: nat)
    ensures k <= |bs|
    ensures forall j :: 0 <= j < k ==> !bs[j].Covers(n, a)
    ensures k < |bs| ==> bs[k].Covers(n, a)
  {
    if bs == [] then 0
    else if bs[0].Covers(n, a) then 0
    else 1 + FirstMatchIndex(bs[1..], n, a)
  }

  /** What `findBehavior` finds in a list of behaviours. */
  function FirstMatch(bs: seq<MockBehavior>, n: string, a: Args): (r: Option<MockBehavior>)
    ensures r.None? <==> forall j :: 0 <= j < |bs| ==> !bs[j].Covers(n, a)
    ensures r.Some? ==> r.value.Covers(n, a) && r.value in bs
  {
    var k := FirstMatchIndex(bs, n, a);
    if k < |bs| then Some(bs[k]) else None
  }

  /** The number of records in a ledger that match a call description. */
  function CountMatching(rs: seq<InvocationRecord>, n: string, a: Args): (c: nat)
    ensures c <= |rs|
  {
    if rs == [] then 0
    else CountMatching(rs[..|rs| - 1], n, a) + (if rs[|rs| - 1].Covers(n, a) then 1 else 0)
  }

  /** Registering more behaviours never changes which one a call finds once one
      already matches: the earliest registration wins, and a later `thenReturn`
      for the same call does not overwrite it. */
  lemma {:induction false} EarliestRegistrationWins(bs: seq<MockBehavior>, more: seq<MockBehavior>, n: string, a: Args)
    requires FirstMatch(bs, n, a).Some?
    ensures FirstMatch(bs + more, n, a) == FirstMatch(bs, n, a)
  {
    var k := FirstMatchIndex(bs, n, a);
    var k' := FirstMatchIndex(bs + more, n, a);
    assert (bs + more)[k] == bs[k];
  }

  /** A behaviour appended to a list that does not match the call yet is the
      one the call finds. */
  lemma {:induction false} AppendedBehaviorFound(bs: seq<MockBehavior>, b: MockBehavior, n: string, a: Args)
    requires FirstMatch(bs, n, a).None?
    requires b.Covers(n, a)
    ensures FirstMatch(bs + [b], n, a) == Some(b)
  {
    assert (bs + [b])[|bs|] == b;
  }

  /** Appending a behaviour that does not match a call leaves that call's
      lookup as it was. */
  lemma {:induction false} AppendedOtherBehavior(bs: seq<MockBehavior>, b: MockBehavior, n: string, a: Args)
    requires !b.Covers(n, a)
    ensures FirstMatch(bs + [b], n, a) == FirstMatch(bs, n, a)
  {
    var k := FirstMatchIndex(bs, n, a);
    if k < |bs| {
      EarliestRegistrationWins(bs, [b], n, a);
    } else {
      assert (bs + [b])[|bs|] == b;
    }
  }

  /** Recording one call adds one to the count of exactly the descriptions it
      matches. */
  lemma {:induction false} CountAppend(rs: seq<InvocationRecord>, r: InvocationRecord, n: string, a: Args)
    ensures CountMatching(rs + [r], n, a) == CountMatching(rs, n, a) + (if r.Covers(n, a) then 1 else 0)
  {
    assert (rs + [r])[..|rs|] == rs;
  }

  /** `k` copies of the same record. */
  function Repeat(r: InvocationRecord, k: nat): (rs: seq<InvocationRecord>)
    ensures |rs| == k && forall i :: 0 <= i < k ==> rs[i] == r
  {
    if k == 0 then [] else Repeat(r, k - 1) + [r]
  }

  /** One more copy goes at the end. */
  lemma RepeatSnoc(rs: seq<InvocationRecord>, r: InvocationRecord, k: nat)
    requires k > 0
    ensures rs + Repeat(r, k) == (rs + Repeat(r, k - 1)) + [r]
  {
    assert Repeat(r, k) == Repeat(r, k - 1) + [r];
  }

  /** `CountAppend` for a list given as a whole. */
  lemma {:induction false} CountOfSnoc(xs: seq<InvocationRecord>, ys: seq<InvocationRecord>, r: InvocationRecord, n: string, a: Args)
    requires xs == ys + [r]
    ensures CountMatching(xs, n, a) == CountMatching(ys, n, a) + (if r.Covers(n, a) then 1 else 0)
  {
    CountAppend(ys, r, n, a);
  }

  /** After `k` calls recording the same description, its count has grown by
      exactly `k`, and the count of a description it does not match is as it
      was. */
  lemma {:induction false} CountAfterRepeats(rs: seq<InvocationRecord>, r: InvocationRecord, k: nat, n: string, a: Args)
    ensures CountMatching(rs + Repeat(r, k), n, a) == CountMatching(rs, n, a) + (if r.Covers(n, a) then k else 0)
  {
    if k > 0 {
      RepeatSnoc(rs, r, k);
      CountOfSnoc(rs + Repeat(r, k), rs + Repeat(r, k - 1), r, n, a);
      CountAfterRepeats(rs, r, k - 1, n, a);
    } else {
      assert rs + Repeat(r, 0) == rs;
    }
  }

  /** The object handed to the deprecated `register`: a behaviour or any
      other object. */
  datatype Config = BehaviorConfig(behavior: MockBehavior) | OtherConfig(v: Value)

  /** The static registries of `MockFactory`. */
  class MockFactory {
    /** Class -> the mock last created for it. */
    var registry: map<JClass, MockId>
    /** Mock -> its behaviours, in registration order. */
    var configRegistry: map<MockId, seq<MockBehavior>>
    /** Mock -> its invocation records, in call order. */
    var invocationRegistry: map<MockId, seq<InvocationRecord>>

    constructor ()
      ensures registry == map[] && configRegistry == map[] && invocationRegistry == map[]
    {
      registry := map[];
      configRegistry := map[];
      invocationRegistry := map[];
    }

    /** The behaviours registered for a mock (none when it has no list). */
    function Behaviors(mock: MockId): seq<MockBehavior>
      reads this
    {
      if mock in configRegistry then configRegistry[mock] else []
    }

    /** The calls recorded for a mock (none when it has no list). */
    function Ledger(mock: MockId): seq<InvocationRecord>
      reads this
    {
      if mock in invocationRegistry then invocationRegistry[mock] else []
    }

    /** `create`: the instrumentation path is unfinished and yields no mock;
        otherwise `created` is the proxy the object-allocation engine built.
        A mock that exists is remembered for its class. */
    method Create(clazz: JClass, instrumentationAvailable: bool, created: Option<MockId>) returns (mock: Option<MockId>)
      modifies this
      ensures mock == if instrumentationAvailable then None else created
      ensures registry == if mock.Some? then old(registry)[clazz := mock.value] else old(registry)
      ensures configRegistry == old(configRegistry) && invocationRegistry == old(invocationRegistry)
    {
      if instrumentationAvailable {
        mock := None;
      } else {
        mock := created;
      }
      if mock.Some? {
        registry := registry[clazz := mock.value];
      }
    }

    /** `registerBehavior`: a null mock or behaviour is ignored; otherwise the
        behaviour is appended to the mock's list, creating the list if needed. */
    method RegisterBehavior(mock: Option<MockId>, behavior: Option<MockBehavior>)
      modifies this
      ensures mock.None? || behavior.None? ==> configRegistry == old(configRegistry)
      ensures mock.Some? && behavior.Some? ==>
        configRegistry == old(configRegistry)[mock.value := old(Behaviors(mock.value)) + [behavior.value]]
      ensures forall other: MockId :: mock != Some(other) ==> Behaviors(other) == old(Behaviors(other))
      ensures registry == old(registry) && invocationRegistry == old(invocationRegistry)
    {
      if mock.None? || behavior.None? {
        return;
      }
      configRegistry := configRegistry[mock.value := Behaviors(mock.value) + [behavior.value]];
    }

    /** The deprecated `register`: a configuration object that is a behaviour
        is registered as `registerBehavior` would; anything else is ignored. */
    method Register(mock: Option<MockId>, config: Option<Config>)
      modifies this
      ensures (mock.Some? && config.Some? && config.value.BehaviorConfig?) ==>
        configRegistry == old(configRegistry)[mock.value := old(Behaviors(mock.value)) + [config.value.behavior]]
      ensures !(mock.Some? && config.Some? && config.value.BehaviorConfig?) ==> configRegistry == old(configRegistry)
      ensures registry == old(registry) && invocationRegistry == old(invocationRegistry)
    {
      if mock.Some? && config.Some? && config.value.BehaviorConfig? {
        RegisterBehavior(mock, Some(config.value.behavior));
      }
    }

    /** `findBehavior`: the earliest registered behaviour of this mock that
        matches the call, or none. */
    method FindBehavior(mock: MockId, methodName: string, args: Args) returns (r: Option<MockBehavior>)
      ensures r == FirstMatch(Behaviors(mock), methodName, args)
      ensures mock !in configRegistry ==> r.None?
    {
      if mock !in configRegistry {
        return None;
      }
      var behaviors := configRegistry[mock];
      var i := 0;
      while i < |behaviors|
        invariant 0 <= i <= |behaviors|
        invariant forall j :: 0 <= j < i ==> !behaviors[j].Covers(methodName, args)
      {
        var m := behaviors[i].Matches(methodName, args);
        if m {
          return Some(behaviors[i]);
        }
        i := i + 1;
      }
      return None;
    }

    /** `recordInvocation`: appends a record holding a copy of the argument
        array, creating the mock's list if needed. */
    method RecordInvocation(mock: MockId, methodName: string, args: array?<Value>)
      modifies this
      ensures invocationRegistry ==
        old(invocationRegistry)[mock := old(Ledger(mock)) + [InvocationRecord(methodName, Snapshot(args))]]
      ensures forall other: MockId :: other != mock ==> Ledger(other) == old(Ledger(other))
      ensures registry == old(registry) && configRegistry == old(configRegistry)
    {
      var rec := InvocationRecord(methodName, Snapshot(args));
      invocationRegistry := invocationRegistry[mock := Ledger(mock) + [rec]];
    }

    /** `countInvocations`: how many recorded calls of this mock match. */
    method CountInvocations(mock: MockId, methodName: string, args: Args) returns (count: nat)
      ensures count == CountMatching(Ledger(mock), methodName, args)
      ensures mock !in invocationRegistry ==> count == 0
    {
      if mock !in invocationRegistry {
        return 0;
      }
      var records := invocationRegistry[mock];
      count := 0;
      var i := 0;
      while i < |records|
        invariant 0 <= i <= |records|
        invariant count == CountMatching(records[..i], methodName, args)
      {
        assert records[..i + 1][..i] == records[..i];
        var m := records[i].Matches(methodName, args);
        if m {
          count := count + 1;
        }
        i := i + 1;
      }
      assert records[..i] == records;
    }

    /** `clearAll`: forgets created mocks and all behaviours; invocation
        records stay. */
    method ClearAll()
      modifies this
      ensures registry == map[] && configRegistry == map[]
      ensures invocationRegistry == old(invocationRegistry)
    {
      registry := map[];
      configRegistry := map[];
    }

    /** `clearInvocations`: forgets every invocation record and nothing else. */
    method ClearInvocations()
      modifies this
      ensures invocationRegistry == map[]
      ensures registry == old(registry) && configRegistry == old(configRegistry)
    {
      invocationRegistry := map[];
    }
  }

  /** The recorded arguments are a copy: when the caller overwrites its array
      after the call, the ledger still holds what the array contained at the
      call. */
  method RecordThenOverwrite(f: MockFactory, mock: MockId, methodName: string, args: array<Value>, x: Value)
    requires args.Length > 0
    modifies f, args
    ensures args[0] == x
    ensures f.Ledger(mock) == old(f.Ledger(mock)) + [InvocationRecord(methodName, Some(old(args[..])))]
  {
    f.RecordInvocation(mock, methodName, args);
    args[0] := x;
  }
}
