/**
 * `StaticMockBuilder`: the fluent front end that registers static-method
 * behaviours with `StaticMockHandler` under the target class's name.
 */
module StaticMockBuilder {
  import opened Values
  import opened Redirection
  import opened StaticMockHandler

  /** `StaticMockBuilder`: an immutable pair of target class and (possibly
      absent) method name. */
  datatype StaticMockBuilder = StaticMockBuilder(targetClass: JClass, methodName: Option<string>)
  {
    /** `method(n)`: a new builder for the same class and method `n`. */
    function Method(n: string): (b: StaticMockBuilder)
      ensures b.targetClass == targetClass && b.methodName == Some(n)
    {
      StaticMockBuilder(targetClass, Some(n))
    }

    /** The guard and registration shared by the three `then` methods: no
        method name is an `IllegalStateException` and no registration. */
    method Register(h: StaticMockHandler, behavior: Stored) returns (self: StaticMockBuilder, status: Status)
      modifies h
      ensures self == this
      ensures methodName.None? ==> status == Failed(IllegalStateException)
      ensures methodName.None? ==> h.staticMockBehaviors == old(h.staticMockBehaviors)
      ensures methodName.Some? && IsNull(behavior) ==> status == Failed(NullPointerException)
      ensures methodName.Some? && IsNull(behavior) ==>
        h.staticMockBehaviors == Prepared(old(h.staticMockBehaviors), targetClass.name)
      ensures methodName.Some? && !IsNull(behavior) ==> status == Done
      ensures methodName.Some? && !IsNull(behavior) ==>
        h.staticMockBehaviors == Put(old(h.staticMockBehaviors), targetClass.name, methodName.value, behavior)
      ensures h.originalClassBytes == old(h.originalClassBytes)
    {
      self := this;
      if methodName.None? {
        return this, Failed(IllegalStateException);
      }
      status := h.RegisterBehavior(targetClass.name, methodName.value, behavior);
    }

    /** `thenReturn(returnValue)`. */
    method ThenReturn(h: StaticMockHandler, returnValue: Value) returns (self: StaticMockBuilder, status: Status)
      modifies h
      ensures self == this
      ensures methodName.None? ==> status == Failed(IllegalStateException)
      ensures methodName.None? ==> h.staticMockBehaviors == old(h.staticMockBehaviors)
      ensures methodName.Some? && returnValue == Null ==> status == Failed(NullPointerException)
      ensures methodName.Some? && returnValue == Null ==>
        h.staticMockBehaviors == Prepared(old(h.staticMockBehaviors), targetClass.name)
      ensures methodName.Some? && returnValue != Null ==> status == Done
      ensures methodName.Some? && returnValue != Null ==>
        h.staticMockBehaviors == Put(old(h.staticMockBehaviors), targetClass.name, methodName.value, Classify(returnValue))
      ensures h.originalClassBytes == old(h.originalClassBytes)
    {
      self, status := Register(h, Classify(returnValue));
    }

    /** `thenThrow(throwable)`. */
    method ThenThrow(h: StaticMockHandler, throwable: Option<Exn>) returns (self: StaticMockBuilder, status: Status)
      modifies h
      ensures self == this
      ensures methodName.None? ==> status == Failed(IllegalStateException)
      ensures methodName.None? ==> h.staticMockBehaviors == old(h.staticMockBehaviors)
      ensures methodName.Some? && throwable.None? ==> status == Failed(NullPointerException)
      ensures methodName.Some? && throwable.None? ==>
        h.staticMockBehaviors == Prepared(old(h.staticMockBehaviors), targetClass.name)
      ensures methodName.Some? && throwable.Some? ==> status == Done
      ensures methodName.Some? && throwable.Some? ==>
        h.staticMockBehaviors == Put(old(h.staticMockBehaviors), targetClass.name, methodName.value, Thrown(throwable.value))
      ensures h.originalClassBytes == old(h.originalClassBytes)
    {
      self, status := Register(h, ThrowableObject(throwable));
    }

    /** `thenImplement(implementation)`. */
    method ThenImplement(h: StaticMockHandler, implementation: Option<Args -> Value>) returns (self: StaticMockBuilder, status: Status)
      modifies h
      ensures self == this
      ensures methodName.None? ==> status == Failed(IllegalStateException)
      ensures methodName.None? ==> h.staticMockBehaviors == old(h.staticMockBehaviors)
      ensures methodName.Some? && implementation.None? ==> status == Failed(NullPointerException)
      ensures methodName.Some? && implementation.None? ==>
        h.staticMockBehaviors == Prepared(old(h.staticMockBehaviors), targetClass.name)
      ensures methodName.Some? && implementation.Some? ==> status == Done
      ensures methodName.Some? && implementation.Some? ==>
        h.staticMockBehaviors == Put(old(h.staticMockBehaviors), targetClass.name, methodName.value, Fn(implementation.value))
      ensures h.originalClassBytes == old(h.originalClassBytes)
    {
      self, status := Register(h, FunctionObject(implementation));
    }
  }

  /** `enableStaticMockingFor`, handler part: a class that already has
      behaviours is left alone; otherwise the enhancer keeps the class's
      current bytes as its original bytecode (`putIfAbsent`). The class
      redefinition itself is not modelled. */
  method EnableStaticMockingFor(h: StaticMockHandler, classToMock: JClass, currentBytes: array<byte>) returns (enhanced: bool)
    modifies h
    ensures enhanced <==> !HasBehaviors(old(h.staticMockBehaviors), classToMock.name)
    ensures !enhanced ==> h.originalClassBytes == old(h.originalClassBytes)
    ensures enhanced ==> h.originalClassBytes == PutIfAbsent(old(h.originalClassBytes), classToMock.name, currentBytes)
    ensures h.staticMockBehaviors == old(h.staticMockBehaviors)
  {
    var already := h.HasMockBehaviors(classToMock.name);
    if already {
      return false;
    }
    var _ := h.StoreOriginalBytecode(classToMock.name, currentBytes);
    enhanced := true;
  }

  /** `forClass`: enables static mocking, then returns a builder without a
      method name. */
  method ForClass(h: StaticMockHandler, targetClass: JClass, currentBytes: array<byte>) returns (b: StaticMockBuilder)
    modifies h
    ensures b == StaticMockBuilder(targetClass, None)
    ensures h.staticMockBehaviors == old(h.staticMockBehaviors)
    ensures HasBehaviors(old(h.staticMockBehaviors), targetClass.name) ==>
      h.originalClassBytes == old(h.originalClassBytes)
    ensures !HasBehaviors(old(h.staticMockBehaviors), targetClass.name) ==>
      h.originalClassBytes == PutIfAbsent(old(h.originalClassBytes), targetClass.name, currentBytes)
  {
    var _ := EnableStaticMockingFor(h, targetClass, currentBytes);
    b := StaticMockBuilder(targetClass, None);
  }

  /** `StaticMockBuilder.resetAll`. */
  method BuilderResetAll(h: StaticMockHandler)
    modifies h
    ensures h.staticMockBehaviors == map[]
    ensures h.originalClassBytes == old(h.originalClassBytes)
  {
    h.ResetAll();
  }

  /** `StaticMockBuilder.reset(classToReset)`: clears that class's entry by
      its name. */
  method BuilderReset(h: StaticMockHandler, classToReset: JClass)
    modifies h
    ensures h.staticMockBehaviors == old(h.staticMockBehaviors) - {classToReset.name}
    ensures h.originalClassBytes == old(h.originalClassBytes)
  {
    h.Reset(classToReset.name);
  }

  /** A builder without a method name registers nothing; `method(n)` makes
      the next `thenReturn` register under (class name, n). */
  method BuilderScenario(h: StaticMockHandler, c: JClass, v: Value) returns (first: Status, second: Status, answer: Resolution)
    requires v != Null && !v.Exc?
    modifies h
    ensures first == Failed(IllegalStateException)
    ensures second == Done
    ensures answer == Return(v)
  {
    var b := StaticMockBuilder(c, None);
    var t0 := h.staticMockBehaviors;
    var _, s1 := b.ThenReturn(h, v);
    first := s1;
    var b2 := b.Method("getStaticValue");
    var _, s2 := b2.ThenReturn(h, v);
    second := s2;
    RegisterThenHandle(t0, c.name, "getStaticValue", Classify(v), c.name, "getStaticValue", None);
    answer := h.HandleStaticMethodCall(c.name, "getStaticValue", None);
  }
}
