/**
 * `MockSettings`: a chainable builder of five capability flags, an optional
 * mock name and an optional class loader. Every setter assigns one field of
 * the object and returns the object itself; nothing ever clears a flag.
 */
module MockSettings {
  import opened Values

  /** The five capabilities a settings object can switch on. */
  datatype Flag = EnhancedMock | PrivateMethods | StaticMethods | FinalMethods | Constructors

  /** The whole state of a settings object as a value. A class loader is an
      object identity; `None` is null throughout. */
  datatype SettingsState = SettingsState(
    enhancedMockEnabled: bool,
    mockPrivateMethods: bool,
    mockStaticMethods: bool,
    mockFinalMethods: bool,
    mockConstructors: bool,
    name: Option<string>,
    classLoader: Option<nat>)

  /** The state of a freshly constructed object. */
  const Initial: SettingsState := SettingsState(false, false, false, false, false, None, None)

  /** Whether `flag` is on in `s`. */
  function IsEnabled(s: SettingsState, flag: Flag): bool
  {
    match flag
    case EnhancedMock => s.enhancedMockEnabled
    case PrivateMethods => s.mockPrivateMethods
    case StaticMethods => s.mockStaticMethods
    case FinalMethods => s.mockFinalMethods
    case Constructors => s.mockConstructors
  }

  /** The state after the enabler of `flag`. */
  function Enable(s: SettingsState, flag: Flag): (r: SettingsState)
    ensures IsEnabled(r, flag)
    ensures r.name == s.name && r.classLoader == s.classLoader
  {
    match flag
    case EnhancedMock => s.(enhancedMockEnabled := true)
    case PrivateMethods => s.(mockPrivateMethods := true)
    case StaticMethods => s.(mockStaticMethods := true)
    case FinalMethods => s.(mockFinalMethods := true)
    case Constructors => s.(mockConstructors := true)
  }

  /** A fresh object has every flag off and no name or class loader. */
  lemma InitialIsBlank(flag: Flag)
    ensures !IsEnabled(Initial, flag)
    ensures Initial.name.None? && Initial.classLoader.None?
  {
  }

  /** An enabler turns on its own flag and no other: every other flag keeps
      its value, so no enabler ever turns a flag off. */
  lemma {:induction false} EnableTouchesOnlyItsFlag(s: SettingsState, flag: Flag, other: Flag)
    ensures IsEnabled(Enable(s, flag), other) == (other == flag || IsEnabled(s, other))
  {
    match flag
    case EnhancedMock =>
    case PrivateMethods =>
    case StaticMethods =>
    case FinalMethods =>
    case Constructors =>
  }

  /** The state is determined by its flags, its name and its class loader. */
  lemma {:induction false} StateIsItsFlags(s: SettingsState, t: SettingsState)
    requires forall flag: Flag :: IsEnabled(s, flag) == IsEnabled(t, flag)
    requires s.name == t.name && s.classLoader == t.classLoader
    ensures s == t
  {
    assert IsEnabled(s, EnhancedMock) == IsEnabled(t, EnhancedMock);
    assert IsEnabled(s, PrivateMethods) == IsEnabled(t, PrivateMethods);
    assert IsEnabled(s, StaticMethods) == IsEnabled(t, StaticMethods);
    assert IsEnabled(s, FinalMethods) == IsEnabled(t, FinalMethods);
    assert IsEnabled(s, Constructors) == IsEnabled(t, Constructors);
  }

  /** Enabling twice is enabling once. */
  lemma {:induction false} EnableIsIdempotent(s: SettingsState, flag: Flag)
    ensures Enable(Enable(s, flag), flag) == Enable(s, flag)
  {
    forall other: Flag
      ensures IsEnabled(Enable(Enable(s, flag), flag), other) == IsEnabled(Enable(s, flag), other)
    {
      EnableTouchesOnlyItsFlag(Enable(s, flag), flag, other);
      EnableTouchesOnlyItsFlag(s, flag, other);
    }
    StateIsItsFlags(Enable(Enable(s, flag), flag), Enable(s, flag));
  }

  /** After two enablers, exactly their flags have been added. */
  lemma {:induction false} FlagsAfterTwo(s: SettingsState, f: Flag, g: Flag, other: Flag)
    ensures IsEnabled(Enable(Enable(s, f), g), other) == (other == f || other == g || IsEnabled(s, other))
  {
    EnableTouchesOnlyItsFlag(Enable(s, f), g, other);
    EnableTouchesOnlyItsFlag(s, f, other);
  }

  /** The order in which enablers are chained does not matter. */
  lemma {:induction false} EnablersCommute(s: SettingsState, f: Flag, g: Flag)
    ensures Enable(Enable(s, f), g) == Enable(Enable(s, g), f)
  {
    var fg := Enable(Enable(s, f), g);
    var gf := Enable(Enable(s, g), f);
    forall other: Flag
      ensures IsEnabled(fg, other) == IsEnabled(gf, other)
    {
      FlagsAfterTwo(s, f, g, other);
      FlagsAfterTwo(s, g, f, other);
    }
    StateIsItsFlags(fg, gf);
  }

  class MockSettings {
    var enhancedMockEnabled: bool
    var mockPrivateMethods: bool
    var mockStaticMethods: bool
    var mockFinalMethods: bool
    var mockConstructors: bool
    var name: Option<string>
    var classLoader: Option<nat>

    /** The object's fields as a value. */
    function State(): SettingsState
      reads this
    {
      SettingsState(enhancedMockEnabled, mockPrivateMethods, mockStaticMethods, mockFinalMethods,
                    mockConstructors, name, classLoader)
    }

    constructor ()
      ensures State() == Initial
    {
      enhancedMockEnabled := false;
      mockPrivateMethods := false;
      mockStaticMethods := false;
      mockFinalMethods := false;
      mockConstructors := false;
      name := None;
      classLoader := None;
    }

    /** `useEnhancedMock()`. */
    method UseEnhancedMock() returns (self: MockSettings)
      modifies this
      ensures self == this
      ensures State() == Enable(old(State()), EnhancedMock)
    {
      enhancedMockEnabled := true;
      self := this;
    }

    /** `mockPrivateMethods()`. */
    method MockPrivateMethods() returns (self: MockSettings)
      modifies this
      ensures self == this
      ensures State() == Enable(old(State()), PrivateMethods)
    {
      mockPrivateMethods := true;
      self := this;
    }

    /** `mockStaticMethods()`. */
    method MockStaticMethods() returns (self: MockSettings)
      modifies this
      ensures self == this
      ensures State() == Enable(old(State()), StaticMethods)
    {
      mockStaticMethods := true;
      self := this;
    }

    /** `mockFinalMethods()`. */
    method MockFinalMethods() returns (self: MockSettings)
      modifies this
      ensures self == this
      ensures State() == Enable(old(State()), FinalMethods)
    {
      mockFinalMethods := true;
      self := this;
    }

    /** `mockConstructors()`. */
    method MockConstructors() returns (self: MockSettings)
      modifies this
      ensures self == this
      ensures State() == Enable(old(State()), Constructors)
    {
      mockConstructors := true;
      self := this;
    }

    /** `name(n)`: sets the name and nothing else. */
    method Name(n: Option<string>) returns (self: MockSettings)
      modifies this
      ensures self == this
      ensures State() == old(State()).(name := n)
    {
      name := n;
      self := this;
    }

    /** `classLoader(c)`: sets the class loader and nothing else. */
    method ClassLoader(c: Option<nat>) returns (self: MockSettings)
      modifies this
      ensures self == this
      ensures State() == old(State()).(classLoader := c)
    {
      classLoader := c;
      self := this;
    }

    /** `isEnhancedMockEnabled()`. */
    method IsEnhancedMockEnabled() returns (b: bool)
      ensures b == IsEnabled(State(), EnhancedMock)
    {
      b := enhancedMockEnabled;
    }

    /** `isMockPrivateMethodsEnabled()`. */
    method IsMockPrivateMethodsEnabled() returns (b: bool)
      ensures b == IsEnabled(State(), PrivateMethods)
    {
      b := mockPrivateMethods;
    }

    /** `isMockStaticMethodsEnabled()`. */
    method IsMockStaticMethodsEnabled() returns (b: bool)
      ensures b == IsEnabled(State(), StaticMethods)
    {
      b := mockStaticMethods;
    }

    /** `isMockFinalMethodsEnabled()`. */
    method IsMockFinalMethodsEnabled() returns (b: bool)
      ensures b == IsEnabled(State(), FinalMethods)
    {
      b := mockFinalMethods;
    }

    /** `isMockConstructorsEnabled()`. */
    method IsMockConstructorsEnabled() returns (b: bool)
      ensures b == IsEnabled(State(), Constructors)
    {
      b := mockConstructors;
    }

    /** `getName()`. */
    method GetName() returns (n: Option<string>)
      ensures n == State().name
    {
      n := name;
    }

    /** `getClassLoader()`. */
    method GetClassLoader() returns (c: Option<nat>)
      ensures c == State().classLoader
    {
      c := classLoader;
    }
  }

  /** The static-mocking chain: enhanced mocking plus static methods; the
      other flags stay off, and enabling again changes nothing. */
  method StaticChainScenario() returns (enhanced: bool, statics: bool, privates: bool, n: Option<string>)
    ensures enhanced && statics && !privates
    ensures n.None?
  {
    var s := new MockSettings();
    var s1 := s.UseEnhancedMock();
    var s2 := s1.MockStaticMethods();
    var s3 := s2.UseEnhancedMock();
    enhanced := s3.IsEnhancedMockEnabled();
    statics := s3.IsMockStaticMethodsEnabled();
    privates := s3.IsMockPrivateMethodsEnabled();
    n := s3.GetName();
  }
}
