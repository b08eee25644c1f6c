/**
 * `Jdk21Optimizer`: reads the major Java version out of a `java.version`
 * string and gates two placeholder optimisations on "21 or higher". The
 * version parser is built from Java's `String.split` (with its removal of
 * trailing empty strings) and `Integer.parseInt` (sign, decimal digits,
 * 32-bit range); every exception either of them throws makes the check
 * answer false.
 */
module Jdk21Optimizer {
  import opened Values

  // ---------------------------------------------------------------------
  // String.split on a single separator character

  /** The pieces joined back together with the separator between them. */
  function JoinWith(parts: seq<string>, c: char): string
    requires |parts| >= 1
  {
    if |parts| == 1 then parts[0] else parts[0] + [c] + JoinWith(parts[1..], c)
  }

  /** Every piece between separators, empty ones included: the raw split,
      before Java drops the trailing empty pieces. Joining the pieces gives
      back the string, and no piece holds the separator. */
  function SplitAll(s: string, c: char): (parts: seq<string>)
    ensures |parts| >= 1
    ensures forall i :: 0 <= i < |parts| ==> c !in parts[i]
    ensures JoinWith(parts, c) == s
    decreases |s|
  {
    if |s| == 0 then [""]
    else
      var rest := SplitAll(s[1..], c);
      if s[0] == c then
        assert [""] + rest == [""] + rest && ([""] + rest)[1..] == rest;
        assert s == [s[0]] + s[1..];
        [""] + rest
      else
        var parts := [[s[0]] + rest[0]] + rest[1..];
        assert parts[1..] == rest[1..];
        assert s == [s[0]] + s[1..];
        assert c !in [s[0]] + rest[0];
        parts
  }

  /** Drops the empty pieces at the end. What is left is a prefix of the
      pieces that is empty or ends with a non-empty piece, and everything
      dropped was empty. */
  function StripTrailingEmpty(parts: seq<string>): (r: seq<string>)
    ensures |r| <= |parts| && r == parts[..|r|]
    ensures |r| > 0 ==> r[|r| - 1] != ""
    ensures forall j :: |r| <= j < |parts| ==> parts[j] == ""
    decreases |parts|
  {
    if |parts| > 0 && parts[|parts| - 1] == "" then StripTrailingEmpty(parts[..|parts| - 1]) else parts
  }

  /** `s.split(c)`: the string itself when it has no separator, otherwise
      the pieces without the trailing empty ones. */
  function JavaSplit(s: string, c: char): (parts: seq<string>)
    ensures forall i :: 0 <= i < |parts| ==> c !in parts[i]
    ensures c !in s ==> parts == [s]
    ensures c in s ==> |parts| <= |SplitAll(s, c)| && parts == SplitAll(s, c)[..|parts|]
    ensures c in s ==> forall j :: |parts| <= j < |SplitAll(s, c)| ==> SplitAll(s, c)[j] == ""
    ensures c in s && |parts| > 0 ==> parts[|parts| - 1] != ""
  {
    if c !in s then [s] else StripTrailingEmpty(SplitAll(s, c))
  }

  /** Putting a separator-free prefix in front of a string only extends the
      first piece. */
  lemma {:induction false} SplitPrefix(d: string, r: string, c: char)
    requires c !in d
    ensures |SplitAll(d + r, c)| == |SplitAll(r, c)|
    ensures SplitAll(d + r, c)[0] == d + SplitAll(r, c)[0]
    ensures SplitAll(d + r, c)[1..] == SplitAll(r, c)[1..]
    decreases |d|
  {
    if |d| > 0 {
      assert (d + r)[0] == d[0];
      assert (d + r)[1..] == d[1..] + r;
      SplitPrefix(d[1..], r, c);
      assert [d[0]] + (d[1..] + SplitAll(r, c)[0]) == d + SplitAll(r, c)[0];
    } else {
      assert d + r == r;
    }
  }

  /** A leading separator makes an empty first piece. */
  lemma SplitAtSeparator(r: string, c: char)
    requires |r| > 0 && r[0] == c
    ensures SplitAll(r, c) == [""] + SplitAll(r[1..], c)
  {
  }

  /** A piece that is not empty survives the stripping, at its place. */
  lemma StripKeeps(parts: seq<string>, i: nat)
    requires i < |parts| && parts[i] != ""
    ensures i < |StripTrailingEmpty(parts)| && StripTrailingEmpty(parts)[i] == parts[i]
  {
  }

  /** The first piece of the split of `d + r`, where `d` holds no separator,
      is not empty and `r` is empty or starts with the separator, is `d`. */
  lemma {:induction false} JavaSplitFirst(d: string, r: string, c: char)
    requires c !in d && d != ""
    requires r == [] || r[0] == c
    ensures |JavaSplit(d + r, c)| >= 1 && JavaSplit(d + r, c)[0] == d
  {
    if r == [] {
      assert d + r == d;
    } else {
      assert (d + r)[|d|] == c;
      SplitPrefix(d, r, c);
      SplitAtSeparator(r, c);
      StripKeeps(SplitAll(d + r, c), 0);
    }
  }

  // ---------------------------------------------------------------------
  // Integer.parseInt and Integer.toString

  predicate IsDigit(ch: char) { '0' <= ch <= '9' }

  predicate AllDigits(s: string) { forall i :: 0 <= i < |s| ==> IsDigit(s[i]) }

  /** The number a string of decimal digits denotes. */
  function DigitsValue(s: string): nat
    requires AllDigits(s)
  {
    if s == [] then 0 else DigitsValue(s[..|s| - 1]) * 10 + ((s[|s| - 1] as int) - ('0' as int))
  }

  /** The decimal digits of `n`, without leading zeros. */
  function DecimalDigits(n: nat): (s: string)
    ensures |s| >= 1 && AllDigits(s)
    decreases n
  {
    if n < 10 then [(n + '0' as int) as char] else DecimalDigits(n / 10) + [((n % 10) + '0' as int) as char]
  }

  /** `Integer.toString(n)`. */
  function ToDecimal(n: int): string
  {
    if n < 0 then "-" + DecimalDigits(-n) else DecimalDigits(n)
  }

  /** `Integer.parseInt(s)`: an optional sign followed by at least one
      decimal digit, denoting a number in the 32-bit range; `None` is the
      `NumberFormatException`. */
  function ParseInt(s: string): (r: Option<int>)
    ensures r.Some? ==> IsInt32(r.value)
    ensures r.Some? ==> |s| >= 1 && (IsDigit(s[0]) || s[0] == '-' || s[0] == '+')
  {
    if |s| == 0 then None
    else
      var digits := if s[0] == '-' || s[0] == '+' then s[1..] else s;
      if |digits| == 0 || !AllDigits(digits) then None
      else
        var v: int := if s[0] == '-' then -(DigitsValue(digits) as int) else DigitsValue(digits);
        if IsInt32(v) then Some(v) else None
  }

  lemma {:induction false} DecimalRoundTrip(n: nat)
    ensures DigitsValue(DecimalDigits(n)) == n
    decreases n
  {
    var s := DecimalDigits(n);
    if n >= 10 {
      DecimalRoundTrip(n / 10);
      assert s[..|s| - 1] == DecimalDigits(n / 10);
    } else {
      assert s[..|s| - 1] == [];
    }
  }

  /** `parseInt` reads back what `toString` writes, over the whole `int`
      range. */
  lemma {:induction false} ParseIntRoundTrip(n: int)
    requires IsInt32(n)
    ensures ParseInt(ToDecimal(n)) == Some(n)
  {
    if n < 0 {
      DecimalRoundTrip(-n);
      assert ToDecimal(n)[1..] == DecimalDigits(-n);
    } else {
      DecimalRoundTrip(n);
      assert IsDigit(DecimalDigits(n)[0]);
    }
  }

  /** The text of a number holds neither separator of a version string, and
      only the number 1 is written "1". */
  lemma {:induction false} DecimalShape(n: int)
    requires IsInt32(n)
    ensures '.' !in ToDecimal(n) && '_' !in ToDecimal(n) && ToDecimal(n) != ""
    ensures ToDecimal(n) == "1" ==> n == 1
  {
    var d := if n < 0 then DecimalDigits(-n) else DecimalDigits(n);
    assert forall i :: 0 <= i < |d| ==> d[i] != '.' && d[i] != '_';
    if n < 0 {
      assert ToDecimal(n) == "-" + d;
      assert forall i :: 0 <= i < |ToDecimal(n)| ==> ToDecimal(n)[i] == (if i == 0 then '-' else d[i - 1]);
    }
    if ToDecimal(n) == "1" {
      ParseIntRoundTrip(n);
      assert ParseInt("1") == Some(1);
    }
  }

  // ---------------------------------------------------------------------
  // isVersionAtLeast

  /** The major version `isVersionAtLeast` reads from a version string, or
      `None` when any step throws: a null string, a split with no pieces, an
      old-style second piece that splits into nothing, or a piece that is
      not an `int`. "1.x" strings carry the version in the second piece, up
      to the first underscore. */
  function JavaVersion(versionString: Option<string>): (v: Option<int>)
    ensures versionString.None? ==> v.None?
    ensures v.Some? ==> IsInt32(v.value)
  {
    if versionString.None? then None
    else
      var parts := JavaSplit(versionString.value, '.');
      if |parts| == 0 then None
      else if parts[0] == "1" && |parts| > 1 then
        var sub := JavaSplit(parts[1], '_');
        if |sub| == 0 then None else ParseInt(sub[0])
      else ParseInt(parts[0])
  }

  /** `isVersionAtLeast(versionString, minVersion)`. */
  function IsVersionAtLeast(versionString: Option<string>, minVersion: int): (b: bool)
    ensures b ==> versionString.Some?
  {
    match JavaVersion(versionString)
    case None => false
    case Some(v) => v >= minVersion
  }

  /** New-style strings: a number other than 1, alone or followed by
      dot-separated parts, is that version. */
  lemma {:induction false} NewStyleVersion(n: int, rest: string)
    requires IsInt32(n) && n != 1
    requires rest == "" || rest[0] == '.'
    ensures JavaVersion(Some(ToDecimal(n) + rest)) == Some(n)
  {
    var d := ToDecimal(n);
    DecimalShape(n);
    JavaSplitFirst(d, rest, '.');
    ParseIntRoundTrip(n);
  }

  /** The part of `rest` before its first dot is empty or starts with an
      underscore, when `rest` itself is empty or starts with either. */
  lemma {:induction false} FirstPieceShape(rest: string)
    requires rest == "" || rest[0] == '.' || rest[0] == '_'
    ensures SplitAll(rest, '.')[0] == "" || SplitAll(rest, '.')[0][0] == '_'
  {
    if rest != "" {
      if rest[0] == '.' {
        SplitAtSeparator(rest, '.');
      } else {
        assert rest == "_" + rest[1..];
        SplitPrefix("_", rest[1..], '.');
      }
    }
  }

  /** The dot-split of "1." + `d` + `rest`, where `d` is a non-empty
      dot-free string, has "1" first and `d` followed by the part of
      `rest` before its first dot second. */
  lemma {:induction false} OldStyleSplit(d: string, rest: string)
    requires '.' !in d && d != ""
    ensures |JavaSplit("1." + d + rest, '.')| > 1
    ensures JavaSplit("1." + d + rest, '.')[0] == "1"
    ensures JavaSplit("1." + d + rest, '.')[1] == d + SplitAll(rest, '.')[0]
  {
    var s := "1." + d + rest;
    assert s == "1" + ("." + d + rest);
    assert s[1] == '.';
    SplitPrefix("1", "." + d + rest, '.');
    SplitAtSeparator("." + d + rest, '.');
    assert ("." + d + rest)[1..] == d + rest;
    SplitPrefix(d, rest, '.');
    var all := SplitAll(s, '.');
    assert all[0] == "1";
    assert all[1] == d + SplitAll(rest, '.')[0];
    StripKeeps(all, 1);
  }

  /** Old-style strings: "1." followed by a number, and then nothing, more
      dot-separated parts or an underscore suffix, is that number. */
  lemma {:induction false} OldStyleVersion(n: int, rest: string)
    requires IsInt32(n)
    requires rest == "" || rest[0] == '.' || rest[0] == '_'
    ensures JavaVersion(Some("1." + ToDecimal(n) + rest)) == Some(n)
  {
    var d := ToDecimal(n);
    DecimalShape(n);
    ParseIntRoundTrip(n);
    OldStyleSplit(d, rest);
    FirstPieceShape(rest);
    JavaSplitFirst(d, SplitAll(rest, '.')[0], '_');
  }

  /** "1.8.0_292" is version 8, below 21. */
  lemma Jdk8Example()
    ensures JavaVersion(Some("1.8.0_292")) == Some(8)
    ensures !IsVersionAtLeast(Some("1.8.0_292"), 21)
  {
    assert ToDecimal(8) == "8";
    assert "1." + "8" + ".0_292" == "1.8.0_292";
    OldStyleVersion(8, ".0_292");
  }

  /** "11.0.12" is version 11. */
  lemma Jdk11Example()
    ensures JavaVersion(Some("11.0.12")) == Some(11)
    ensures IsVersionAtLeast(Some("11.0.12"), 11)
  {
    assert ToDecimal(11) == "11";
    assert "11" + ".0.12" == "11.0.12";
    NewStyleVersion(11, ".0.12");
  }

  /** "21" is version 21, at least 21. */
  lemma Jdk21Example()
    ensures JavaVersion(Some("21")) == Some(21)
    ensures IsJdk21OrHigher(Some("21"))
  {
    assert ToDecimal(21) == "21";
    assert "21" + "" == "21";
    NewStyleVersion(21, "");
  }

  /** A null string, one that splits into no pieces at all (such as ".",
      whose only pieces are empty and trailing) and one that is not a
      number are all "not at least" any version. */
  lemma {:induction false} UnparsableIsNever(minVersion: int)
    ensures !IsVersionAtLeast(None, minVersion)
    ensures !IsVersionAtLeast(Some("."), minVersion)
    ensures !IsVersionAtLeast(Some(""), minVersion)
    ensures !IsVersionAtLeast(Some("x"), minVersion)
  {
    assert SplitAll(".", '.') == ["", ""] by {
      assert "."[1..] == "";
    }
    assert JavaSplit(".", '.') == [];
    assert JavaSplit("", '.') == [""];
    assert JavaSplit("x", '.') == ["x"];
    assert !IsDigit("x"[0]);
  }

  // ---------------------------------------------------------------------
  // The optimisation gates

  /** `isJdk21OrHigher`, computed once from the `java.version` property. */
  function IsJdk21OrHigher(javaVersion: Option<string>): (b: bool)
    ensures b <==> JavaVersion(javaVersion).Some? && JavaVersion(javaVersion).value >= 21
    ensures b ==> javaVersion.Some?
  {
    IsVersionAtLeast(javaVersion, 21)
  }

  /** `applyJdk21Optimizations(classToOptimize)`: false below JDK 21, true
      otherwise. Naming the class for the log line dereferences it, so a
      null class always throws: below JDK 21 from the first log line, and
      from 21 on from the log line of the handler that caught the first
      exception. */
  function ApplyJdk21Optimizations(isJdk21OrHigher: bool, classToOptimize: Option<JClass>): (r: Result<bool>)
    ensures r.Failure? <==> classToOptimize.None?
    ensures r.Failure? ==> r.err == NullPointerException
    ensures r.Success? ==> (r.value <==> isJdk21OrHigher)
  {
    if !isJdk21OrHigher then
      (if classToOptimize.None? then Failure(NullPointerException) else Success(false))
    else if classToOptimize.None? then
      // the body's log line throws; the handler's log line throws again
      Failure(NullPointerException)
    else Success(true)
  }

  /** `applyOptimizedStubbing`: a placeholder that never applies anything. */
  function ApplyOptimizedStubbing(isJdk21OrHigher: bool, methodName: Option<string>, mockInstance: Value, returnValue: Value): (r: bool)
    ensures !r
  {
    if !isJdk21OrHigher then false else false
  }
}
