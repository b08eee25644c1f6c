/**
 * The Java-side vocabulary shared by every component of the model: the
 * objects that mocked calls take and return, argument arrays, exceptions,
 * classes, and the two-complement helpers that the identity hash and the
 * score formula need.
 */
module Values {

  datatype Option<+T> = None | Some(value: T)

  /** A Throwable object. `id` is its identity: rethrowing "the same object"
      is equality of the whole value. */
  datatype Exn = Exn(id: nat, className: string, message: string)

  /** A `java.lang.Class`: `id` is the class object's identity, `name` is what
      `getName()` returns. */
  datatype JClass = JClass(id: nat, name: string)

  /** The objects that flow through mocked calls. Primitive results are boxed,
      as Java's reflection boxes them; floating-point values are kept as their
      IEEE bit patterns so that no float arithmetic is involved; every other
      object is an identity (`Ref`), except a Throwable passed around as a plain
      object (`Exc`). Matching compares these values with `==`. That is
      `Objects.equals` for the boxed primitives, strings and Throwables, but
      for a `Ref` it is identity, so an object whose class overrides
      `equals` is compared here by identity only. */
  datatype Value =
    | Null
    | Bool(b: bool)
    | Char(c: char)
    | Byte(n: int)
    | Short(n: int)
    | Int(n: int)
    | Long(n: int)
    | Float(floatBits: bv32)
    | Double(doubleBits: bv64)
    | Str(s: string)
    | Ref(id: nat)
    | Exc(e: Exn)

  /** An `Object[]` argument array read at the moment of the call: `None` is a
      null array (what a JDK proxy passes for a method without parameters). */
  type Args = Option<seq<Value>>

  /** The elements of an argument array, a null array having none. */
  function Elements(a: Args): (s: seq<Value>)
    ensures a.None? ==> s == []
    ensures a.Some? ==> s == a.value
  {
    match a
    case None => []
    case Some(xs) => xs
  }

  /** The contents of a Java argument array at this moment: the copy that
      `args.clone()` makes. */
  function Snapshot(a: array?<Value>): (r: Args)
    reads a
    ensures a == null <==> r.None?
    ensures a != null ==> r == Some(a[..])
  {
    if a == null then None else Some(a[..])
  }

  /** Exceptions the framework itself raises (as opposed to stubbed ones). */
  datatype JavaError =
    | NullPointerException
    | IllegalStateException
    /** Reading element 0 of an empty array. */
    | ArrayIndexOutOfBoundsException
    /** A failed call-count verification; the message names the method and
        both counts. */
    | AssertionError(methodName: string, expected: int, actual: int)

  /** Outcome of an operation that returns normally or with an exception. */
  datatype Status = Done | Failed(err: JavaError)

  /** Outcome of an operation that returns a `T` or throws. */
  datatype Result<T> = Success(value: T) | Failure(err: JavaError)

  /** The eight primitive types. */
  datatype Prim = PBoolean | PChar | PByte | PShort | PInt | PLong | PFloat | PDouble

  /** A declared return type, as far as choosing a default value looks at it:
      `void`, a primitive, the box of a primitive, another subclass of
      `Number`, or any other reference type. */
  datatype JType =
    | Void
    | Primitive(p: Prim)
    | Boxed(boxOf: Prim)
    | OtherNumber(numberClass: string)
    | Reference(className: string)

  /** The primitive type whose (boxed) value `v` is, if any. */
  function PrimOf(v: Value): Option<Prim>
  {
    match v
    case Bool(_) => Some(PBoolean)
    case Char(_) => Some(PChar)
    case Byte(_) => Some(PByte)
    case Short(_) => Some(PShort)
    case Int(_) => Some(PInt)
    case Long(_) => Some(PLong)
    case Float(_) => Some(PFloat)
    case Double(_) => Some(PDouble)
    case _ => None
  }

  /** `false`, the NUL character, or a zero (positive zero for floats). */
  predicate IsZero(v: Value)
  {
    match v
    case Bool(b) => !b
    case Char(c) => c == 0 as char
    case Byte(n) => n == 0
    case Short(n) => n == 0
    case Int(n) => n == 0
    case Long(n) => n == 0
    case Float(bits) => bits == 0
    case Double(bits) => bits == 0
    case _ => false
  }

  /** The zero of a primitive type: what an uninitialised field of that type
      holds. */
  function ZeroOf(p: Prim): (v: Value)
    ensures PrimOf(v) == Some(p) && IsZero(v)
  {
    match p
    case PBoolean => Bool(false)
    case PChar => Char(0 as char)
    case PByte => Byte(0)
    case PShort => Short(0)
    case PInt => Int(0)
    case PLong => Long(0)
    case PFloat => Float(0)
    case PDouble => Double(0)
  }

  /** The zero of a primitive type is unique. */
  lemma ZeroIsUnique(v: Value, w: Value)
    requires PrimOf(v).Some? && PrimOf(v) == PrimOf(w)
    requires IsZero(v) && IsZero(w)
    ensures v == w
  {
  }

  /** What a proxy handler does with an intercepted call: return a value,
      rethrow a stubbed Throwable, or fail with an exception of its own. */
  datatype Reply = Returned(v: Value) | Threw(e: Exn) | Crashed(err: JavaError)

  // ---------------------------------------------------------------------
  // 32-bit two's-complement integers

  const TWO_32: int := 0x1_0000_0000
  const INT_MIN: int := -0x8000_0000
  const INT_MAX: int := 0x7FFF_FFFF

  predicate IsInt32(x: int) { INT_MIN <= x <= INT_MAX }

  /** The Java `int` that `x` narrows to: its low 32 bits read as signed. */
  function WrapInt32(x: int): (r: int)
    ensures IsInt32(r)
    ensures (x - r) % TWO_32 == 0
    ensures IsInt32(x) ==> r == x
  {
    var u := x % TWO_32;
    if u <= INT_MAX then u else u - TWO_32
  }

  // ---------------------------------------------------------------------
  // Integer.toHexString

  function HexDigit(d: nat): (c: char)
    requires d < 16
  {
    "0123456789abcdef"[d]
  }

  function HexDigitValue(c: char): nat
  {
    if '0' <= c <= '9' then (c as int) - ('0' as int)
    else if 'a' <= c <= 'f' then (c as int) - ('a' as int) + 10
    else 0
  }

  /** Lower-case hexadecimal digits of `n` without leading zeros. */
  function Hex(n: nat): (s: string)
    ensures |s| >= 1
    decreases n
  {
    if n < 16 then [HexDigit(n)] else Hex(n / 16) + [HexDigit(n % 16)]
  }

  /** The number a string of hexadecimal digits denotes. */
  function HexValue(s: string): nat
  {
    if s == [] then 0 else HexValue(s[..|s| - 1]) * 16 + HexDigitValue(s[|s| - 1])
  }

  /** `Integer.toHexString(i)`: the digits of `i` read as an unsigned 32-bit
      number. */
  function ToHexString(i: int): (s: string)
    ensures HexValue(s) == i % TWO_32
    ensures |s| > 1 ==> s[0] != '0'
  {
    HexRoundTrip(i % TWO_32);
    Hex(i % TWO_32)
  }

  lemma HexDigitRoundTrip(d: nat)
    requires d < 16
    ensures HexDigitValue(HexDigit(d)) == d
  {
  }

  /** Decoding `Hex(n)` gives back `n`, and it has no superfluous leading zero. */
  lemma {:induction false} HexRoundTrip(n: nat)
    ensures HexValue(Hex(n)) == n
    ensures |Hex(n)| > 1 ==> Hex(n)[0] != '0'
    decreases n
  {
    if n < 16 {
      HexDigitRoundTrip(n);
      assert Hex(n)[..0] == [];
    } else {
      var s := Hex(n);
      HexRoundTrip(n / 16);
      HexDigitRoundTrip(n % 16);
      assert s[..|s| - 1] == Hex(n / 16);
      assert s[0] == Hex(n / 16)[0];
      if |Hex(n / 16)| == 1 {
        assert n / 16 >= 1;
        assert Hex(n / 16)[0] == HexDigit(n / 16);
      }
    }
  }

  /** The identity-hash text of `toString` determines the identity hash. */
  lemma ToHexStringInjective(i: int, j: int)
    requires IsInt32(i) && IsInt32(j)
    requires ToHexString(i) == ToHexString(j)
    ensures i == j
  {
    HexRoundTrip(i % TWO_32);
    HexRoundTrip(j % TWO_32);
  }
}
