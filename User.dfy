/**
 * The sample domain's `User`: an immutable record of a `long` id, a name and
 * an email (either may be null), with structural equality, the hash code
 * that goes with it, and the score formula the private-method examples
 * stub.
 */
module UserModel {
  import opened Values

  const TWO_64: int := 0x1_0000_0000_0000_0000
  const LONG_MIN: int := -0x8000_0000_0000_0000
  const LONG_MAX: int := 0x7FFF_FFFF_FFFF_FFFF

  /** A Java `long`. */
  type Long = x: int | LONG_MIN <= x <= LONG_MAX

  /** The `long` that `x` wraps to. */
  function WrapInt64(x: int): (r: Long)
    ensures (x - r) % TWO_64 == 0
    ensures LONG_MIN <= x <= LONG_MAX ==> r == x
  {
    var u := x % TWO_64;
    if u <= LONG_MAX then u else u - TWO_64
  }

  /** A `User`. Its fields are final, so a value is the right model: no
      operation changes a user after construction. */
  datatype User = User(id: Long, name: Option<string>, email: Option<string>)

  /** `new User(id, name)`: the two-argument constructor leaves the email
      null. */
  function UserWithoutEmail(id: Long, name: Option<string>): (u: User)
    ensures u.id == id && u.name == name && u.email.None?
  {
    User(id, name, None)
  }

  /** `a != null ? a.equals(b) : b == null`. */
  predicate NullSafeEquals(a: Option<string>, b: Option<string>)
  {
    if a.Some? then b.Some? && a.value == b.value else b.None?
  }

  /** `u.equals(o)`, where `None` stands for null and for every object whose
      class is not `User`: equal ids, then null-safe equal names and
      emails. */
  function Equals(u: User, o: Option<User>): (r: bool)
    ensures r <==> o == Some(u)
  {
    o.Some? && u.id == o.value.id && NullSafeEquals(u.name, o.value.name) && NullSafeEquals(u.email, o.value.email)
  }

  /** `equals` is an equivalence relation on users. */
  lemma EqualsIsEquivalence(u: User, v: User, w: User)
    ensures Equals(u, Some(u))
    ensures Equals(u, Some(v)) == Equals(v, Some(u))
    ensures Equals(u, Some(v)) && Equals(v, Some(w)) ==> Equals(u, Some(w))
    ensures !Equals(u, None)
  {
  }

  /** `String.hashCode`: `h = 31 * h + c` over the characters, in `int`
      arithmetic. */
  function StringHash(s: string): (h: int)
    ensures IsInt32(h)
  {
    if s == [] then 0 else WrapInt32(31 * StringHash(s[..|s| - 1]) + (s[|s| - 1] as int))
  }

  /** `(int) (id ^ (id >>> 32))`: the low 32 bits of that are the low half
      of the id's bit pattern XOR its high half. */
  function IdHash(id: Long): (h: int)
    ensures IsInt32(h)
  {
    var bits := (id as int) % TWO_64;
    var low := bits % TWO_32;
    var high := bits / TWO_32;
    WrapInt32(((low as bv32) ^ (high as bv32)) as int)
  }

  /** `hashCode`: the id hash, then `31 * result + ` the hash of the name
      and of the email (0 for null), in `int` arithmetic. */
  function HashCode(u: User): (h: int)
    ensures IsInt32(h)
  {
    var r0 := IdHash(u.id);
    var r1 := WrapInt32(31 * r0 + (if u.name.Some? then StringHash(u.name.value) else 0));
    WrapInt32(31 * r1 + (if u.email.Some? then StringHash(u.email.value) else 0))
  }

  /** Equal users have equal hash codes. */
  lemma EqualsAgreesWithHashCode(u: User, v: User)
    requires Equals(u, Some(v))
    ensures HashCode(u) == HashCode(v)
  {
  }

  /** Congruence modulo 2^64 is transitive. */
  lemma {:induction false} CongruentTrans64(x: int, y: int, z: int)
    requires (x - y) % TWO_64 == 0 && (y - z) % TWO_64 == 0
    ensures (x - z) % TWO_64 == 0
  {
    var a := (x - y) / TWO_64;
    var b := (y - z) / TWO_64;
    assert x - y == a * TWO_64;
    assert y - z == b * TWO_64;
    assert x - z == (a + b) * TWO_64;
  }

  /** Adding a multiple of 2^64 keeps the low 32 bits. */
  lemma ShiftKeepsLow32(y: int, k: int)
    ensures (y + k * TWO_64) % TWO_32 == y % TWO_32
  {
    assert k * TWO_64 == (k * TWO_32) * TWO_32;
  }

  /** Two numbers that differ by a multiple of 2^64 narrow to the same
      `int`. */
  lemma {:induction false} NarrowingIgnoresLongWrap(x: int, y: int)
    requires (x - y) % TWO_64 == 0
    ensures WrapInt32(x) == WrapInt32(y)
  {
    var k := (x - y) / TWO_64;
    assert x == y + k * TWO_64;
    ShiftKeepsLow32(y, k);
  }

  /** The name's length, 0 for a null name. */
  function NameLength(u: User): nat
  {
    if u.name.Some? then |u.name.value| else 0
  }

  /** `calculateScore`: `id * 10 + ` the name's length, computed in `long`
      arithmetic and narrowed to `int`. The result is what one 32-bit
      wrap-around of the exact value gives, so it is the exact value
      whenever that fits an `int`. */
  function CalculateScore(u: User): (r: int)
    ensures IsInt32(r)
    ensures r == WrapInt32(u.id * 10 + NameLength(u))
    ensures IsInt32(u.id * 10 + NameLength(u)) ==> r == u.id * 10 + NameLength(u)
  {
    var times10 := WrapInt64(u.id * 10);
    var sum := WrapInt64(times10 + NameLength(u));
    CongruentTrans64(sum, times10 + NameLength(u), u.id * 10 + NameLength(u));
    NarrowingIgnoresLongWrap(sum, u.id * 10 + NameLength(u));
    WrapInt32(sum)
  }

  /** `getScore`. */
  function GetScore(u: User): int
  {
    CalculateScore(u)
  }

  /** User 1, "John Doe", scores 18. */
  lemma JohnDoeScores18()
    ensures GetScore(User(1, Some("John Doe"), Some("john@example.com"))) == 18
  {
    assert |"John Doe"| == 8;
  }
}
