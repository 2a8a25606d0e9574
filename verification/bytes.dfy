/** Byte-level vocabulary shared by the whole model: bytes, the fixed-width
    integer types of the module's C++ code, zero-padded process-name buffers
    and NUL-terminated C strings. */
module Bytes {

  type byte = x: int | 0 <= x < 256

  /** `kProcessNameMax`: the width of every process-name buffer. */
  const PROCESS_NAME_MAX: nat := 256

  const NUL: byte := 0
  const NEWLINE: byte := 10

  const TWO_31: int := 0x8000_0000
  const TWO_32: int := 0x1_0000_0000

  /** C `int` on every Android ABI. */
  type Int32 = x: int | -0x8000_0000 <= x < 0x8000_0000

  /** C `uint32_t`; `uid_t` is this type. */
  type Uint32 = x: int | 0 <= x < 0x1_0000_0000

  /** Conversion of any integer to an unsigned 32-bit value (`uid_t`):
      reduction modulo 2^32, so `(uid_t)-1` is 0xFFFF_FFFF. */
  function ToUint32(x: int): (u: Uint32)
    ensures (x - u) % TWO_32 == 0
    ensures 0 <= x < TWO_32 ==> u == x
  {
    x % TWO_32
  }

  /** Conversion of any integer to `int`: two's-complement wrap-around. */
  function ToInt32(x: int): (v: Int32)
    ensures (x - v) % TWO_32 == 0
    ensures -TWO_31 <= x < TWO_31 ==> v == x
  {
    var u := x % TWO_32;
    if u < TWO_31 then u else u - TWO_32
  }

  function Zeros(n: nat): (z: seq<byte>)
    ensures |z| == n
    ensures forall k :: 0 <= k < n ==> z[k] == NUL
    ensures n > 0 ==> NUL in z
  {
    var z := seq(n, _ => NUL);
    assert n > 0 ==> z[0] == NUL;
    z
  }

  /** A zero-initialised `char[kProcessNameMax]` after the bytes `s` have been
      copied to its start. `s` must leave room for at least one NUL. */
  function NameBuffer(s: seq<byte>): (buf: seq<byte>)
    requires |s| < PROCESS_NAME_MAX
    ensures |buf| == PROCESS_NAME_MAX
    ensures buf[..|s|] == s
    ensures forall k :: |s| <= k < PROCESS_NAME_MAX ==> buf[k] == NUL
    ensures NUL in buf
  {
    assert (s + Zeros(PROCESS_NAME_MAX - |s|))[|s|] == NUL;
    s + Zeros(PROCESS_NAME_MAX - |s|)
  }

  /** The C string a buffer holds: its bytes up to (excluding) the first NUL,
      or the whole buffer if it holds no NUL. */
  function CStr(buf: seq<byte>): (s: seq<byte>)
    ensures |s| <= |buf|
    ensures s == buf[..|s|]
    ensures NUL !in s
    ensures |s| < |buf| ==> buf[|s|] == NUL
  {
    if |buf| == 0 || buf[0] == NUL then [] else [buf[0]] + CStr(buf[1..])
  }

  /** `strcmp(a, b) == 0` on two buffers of equal width: walk both until they
      differ (not equal) or until a common NUL (equal). At least one of the
      buffers must hold a NUL so that the walk stays inside them. */
  function StrcmpEqual(a: seq<byte>, b: seq<byte>): bool
    requires |a| == |b|
    requires NUL in a || NUL in b
    decreases |a|
  {
    if a[0] != b[0] then false
    else if a[0] == NUL then true
    else StrcmpEqual(a[1..], b[1..])
  }

  /** `strcmp` is equality of the two C strings, i.e. equality up to the
      first NUL; whatever follows the terminator is ignored. */
  lemma {:induction false} StrcmpIsCStrEquality(a: seq<byte>, b: seq<byte>)
    requires |a| == |b|
    requires NUL in a || NUL in b
    ensures StrcmpEqual(a, b) <==> CStr(a) == CStr(b)
    decreases |a|
  {
    if a[0] != b[0] {
      if a[0] == NUL {
        assert CStr(a) == [] && CStr(b) != [];
      } else if b[0] == NUL {
        assert CStr(b) == [] && CStr(a) != [];
      } else {
        assert CStr(a)[0] != CStr(b)[0];
      }
    } else if a[0] != NUL {
      StrcmpIsCStrEquality(a[1..], b[1..]);
      assert CStr(a) == [a[0]] + CStr(a[1..]);
      assert CStr(b) == [b[0]] + CStr(b[1..]);
      if CStr(a) == CStr(b) {
        assert CStr(a)[1..] == CStr(a[1..]);
        assert CStr(b)[1..] == CStr(b[1..]);
      }
    }
  }

  /** A NUL-free string followed by a terminator reads back as itself. */
  lemma {:induction false} CStrOfTerminated(s: seq<byte>, t: seq<byte>)
    requires NUL !in s
    requires |t| > 0 && t[0] == NUL
    ensures CStr(s + t) == s
  {
    if |s| > 0 {
      assert s[0] in s;
      assert (s + t)[1..] == s[1..] + t;
      CStrOfTerminated(s[1..], t);
    } else {
      assert s + t == t;
    }
  }

  /** A buffer without NUL is read whole. */
  lemma {:induction false} CStrOfNulFree(s: seq<byte>)
    requires NUL !in s
    ensures CStr(s) == s
  {
    if |s| > 0 {
      assert s[0] in s;
      assert s == [s[0]] + s[1..];
      CStrOfNulFree(s[1..]);
    }
  }

  /** The C string held by a name buffer filled from a NUL-free string is that
      string. */
  lemma CStrOfNameBuffer(s: seq<byte>)
    requires |s| < PROCESS_NAME_MAX
    requires NUL !in s
    ensures CStr(NameBuffer(s)) == s
  {
    CStrOfTerminated(s, Zeros(PROCESS_NAME_MAX - |s|));
  }
}
