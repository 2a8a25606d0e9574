/** The identity registry: the uid and process name of the SystemUI manager
    and of the Settings process, each read from a two-line file
    `<uid>\n<process name>`. */
module Registry {
  import opened Bytes
  import opened Options
  import Atoi

  /** A `uid_t` and a `char[kProcessNameMax]` process-name buffer. */
  datatype Record = Record(uid: Uint32, name: seq<byte>)

  /** The value before any file is read: `uid_t` -1 and a zero-filled name. */
  const UNSET: Record := Record(TWO_32 - 1, Zeros(PROCESS_NAME_MAX))

  /** A record whose name buffer has the full width and holds its terminator,
      so that `strcmp` on it stays inside the buffer. */
  predicate WellFormed(r: Record) {
    |r.name| == PROCESS_NAME_MAX && NUL in r.name
  }

  predicate IsFirstNewline(bytes: seq<byte>, i: int) {
    0 <= i < |bytes| && bytes[i] == NEWLINE && NEWLINE !in bytes[..i]
  }

  /** Index of the first '\n' of `bytes`, scanning from the start. */
  function FirstNewline(bytes: seq<byte>): (r: Option<nat>)
    ensures r.None? <==> NEWLINE !in bytes
    ensures r.Some? ==> IsFirstNewline(bytes, r.value)
  {
    if |bytes| == 0 then None
    else if bytes[0] == NEWLINE then Some(0)
    else match FirstNewline(bytes[1..])
      case None => None
      case Some(i) =>
        assert bytes[..i + 1] == [bytes[0]] + bytes[1..][..i];
        Some(i + 1)
  }

  /** The first '\n' is unique. */
  lemma FirstNewlineUnique(bytes: seq<byte>, i: int, j: int)
    requires IsFirstNewline(bytes, i) && IsFirstNewline(bytes, j)
    ensures i == j
  {
  }

  /** The copy of the remainder into the name buffer is unbounded; it must
      leave room for the terminator. */
  predicate NameFits(bytes: seq<byte>) {
    match FirstNewline(bytes)
    case None => true
    case Some(i) => |bytes| - i - 1 < PROCESS_NAME_MAX
  }

  /** `ReadApplicationInfo`: split the file at its first '\n'; the prefix,
      read by `atoi` and narrowed to `uid_t`, becomes the uid, the rest becomes
      the zero-padded name. A file without '\n' leaves the record as it was. */
  function ReadApplicationInfo(bytes: seq<byte>, rec: Record): (r: Record)
    requires NameFits(bytes)
    ensures NEWLINE !in bytes ==> r == rec
    ensures forall i :: IsFirstNewline(bytes, i) ==>
              && r.uid == ToUint32(Atoi.Atoi(bytes[..i]))
              && |bytes[i + 1..]| < PROCESS_NAME_MAX
              && r.name == NameBuffer(bytes[i + 1..])
    ensures WellFormed(rec) ==> WellFormed(r)
  {
    match FirstNewline(bytes)
    case None => rec
    case Some(i) =>
      assert forall j :: IsFirstNewline(bytes, j) ==> j == i by {
        forall j | IsFirstNewline(bytes, j) {
          FirstNewlineUnique(bytes, i, j);
        }
      }
      Record(ToUint32(Atoi.Atoi(bytes[..i])), NameBuffer(bytes[i + 1..]))
  }

  /** A registry file as it is meant to be written: the uid in decimal, a
      newline, then the process name. */
  function Format(uid: int, name: seq<byte>): seq<byte> {
    Atoi.SignedDecimal(uid) + [NEWLINE] + name
  }

  /** Reading a formatted file yields its uid (as `uid_t`) and its name, even
      when the name itself holds a newline. */
  lemma {:induction false} ReadFormatted(uid: int, name: seq<byte>, rec: Record)
    requires |name| < PROCESS_NAME_MAX
    ensures NameFits(Format(uid, name))
    ensures ReadApplicationInfo(Format(uid, name), rec) == Record(ToUint32(uid), NameBuffer(name))
  {
    var d := Atoi.SignedDecimal(uid);
    var bytes := Format(uid, name);
    assert bytes[..|d|] == d;
    assert bytes[|d| + 1..] == name;
    assert NEWLINE !in d by {
      if uid < 0 {
        assert d == [Atoi.MINUS] + Atoi.Decimal(-uid);
        assert forall k :: 1 <= k < |d| ==> d[k] == Atoi.Decimal(-uid)[k - 1];
      }
    }
    assert IsFirstNewline(bytes, |d|);
    Atoi.AtoiOfSignedDecimal(uid);
  }

  /** The file `10155\n` followed by a name (`com.android.systemui` in the
      documented layout) gives uid 10155 and that name, padded. */
  lemma ReadExample(name: seq<byte>)
    requires |name| < PROCESS_NAME_MAX
    ensures NameFits([49, 48, 49, 53, 53, NEWLINE] + name)
    ensures ReadApplicationInfo([49, 48, 49, 53, 53, NEWLINE] + name, UNSET)
            == Record(10155, NameBuffer(name))
  {
    assert Atoi.Decimal(1) == [49];
    assert Atoi.Decimal(10) == [49, 48];
    assert Atoi.Decimal(101) == [49, 48, 49];
    assert Atoi.Decimal(1015) == [49, 48, 49, 53];
    assert Atoi.Decimal(10155) == [49, 48, 49, 53, 53];
    assert [49, 48, 49, 53, 53, NEWLINE] + name == Format(10155, name);
    ReadFormatted(10155, name, UNSET);
  }
}
