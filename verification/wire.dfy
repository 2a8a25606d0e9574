/** The companion connection as a stream of units: data octets, and file
    descriptors passed alongside them. `write_int`/`read_int` move one C `int`
    as four octets in native (little-endian) order, `write_full`/`read_full`
    move a fixed number of octets, `send_fd`/`recv_fd` move one descriptor. */
module Wire {
  import opened Bytes
  import opened Options

  datatype Unit = Octet(b: byte) | Descriptor(fd: int)

  type Stream = seq<Unit>

  /** The octets `bs` as stream units. */
  function Octets(bs: seq<byte>): (s: Stream)
    ensures |s| == |bs|
    ensures forall k :: 0 <= k < |bs| ==> s[k] == Octet(bs[k])
  {
    seq(|bs|, k requires 0 <= k < |bs| => Octet(bs[k]))
  }

  predicate AllOctets(s: Stream) {
    forall k :: 0 <= k < |s| ==> s[k].Octet?
  }

  /** The bytes carried by a stream of octets. */
  function OctetValues(s: Stream): (bs: seq<byte>)
    requires AllOctets(s)
    ensures |bs| == |s|
    ensures forall k :: 0 <= k < |s| ==> s[k] == Octet(bs[k])
  {
    seq(|s|, k requires 0 <= k < |s| && s[k].Octet? => s[k].b)
  }

  predicate HasDescriptor(s: Stream) {
    exists k :: 0 <= k < |s| && s[k].Descriptor?
  }

  /** Little-endian layout of an unsigned 32-bit value. */
  function LittleEndian(u: Uint32): (bs: seq<byte>)
    ensures |bs| == 4
  {
    var q1 := u / 256;
    var q2 := q1 / 256;
    [u % 256, q1 % 256, q2 % 256, q2 / 256]
  }

  function FromLittleEndian(bs: seq<byte>): Uint32
    requires |bs| == 4
  {
    var b0: int, b1: int, b2: int, b3: int := bs[0], bs[1], bs[2], bs[3];
    b0 + 256 * (b1 + 256 * (b2 + 256 * b3))
  }

  lemma LittleEndianRoundTrip(u: Uint32)
    ensures FromLittleEndian(LittleEndian(u)) == u
  {
    var q1 := u / 256;
    var q2 := q1 / 256;
    assert u == u % 256 + 256 * q1;
    assert q1 == q1 % 256 + 256 * q2;
    assert q2 == q2 % 256 + 256 * (q2 / 256);
  }

  lemma FromLittleEndianRoundTrip(bs: seq<byte>)
    requires |bs| == 4
    ensures LittleEndian(FromLittleEndian(bs)) == bs
  {
    var u := FromLittleEndian(bs);
    var b0: int, b1: int, b2: int, b3: int := bs[0], bs[1], bs[2], bs[3];
    var r := b1 + 256 * (b2 + 256 * b3);
    assert u == b0 + 256 * r;
    assert u / 256 == r && u % 256 == bs[0];
    var r2 := b2 + 256 * b3;
    assert r / 256 == r2 && r % 256 == bs[1];
    assert r2 / 256 == bs[3] && r2 % 256 == bs[2];
  }

  /** `write_int`: the four octets of a C `int`. */
  function EncodeInt(v: Int32): (s: Stream)
    ensures |s| == 4 && AllOctets(s)
  {
    Octets(LittleEndian(ToUint32(v)))
  }

  /** `read_int`: the next C `int` and the rest of the stream, or `None` if the
      stream does not start with four octets. */
  function ReadInt(s: Stream): (r: Option<(Int32, Stream)>)
    ensures r.Some? <==> |s| >= 4 && AllOctets(s[..4])
    ensures r.Some? ==> r.value.1 == s[4..]
  {
    if |s| >= 4 && AllOctets(s[..4]) then
      Some((ToInt32(FromLittleEndian(OctetValues(s[..4]))), s[4..]))
    else None
  }

  /** `read_full` of `n` octets. */
  function ReadBytes(s: Stream, n: nat): (r: Option<(seq<byte>, Stream)>)
    ensures r.Some? <==> |s| >= n && AllOctets(s[..n])
    ensures r.Some? ==> Octets(r.value.0) == s[..n] && r.value.1 == s[n..]
  {
    if |s| >= n && AllOctets(s[..n]) then Some((OctetValues(s[..n]), s[n..]))
    else None
  }

  /** `recv_fd`: the next passed descriptor. */
  function ReadFd(s: Stream): (r: Option<(int, Stream)>)
    ensures r.Some? <==> |s| > 0 && s[0].Descriptor?
    ensures r.Some? ==> s == [Descriptor(r.value.0)] + r.value.1
  {
    if |s| > 0 && s[0].Descriptor? then Some((s[0].fd, s[1..])) else None
  }

  /** An int written by `write_int` is read back by `read_int`, whatever
      follows it. */
  lemma ReadEncodedInt(v: Int32, rest: Stream)
    ensures ReadInt(EncodeInt(v) + rest) == Some((v, rest))
  {
    var s := EncodeInt(v) + rest;
    assert s[..4] == EncodeInt(v);
    assert OctetValues(s[..4]) == LittleEndian(ToUint32(v));
    LittleEndianRoundTrip(ToUint32(v));
    assert s[4..] == rest;
  }

  /** Conversely, whenever `read_int` succeeds the stream was that int's
      encoding followed by the rest. */
  lemma EncodeReadInt(s: Stream)
    requires ReadInt(s).Some?
    ensures s == EncodeInt(ReadInt(s).value.0) + ReadInt(s).value.1
  {
    var bs := OctetValues(s[..4]);
    var v := ReadInt(s).value.0;
    var u := FromLittleEndian(bs);
    assert ToUint32(v) == u;
    FromLittleEndianRoundTrip(bs);
    assert EncodeInt(v) == s[..4];
    assert s == s[..4] + s[4..];
  }

  lemma ReadWrittenBytes(bs: seq<byte>, rest: Stream)
    ensures ReadBytes(Octets(bs) + rest, |bs|) == Some((bs, rest))
  {
    var s := Octets(bs) + rest;
    assert s[..|bs|] == Octets(bs);
    assert OctetValues(Octets(bs)) == bs;
    assert s[|bs|..] == rest;
  }

  lemma ReadSentFd(fd: int, rest: Stream)
    ensures ReadFd([Descriptor(fd)] + rest) == Some((fd, rest))
  {
    assert ([Descriptor(fd)] + rest)[1..] == rest;
  }
}
