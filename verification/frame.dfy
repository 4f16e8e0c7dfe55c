/** The self-describing wire frame around a record's body. */
module Frames {
  import opened Bits
  import opened Records

  const FRAME_MAGIC := 0x5249
  const WIRE_VERSION: byte := 1
  const FRAME_HEADER := 16

  datatype Frame = Frame(flags: byte, fp: nat, body: bytes)

  datatype Decoded = Ok(frame: Frame) | TooShort | BadMagic | BadVersion(version: byte) | Truncated

  /** The layout: magic, version, flags, fingerprint, body length, body. */
  function Wire(f: Frame): bytes {
    Le(FRAME_MAGIC, 2) + [WIRE_VERSION, f.flags] + Le(f.fp % W64, 8) + Le(|f.body| % W32, 4) + f.body
  }

  /** `Frame::encode`, field by field. */
  method Encode(f: Frame) returns (out: bytes)
    ensures out == Wire(f) && |out| == FRAME_HEADER + |f.body|
  {
    hide Le;
    out := Le(FRAME_MAGIC, 2);
    out := out + [WIRE_VERSION];
    out := out + [f.flags];
    out := out + Le(f.fp % W64, 8);
    out := out + Le(|f.body| % W32, 4);
    out := out + f.body;
  }

  /** `Frame::decode`. */
  function Decode(buf: bytes): Decoded {
    if |buf| < FRAME_HEADER then TooShort
    else if FromLe(buf[0..2]) != FRAME_MAGIC then BadMagic
    else if buf[2] != WIRE_VERSION then BadVersion(buf[2])
    else
      var n := FromLe(buf[12..16]);
      if |buf| < FRAME_HEADER + n then Truncated
      else Ok(Frame(buf[3], FromLe(buf[4..12]), buf[FRAME_HEADER..FRAME_HEADER + n]))
  }

  /** The fields of a wire frame, by position. */
  lemma WireParts(f: Frame, rest: bytes)
    ensures var buf := Wire(f) + rest;
      && |buf| == FRAME_HEADER + |f.body| + |rest| && buf[0..2] == Le(FRAME_MAGIC, 2)
      && buf[2] == WIRE_VERSION && buf[3] == f.flags
      && buf[4..12] == Le(f.fp % W64, 8) && buf[12..16] == Le(|f.body| % W32, 4)
      && buf[FRAME_HEADER..] == f.body + rest
  {
    hide Le;
  }

  /** A frame comes back as itself, whatever follows it, exactly when its length fits
      the header's u32 and its fingerprint a u64. */
  lemma FrameRoundTrip(f: Frame, rest: bytes)
    ensures Decode(Wire(f) + rest) == Ok(f) <==> |f.body| < W32 && f.fp < W64
  {
    hide Le, FromLe, Pow2;
    var buf := Wire(f) + rest;
    Pow2Words();
    WireParts(f, rest);
    MagicReads();
    LeRoundTrip(f.fp % W64, 8);
    Le32(|f.body| % W32);
    var n := |f.body| % W32;
    assert n <= |f.body| && buf[FRAME_HEADER..FRAME_HEADER + n] == f.body[..n];
  }

  lemma MagicReads()
    ensures FromLe(Le(FRAME_MAGIC, 2)) == FRAME_MAGIC
  {
    assert Pow2(8) == 256;
    Pow2Add(8, 8);
    LeRoundTrip(FRAME_MAGIC, 2);
  }

  /** Nothing else decodes: what decodes to a frame begins with that frame's bytes. */
  lemma DecodedIsWire(buf: bytes)
    requires Decode(buf).Ok?
    ensures var f := Decode(buf).frame; |Wire(f)| <= |buf| && buf[..|Wire(f)|] == Wire(f)
  {
    hide Le, FromLe, Pow2;
    var f := Decode(buf).frame;
    Pow2Words();
    LeOfFromLe(buf[0..2]);
    LeOfFromLe(buf[4..12]);
    LeOfFromLe(buf[12..16]);
    WireBytes(buf, f);
  }

  lemma WireBytes(buf: bytes, f: Frame)
    requires 16 + |f.body| <= |buf| && f.body == buf[16..16 + |f.body|] && |f.body| < W32 && f.fp < W64
    requires buf[0..2] == Le(FRAME_MAGIC, 2) && buf[2] == WIRE_VERSION && buf[3] == f.flags
    requires buf[4..12] == Le(f.fp, 8) && buf[12..16] == Le(|f.body|, 4)
    ensures buf[..16 + |f.body|] == Wire(f)
  {
    hide Le;
    assert buf[2..4] == [WIRE_VERSION, f.flags];
    assert buf[..16 + |f.body|] == buf[0..2] + buf[2..4] + buf[4..12] + buf[12..16] + buf[16..16 + |f.body|];
  }

  lemma {:induction false} LeOfFromLe(s: bytes)
    ensures FromLe(s) < Pow2(8 * |s|) && Le(FromLe(s), |s|) == s
  {
    if s != [] {
      LeOfFromLe(s[1..]);
      assert Pow2(8 * |s|) == 256 * Pow2(8 * (|s| - 1)) by {
        Pow2Add(8, 8 * (|s| - 1));
        assert Pow2(8) == 256;
      }
      assert s == [s[0]] + s[1..];
      assert FromLe(s) % 256 == s[0] && FromLe(s) / 256 == FromLe(s[1..]);
    }
  }
}
