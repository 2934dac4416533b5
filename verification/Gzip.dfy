/** A gzip member around an abstract DEFLATE (pkg/kubelet/src/container_logs.rs, `gzip`; the
    member format, section 2.3 of RFC 1952). */
module Gzip {
  import opened Common
  import Crc32

  type Bytes = seq<bv8>

  /** DEFLATE and its inverse. */
  datatype Codec = Codec(deflate: Bytes -> Bytes, inflate: Bytes -> Bytes)

  ghost predicate Lossless(codec: Codec) {
    forall d :: codec.inflate(codec.deflate(d)) == d
  }

  const HEADER: Bytes := [0x1f, 0x8b, 8, 0, 0, 0, 0, 0, 0, 0xff]

  function LowByte(c: bv32): bv8 {
    (c & 0xFF) as bv8
  }

  /** Four bytes, lowest first. */
  function LittleEndian(c: bv32): (b: Bytes)
    ensures |b| == 4
  {
    [LowByte(c), LowByte(c >> 8), LowByte(c >> 16), LowByte(c >> 24)]
  }

  function Length32(data: Bytes): bv32 {
    (|data| % 0x1_0000_0000) as bv32
  }

  function Trailer(data: Bytes): (t: Bytes)
    ensures |t| == 8
  {
    LittleEndian(Crc32.Crc(data)) + LittleEndian(Length32(data))
  }

  function Gzip(codec: Codec, data: Bytes): Bytes {
    HEADER + codec.deflate(data) + Trailer(data)
  }

  /** What a reader that checks the trailer gets out of a member. */
  function Gunzip(codec: Codec, member: Bytes): Option<Bytes> {
    if |member| < |HEADER| + 8 || member[..|HEADER|] != HEADER then None
    else
      var data := codec.inflate(member[|HEADER|..|member| - 8]);
      if member[|member| - 8..] == Trailer(data) then Some(data) else None
  }

  method MakeMember(codec: Codec, data: Bytes) returns (out: Bytes)
    ensures out == Gzip(codec, data)
  {
    out := HEADER;
    out := out + codec.deflate(data);
    var crc := Crc32.Compute(data);
    out := out + LittleEndian(crc);
    out := out + LittleEndian(Length32(data));
    assert out == HEADER + codec.deflate(data) + Trailer(data);
  }

  lemma GunzipUndoesGzip(codec: Codec, data: Bytes)
    requires Lossless(codec)
    ensures Gunzip(codec, Gzip(codec, data)) == Some(data)
  {
    var member, body := Gzip(codec, data), codec.deflate(data);
    assert member[..|HEADER|] == HEADER;
    assert member[|HEADER|..|member| - 8] == body;
    assert member[|member| - 8..] == Trailer(data);
  }

  /** The word whose bytes these are, lowest first. */
  function Assemble(b: Bytes): bv32
    requires |b| == 4
  {
    (b[0] as bv32) | ((b[1] as bv32) << 8) | ((b[2] as bv32) << 16) | ((b[3] as bv32) << 24)
  }

  lemma BytesAssemble(c: bv32)
    ensures (LowByte(c) as bv32) | ((LowByte(c >> 8) as bv32) << 8) | ((LowByte(c >> 16) as bv32) << 16)
            | ((LowByte(c >> 24) as bv32) << 24) == c
  {
  }

  /** The trailer's words read back lowest byte first, as section 2.3.1 of RFC 1952 has them. */
  lemma TrailerReads(data: Bytes)
    ensures Assemble(Trailer(data)[..4]) == Crc32.Crc(data)
    ensures Assemble(Trailer(data)[4..]) == (|data| % 0x1_0000_0000) as bv32
  {
    var t := Trailer(data);
    BytesAssemble(Crc32.Crc(data));
    BytesAssemble(Length32(data));
    assert t[..4] == LittleEndian(Crc32.Crc(data)) && t[4..] == LittleEndian(Length32(data));
  }

  /** A member as section 2.3 of RFC 1952 has it: the two magic bytes, DEFLATE, no flags and so no
      optional fields, no time, no extra flags, an unknown system; the data; and eight more bytes. */
  lemma MemberReads(codec: Codec, data: Bytes)
    ensures var m, body := Gzip(codec, data), codec.deflate(data);
            && |m| == 10 + |body| + 8
            && m[0] == 31 && m[1] == 139 && m[2] == 8 && m[3] == 0
            && m[4] == 0 && m[5] == 0 && m[6] == 0 && m[7] == 0 && m[8] == 0 && m[9] == 255
            && m[10..10 + |body|] == body
            && m[10 + |body|..] == Trailer(data)
  {
    Parts(HEADER, codec.deflate(data), Trailer(data));
  }

  lemma Parts(a: Bytes, b: Bytes, c: Bytes)
    ensures var m := a + b + c;
            m[..|a|] == a && m[|a|..|a| + |b|] == b && m[|a| + |b|..] == c
  {
  }

  lemma LowBytesDetermine(a: bv32, b: bv32)
    requires LowByte(a) == LowByte(b) && LowByte(a >> 8) == LowByte(b >> 8)
    requires LowByte(a >> 16) == LowByte(b >> 16) && LowByte(a >> 24) == LowByte(b >> 24)
    ensures a == b
  {
  }

  lemma LittleEndianDetermines(a: bv32, b: bv32)
    requires LittleEndian(a) == LittleEndian(b)
    ensures a == b
  {
    assert LittleEndian(a)[0] == LittleEndian(b)[0] && LittleEndian(a)[1] == LittleEndian(b)[1];
    assert LittleEndian(a)[2] == LittleEndian(b)[2] && LittleEndian(a)[3] == LittleEndian(b)[3];
    LowBytesDetermine(a, b);
  }

  lemma TrailerDeterminesCrc(a: Bytes, b: Bytes)
    requires Trailer(a) == Trailer(b)
    ensures Crc32.Crc(a) == Crc32.Crc(b)
  {
    assert LittleEndian(Crc32.Crc(a)) == Trailer(a)[..4];
    assert LittleEndian(Crc32.Crc(b)) == Trailer(b)[..4];
    LittleEndianDetermines(Crc32.Crc(a), Crc32.Crc(b));
  }

  /** A member whose data comes out changed only within four consecutive bytes is refused. */
  lemma BurstIsRefused(codec: Codec, pre: Bytes, v: Bytes, w: Bytes, post: Bytes, damaged: Bytes)
    requires |v| == |w| <= 4 && v != w
    requires codec.inflate(damaged) == pre + w + post
    ensures Gunzip(codec, HEADER + damaged + Trailer(pre + v + post)) == None
  {
    var sent, got := pre + v + post, pre + w + post;
    var member := HEADER + damaged + Trailer(sent);
    assert member[|HEADER|..|member| - 8] == damaged;
    assert member[|member| - 8..] == Trailer(sent);
    Crc32.BurstChangesCrc(pre, v, w, post);
    if Trailer(sent) == Trailer(got) {
      TrailerDeterminesCrc(sent, got);
    }
  }
}
