/** JDWP packets as the adb connection plugin reads and writes them. */
module AdbPackets {
  import opened Bytes

  /** "JDWP-Handshake", in ASCII. */
  const HANDSHAKE: seq<Byte> := [0x4a, 0x44, 0x57, 0x50, 0x2d, 0x48, 0x61, 0x6e, 0x64, 0x73, 0x68, 0x61, 0x6b, 0x65]

  const HANDSHAKE_LEN: nat := 14
  const HEADER_LEN: nat := 11
  const DDM_COMMAND_SET: Byte := 199
  const DDM_COMMAND: Byte := 1

  lemma HandshakeLength()
    ensures |HANDSHAKE| == HANDSHAKE_LEN
  {
  }

  /** Four bytes in network order. */
  function Be32(v: UInt32): (s: seq<Byte>)
    ensures |s| == 4
  {
    [v / 0x100_0000, v / 0x1_0000 % 0x100, v / 0x100 % 0x100, v % 0x100]
  }

  function ReadBe32(s: seq<Byte>, p: nat): UInt32
    requires p + 4 <= |s|
  {
    var a: int, b: int, c: int, d: int := s[p], s[p + 1], s[p + 2], s[p + 3];
    a * 0x100_0000 + b * 0x1_0000 + c * 0x100 + d
  }

  lemma Be32RoundTrip(v: UInt32, before: seq<Byte>, after: seq<Byte>)
    ensures ReadBe32(before + Be32(v) + after, |before|) == v
  {
    var s := before + Be32(v) + after;
    FourBytes(v);
    assert s[|before|] == v / 0x100_0000 && s[|before| + 1] == v / 0x1_0000 % 0x100;
    assert s[|before| + 2] == v / 0x100 % 0x100 && s[|before| + 3] == v % 0x100;
  }

  lemma FourBytes(v: UInt32)
    ensures v / 0x100_0000 * 0x100_0000 + v / 0x1_0000 % 0x100 * 0x1_0000 + v / 0x100 % 0x100 * 0x100 + v % 0x100 == v
  {
    var a: int := v / 0x100;
    var b: int := a / 0x100;
    assert v / 0x1_0000 == b && v / 0x100_0000 == b / 0x100;
  }

  /** The length a packet declares, the header included. */
  function DeclaredLength(s: seq<Byte>): UInt32
    requires |s| >= HEADER_LEN
  {
    ReadBe32(s, 0)
  }

  /** Exactly one packet. */
  predicate IsPacket(s: seq<Byte>) {
    |s| >= HEADER_LEN && DeclaredLength(s) == |s|
  }

  /** A whole number of packets of their declared lengths. */
  predicate WholePackets(s: seq<Byte>)
    decreases |s|
  {
    s == [] ||
    (|s| >= HEADER_LEN && HEADER_LEN <= DeclaredLength(s) <= |s| && WholePackets(s[DeclaredLength(s)..]))
  }

  lemma {:induction false} PacketAppended(s: seq<Byte>, p: seq<Byte>)
    requires WholePackets(s) && IsPacket(p)
    ensures WholePackets(s + p)
    decreases |s|
  {
    hide ReadBe32;
    if s == [] {
      assert s + p == p && p[DeclaredLength(p)..] == [];
    } else {
      var n := DeclaredLength(s);
      SameLength(s, p);
      assert (s + p)[n..] == s[n..] + p;
      PacketAppended(s[n..], p);
    }
  }

  lemma SameLength(s: seq<Byte>, t: seq<Byte>)
    requires |s| >= HEADER_LEN
    ensures DeclaredLength(s + t) == DeclaredLength(s)
  {
  }

  /** What a whole number of packets leaves is again at a packet boundary. */
  predicate AtBoundary(consumed: seq<Byte>) {
    |consumed| >= HANDSHAKE_LEN && consumed[..HANDSHAKE_LEN] == HANDSHAKE && WholePackets(consumed[HANDSHAKE_LEN..])
  }

  lemma BoundaryStart()
    ensures AtBoundary(HANDSHAKE)
  {
    HandshakeLength();
    assert HANDSHAKE[..HANDSHAKE_LEN] == HANDSHAKE && HANDSHAKE[HANDSHAKE_LEN..] == [];
  }

  lemma BoundaryKept(consumed: seq<Byte>, p: seq<Byte>)
    requires AtBoundary(consumed) && IsPacket(p)
    ensures AtBoundary(consumed + p)
  {
    assert (consumed + p)[..HANDSHAKE_LEN] == consumed[..HANDSHAKE_LEN];
    assert (consumed + p)[HANDSHAKE_LEN..] == consumed[HANDSHAKE_LEN..] + p;
    PacketAppended(consumed[HANDSHAKE_LEN..], p);
  }

  // ------------------------------------------------------------------ DDM packets

  datatype PacketType = Reply | Cmd

  const DDM_HEADER_LEN: nat := 19

  /** `SendDdmPacket`: length, id, flags, command set and command or error code, type, length, data. */
  function DdmPacket(id: UInt32, kind: PacketType, type_: UInt32, data: seq<Byte>): (s: seq<Byte>)
    requires DDM_HEADER_LEN + |data| < 0x1_0000_0000
    ensures |s| == DDM_HEADER_LEN + |data|
  {
    Be32(DDM_HEADER_LEN + |data|) + Be32(id)
    + (if kind == Cmd then [0, DDM_COMMAND_SET, DDM_COMMAND] else [0x80, 0, 0])
    + Be32(type_) + Be32(|data|) + data
  }

  /** A chunk found in a packet by `HandleDataWithoutAgent`; `None` when it is too short for what it declares. */
  datatype Chunk = Chunk(type_: UInt32, data: seq<Byte>)

  function ReadChunk(packet: seq<Byte>): Option<Chunk>
    requires |packet| >= HEADER_LEN
  {
    var size := |packet| - HEADER_LEN;
    if size < 8 then None
    else
      var type_, len := ReadBe32(packet, 11), ReadBe32(packet, 15);
      if len > size - 8 then None else Some(Chunk(type_, packet[DDM_HEADER_LEN..DDM_HEADER_LEN + len]))
  }

  /** A packet the plugin sends is one whole packet, and its chunk, id and command are read back from it. */
  lemma DdmPacketRoundTrip(id: UInt32, kind: PacketType, type_: UInt32, data: seq<Byte>)
    requires DDM_HEADER_LEN + |data| < 0x1_0000_0000
    ensures var p := DdmPacket(id, kind, type_, data);
            && IsPacket(p)
            && ReadBe32(p, 4) == id
            && (kind == Cmd ==> p[8] == 0 && p[9] == 199 && p[10] == 1)
            && (kind == Reply ==> p[8] == 0x80 && p[9] == 0 && p[10] == 0)
            && ReadChunk(p) == Some(Chunk(type_, data))
  {
    hide Be32, ReadBe32;
    var p := DdmPacket(id, kind, type_, data);
    var flags: seq<Byte> := if kind == Cmd then [0, DDM_COMMAND_SET, DDM_COMMAND] else [0x80, 0, 0];
    var len, size := Be32(DDM_HEADER_LEN + |data|), Be32(|data|);
    assert p == [] + len + (Be32(id) + flags + Be32(type_) + size + data);
    Be32RoundTrip(DDM_HEADER_LEN + |data|, [], Be32(id) + flags + Be32(type_) + size + data);
    assert p == len + Be32(id) + (flags + Be32(type_) + size + data);
    Be32RoundTrip(id, len, flags + Be32(type_) + size + data);
    assert p == (len + Be32(id) + flags) + Be32(type_) + (size + data);
    Be32RoundTrip(type_, len + Be32(id) + flags, size + data);
    assert p == (len + Be32(id) + flags + Be32(type_)) + size + data;
    Be32RoundTrip(|data|, len + Be32(id) + flags + Be32(type_), data);
    assert p[8..11] == flags && p[8] == p[8..11][0] && p[9] == p[8..11][1] && p[10] == p[8..11][2];
    assert p[DDM_HEADER_LEN..DDM_HEADER_LEN + |data|] == data;
  }
}
