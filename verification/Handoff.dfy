/** The eight bytes of metadata that carry a packet from a kernel program to userland. */
module Handoff {
  import opened Basics

  type Byte = b: nat | b < 256

  datatype Endian = Little | Big

  const WORD := 4
  const META_LEN := 8
  const U32 := 0x1_0000_0000

  function LittleBytes(n: nat, k: nat): (r: seq<Byte>)
    ensures |r| == k
  {
    if k == 0 then [] else [n % 256] + LittleBytes(n / 256, k - 1)
  }

  function LittleValue(bs: seq<Byte>): nat {
    if bs == [] then 0 else bs[0] + 256 * LittleValue(bs[1..])
  }

  function Power256(k: nat): nat { if k == 0 then 1 else 256 * Power256(k - 1) }

  lemma {:induction false} LittleRoundTrip(n: nat, k: nat)
    requires n < Power256(k)
    ensures LittleValue(LittleBytes(n, k)) == n
  {
    if k > 0 {
      LittleRoundTrip(n / 256, k - 1);
      assert LittleBytes(n, k)[1..] == LittleBytes(n / 256, k - 1);
    }
  }

  /** `to_ne_bytes` of a 32-bit number on a host of the given byte order. */
  function ToBytes(e: Endian, n: nat): (r: seq<Byte>)
    ensures |r| == WORD
  {
    match e case Little => LittleBytes(n, WORD) case Big => Reverse(LittleBytes(n, WORD))
  }

  function FromBytes(e: Endian, bs: seq<Byte>): nat {
    match e case Little => LittleValue(bs) case Big => LittleValue(Reverse(bs))
  }

  lemma WordRoundTrip(e: Endian, n: nat)
    requires n < U32
    ensures FromBytes(e, ToBytes(e, n)) == n
    ensures ToBytes(e, n)[if e.Little? then 0 else 3] == n % 256
  {
    assert Power256(4) == U32;
    LittleRoundTrip(n, 4);
    var bs := LittleBytes(n, 4);
    assert Reverse(Reverse(bs)) == bs;
  }

  function WriteMeta(e: Endian, progId: nat, act: nat): seq<Byte> {
    ToBytes(e, progId) + ToBytes(e, act)
  }

  /** Userland accepts exactly eight bytes of headroom; anything else is malformed. */
  function ReadMeta(e: Endian, meta: seq<Byte>): Option<(nat, nat)> {
    if |meta| == META_LEN then Some((FromBytes(e, meta[..WORD]), FromBytes(e, meta[WORD..]))) else None
  }

  /** What the kernel program writes is what userland reads, on either byte order. */
  lemma MetaRoundTrip(e: Endian, progId: nat, act: nat)
    requires progId < U32 && act < U32
    ensures var meta := WriteMeta(e, progId, act);
      && |meta| == 8 && FromBytes(e, meta[..4]) == progId && FromBytes(e, meta[4..]) == act
      && ReadMeta(e, meta) == Some((progId, act))
  {
    WordRoundTrip(e, progId);
    WordRoundTrip(e, act);
    var meta := WriteMeta(e, progId, act);
    assert meta[..WORD] == ToBytes(e, progId) && meta[WORD..] == ToBytes(e, act);
  }
}
