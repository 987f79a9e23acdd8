/** CRC32C (Castagnoli, section 12.1 of RFC 3720), bit by bit, and what the transfer
    relies on: chunks may be folded in one after another, and damage to a byte shows. */
module Crc {
  import opened Blocks

  const POLY: bv32 := 0x82F6_3B78  // reflected
  const ONES: bv32 := 0xFFFF_FFFF

  function Shift(c: bv32): bv32 {
    if c & 1 == 1 then (c >> 1) ^ POLY else c >> 1
  }

  function Shift8(c: bv32): bv32 {
    Shift(Shift(Shift(Shift(Shift(Shift(Shift(Shift(c))))))))
  }

  predicate Odd(n: nat) { n % 2 == 1 }

  function Half(n: nat): nat { n / 2 }

  /** The eight bits of a byte. */
  function Octet(b: byte): bv8 {
    var b1 := Half(b);
    var b2 := Half(b1);
    var b3 := Half(b2);
    var b4 := Half(b3);
    var b5 := Half(b4);
    var b6 := Half(b5);
    var b7 := Half(b6);
    FromBits(Odd(b), Odd(b1), Odd(b2), Odd(b3), Odd(b4), Odd(b5), Odd(b6), Odd(b7))
  }

  function FromBits(b0: bool, b1: bool, b2: bool, b3: bool, b4: bool, b5: bool, b6: bool, b7: bool): bv8 {
    (if b0 then 1 else 0) | (if b1 then 2 else 0) | (if b2 then 4 else 0) | (if b3 then 8 else 0)
    | (if b4 then 16 else 0) | (if b5 then 32 else 0) | (if b6 then 64 else 0) | (if b7 then 128 else 0)
  }

  function Mix(c: bv32, o: bv8): bv32 { c ^ (o as bv32) }

  function Feed(c: bv32, b: byte): bv32 {
    Shift8(Mix(c, Octet(b)))
  }

  function FeedAll(c: bv32, s: seq<byte>): bv32
    decreases |s|
  {
    if s == [] then c else FeedAll(Feed(c, s[0]), s[1..])
  }

  function Flip(c: bv32): bv32 { c ^ ONES }

  /** `crc32c_append` */
  function Append(crc: bv32, s: seq<byte>): bv32 {
    Flip(FeedAll(Flip(crc), s))
  }

  function Crc32c(s: seq<byte>): bv32 {
    Append(0, s)
  }

  lemma FlipTwice(c: bv32)
    ensures Flip(Flip(c)) == c
  {
  }

  lemma {:induction false} FeedJoin(c: bv32, a: seq<byte>, b: seq<byte>)
    ensures FeedAll(c, a + b) == FeedAll(FeedAll(c, a), b)
    decreases |a|
  {
    hide Feed;
    if a == [] {
      assert a + b == b;
    } else {
      assert (a + b)[1..] == a[1..] + b;
      FeedJoin(Feed(c, a[0]), a[1..], b);
    }
  }

  /** Folding in a file in any two pieces is folding it in whole. */
  lemma AppendJoin(crc: bv32, a: seq<byte>, b: seq<byte>)
    ensures Append(Append(crc, a), b) == Append(crc, a + b)
  {
    hide Flip, FeedAll;
    FlipTwice(FeedAll(Flip(crc), a));
    FeedJoin(Flip(crc), a, b);
  }

  const CHUNK: nat := 1048576

  /** `source_crc32c`, and the sinks' `read_crc32c`: a megabyte at a time gives the
      checksum of the whole. */
  method StreamCrc(src: seq<byte>) returns (crc: bv32)
    ensures crc == Crc32c(src)
  {
    hide Append;
    crc := 0;
    var off := 0;
    EmptyAppend(0);
    assert src[..0] == [];
    while off < |src|
      invariant 0 <= off <= |src|
      invariant crc == Crc32c(src[..off])
    {
      var n := if |src| - off < CHUNK then |src| - off else CHUNK;
      AppendJoin(0, src[..off], src[off..off + n]);
      assert src[..off] + src[off..off + n] == src[..off + n];
      crc := Append(crc, src[off..off + n]);
      off := off + n;
    }
    assert src[..|src|] == src;
  }

  lemma EmptyAppend(crc: bv32)
    ensures Append(crc, []) == crc
  {
    FlipTwice(crc);
  }

  // ---- damage to one byte ----

  lemma ShiftApart(x: bv32, y: bv32)
    ensures Shift(x) == Shift(y) ==> x == y
  {
  }

  lemma Shift8Apart(x: bv32, y: bv32)
    ensures Shift8(x) == Shift8(y) ==> x == y
  {
    hide Shift;
    if Shift8(x) == Shift8(y) {
      var x1, y1 := Shift(x), Shift(y);
      var x2, y2 := Shift(x1), Shift(y1);
      var x3, y3 := Shift(x2), Shift(y2);
      var x4, y4 := Shift(x3), Shift(y3);
      var x5, y5 := Shift(x4), Shift(y4);
      var x6, y6 := Shift(x5), Shift(y5);
      var x7, y7 := Shift(x6), Shift(y6);
      ShiftApart(x7, y7);
      ShiftApart(x6, y6);
      ShiftApart(x5, y5);
      ShiftApart(x4, y4);
      ShiftApart(x3, y3);
      ShiftApart(x2, y2);
      ShiftApart(x1, y1);
      ShiftApart(x, y);
    }
  }

  lemma BitsApart(b0: bool, b1: bool, b2: bool, b3: bool, b4: bool, b5: bool, b6: bool, b7: bool,
                  c0: bool, c1: bool, c2: bool, c3: bool, c4: bool, c5: bool, c6: bool, c7: bool)
    requires FromBits(b0, b1, b2, b3, b4, b5, b6, b7) == FromBits(c0, c1, c2, c3, c4, c5, c6, c7)
    ensures b0 == c0 && b1 == c1 && b2 == c2 && b3 == c3 && b4 == c4 && b5 == c5 && b6 == c6 && b7 == c7
  {
  }

  lemma HalvesApart(a: nat, b: nat)
    requires Odd(a) == Odd(b) && Half(a) == Half(b)
    ensures a == b
  {
  }

  lemma SmallHalf(a: nat, k: nat)
    requires a < 2 * k
    ensures Half(a) < k
  {
  }

  lemma OctetApart(a: byte, b: byte)
    ensures Octet(a) == Octet(b) ==> a == b
  {
    hide Odd, Half, FromBits;
    if Octet(a) == Octet(b) {
      var a1, b1 := Half(a), Half(b);
      var a2, b2 := Half(a1), Half(b1);
      var a3, b3 := Half(a2), Half(b2);
      var a4, b4 := Half(a3), Half(b3);
      var a5, b5 := Half(a4), Half(b4);
      var a6, b6 := Half(a5), Half(b5);
      var a7, b7 := Half(a6), Half(b6);
      BitsApart(Odd(a), Odd(a1), Odd(a2), Odd(a3), Odd(a4), Odd(a5), Odd(a6), Odd(a7),
                Odd(b), Odd(b1), Odd(b2), Odd(b3), Odd(b4), Odd(b5), Odd(b6), Odd(b7));
      SevenHalves(a);
      SevenHalves(b);
      HalvesApart(a7, b7);
      HalvesApart(a6, b6);
      HalvesApart(a5, b5);
      HalvesApart(a4, b4);
      HalvesApart(a3, b3);
      HalvesApart(a2, b2);
      HalvesApart(a1, b1);
      HalvesApart(a, b);
    }
  }

  lemma SevenHalves(a: byte)
    ensures Half(Half(Half(Half(Half(Half(Half(Half(a)))))))) == 0
  {
    hide Half;
    var a1 := Half(a);
    SmallHalf(a, 128);
    var a2 := Half(a1);
    SmallHalf(a1, 64);
    var a3 := Half(a2);
    SmallHalf(a2, 32);
    var a4 := Half(a3);
    SmallHalf(a3, 16);
    var a5 := Half(a4);
    SmallHalf(a4, 8);
    var a6 := Half(a5);
    SmallHalf(a5, 4);
    var a7 := Half(a6);
    SmallHalf(a6, 2);
    SmallHalf(a7, 1);
  }

  lemma MixApart(c: bv32, d: bv32, o: bv8, p: bv8)
    ensures Mix(c, o) == Mix(d, o) ==> c == d
    ensures Mix(c, o) == Mix(c, p) ==> o == p
  {
  }

  lemma FeedApart(c: bv32, d: bv32, a: byte, b: byte)
    ensures Feed(c, a) == Feed(d, a) ==> c == d
    ensures Feed(c, a) == Feed(c, b) ==> a == b
  {
    hide Shift8, Mix, Octet;
    Shift8Apart(Mix(c, Octet(a)), Mix(d, Octet(a)));
    Shift8Apart(Mix(c, Octet(a)), Mix(c, Octet(b)));
    MixApart(c, d, Octet(a), Octet(b));
    OctetApart(a, b);
  }

  lemma {:induction false} FeedAllApart(c: bv32, d: bv32, s: seq<byte>)
    ensures FeedAll(c, s) == FeedAll(d, s) ==> c == d
    decreases |s|
  {
    hide Feed;
    if s != [] {
      FeedAllApart(Feed(c, s[0]), Feed(d, s[0]), s[1..]);
      FeedApart(c, d, s[0], s[0]);
    }
  }

  /** Any change confined to one byte, of any message at any place, changes the checksum. */
  lemma OneByteShows(s: seq<byte>, i: nat, b: byte)
    requires i < |s| && b != s[i]
    ensures Crc32c(s[i := b]) != Crc32c(s)
  {
    hide Feed, FeedAll;
    var head, tail := s[..i], s[i + 1..];
    var c := FeedAll(Flip(0), head);
    assert s == head + ([s[i]] + tail) && s[i := b] == head + ([b] + tail);
    FeedJoin(Flip(0), head, [s[i]] + tail);
    FeedJoin(Flip(0), head, [b] + tail);
    FeedFirst(c, s[i], tail);
    FeedFirst(c, b, tail);
    FeedApart(c, c, s[i], b);
    FeedAllApart(Feed(c, s[i]), Feed(c, b), tail);
    FlipApart(FeedAll(Flip(0), s), FeedAll(Flip(0), s[i := b]));
  }

  lemma FeedFirst(c: bv32, b: byte, tail: seq<byte>)
    ensures FeedAll(c, [b] + tail) == FeedAll(Feed(c, b), tail)
  {
    assert ([b] + tail)[1..] == tail;
  }

  lemma FlipApart(c: bv32, d: bv32)
    ensures Flip(c) == Flip(d) ==> c == d
  {
  }
}
