/** The datagram formats, byte for byte. All integers are little-endian. */
module Wire {
  import opened Blocks
  import opened Prelude

  type u8 = byte
  type u16 = x: int | 0 <= x < 0x1_0000
  type u32 = x: int | 0 <= x < 0x1_0000_0000
  type u64 = x: int | 0 <= x < 0x1_0000_0000_0000_0000
  type i64 = x: int | -0x8000_0000_0000_0000 <= x < 0x8000_0000_0000_0000

  const DATA_HEADER_SIZE: nat := 36
  const FEEDBACK_HEADER_SIZE: nat := 36
  const NACK_ENTRY_SIZE: nat := 16
  const RECV_BUFFER: nat := 2048

  const PDU_DATA: u8 := 1
  const PDU_FEEDBACK: u8 := 2
  const PDU_FIN: u8 := 4
  const PDU_START: u8 := 5

  const FLAG_RETRANSMIT: u8 := 1
  const FLAG_TICK_N: u8 := 2
  const FLAG_HAS_TICK: u8 := 4
  const FLAG_LAST_BLOCK: u8 := 8

  // ---- integers ----

  /** `i64 as u64` and back: the same 64 bits. */
  function AsU64(x: i64): u64 { if x < 0 then x + 0x1_0000_0000_0000_0000 else x }
  function AsI64(x: u64): i64 { if x >= 0x8000_0000_0000_0000 then x - 0x1_0000_0000_0000_0000 else x }

  function Pow256(n: nat): (p: nat)
    ensures p > 0
  {
    if n == 0 then 1 else 256 * Pow256(n - 1)
  }

  lemma Pow256Values()
    ensures Pow256(2) == 0x1_0000 && Pow256(4) == 0x1_0000_0000 && Pow256(8) == 0x1_0000_0000_0000_0000
  {
    assert Pow256(1) == 256 && Pow256(3) == 256 * Pow256(2);
    assert Pow256(5) == 256 * Pow256(4) && Pow256(6) == 256 * Pow256(5) && Pow256(7) == 256 * Pow256(6);
  }

  /** The low `n` bytes of `v`, least significant first. */
  function Le(v: nat, n: nat): (s: seq<byte>)
    ensures |s| == n
  {
    if n == 0 then [] else [v % 256] + Le(v / 256, n - 1)
  }

  function UnLe(s: seq<byte>): nat {
    if s == [] then 0 else s[0] + 256 * UnLe(s[1..])
  }

  lemma {:induction false} LeRoundTrip(v: nat, n: nat)
    requires v < Pow256(n)
    ensures UnLe(Le(v, n)) == v
  {
    if n > 0 {
      LeRoundTrip(v / 256, n - 1);
      assert Le(v, n)[1..] == Le(v / 256, n - 1);
    }
  }

  lemma {:induction false} UnLeRoundTrip(s: seq<byte>)
    ensures UnLe(s) < Pow256(|s|) && Le(UnLe(s), |s|) == s
  {
    if s != [] {
      UnLeRoundTrip(s[1..]);
      DigitsApart(s[0], UnLe(s[1..]));
      assert [s[0]] + s[1..] == s;
    }
  }

  lemma DigitsApart(low: byte, high: nat)
    ensures (low + 256 * high) % 256 == low && (low + 256 * high) / 256 == high
  {
  }

  /** The little-endian integer of `n` bytes at `off`. */
  function Get(buf: seq<byte>, off: nat, n: nat): nat
    requires off + n <= |buf|
  {
    UnLe(buf[off..off + n])
  }

  function Get16(buf: seq<byte>, off: nat): u16
    requires off + 2 <= |buf|
  {
    UnLeRoundTrip(buf[off..off + 2]);
    Pow256Values();
    Get(buf, off, 2)
  }

  function Get32(buf: seq<byte>, off: nat): u32
    requires off + 4 <= |buf|
  {
    UnLeRoundTrip(buf[off..off + 4]);
    Pow256Values();
    Get(buf, off, 4)
  }

  function Get64(buf: seq<byte>, off: nat): u64
    requires off + 8 <= |buf|
  {
    UnLeRoundTrip(buf[off..off + 8]);
    Pow256Values();
    Get(buf, off, 8)
  }

  /** `buf` holds `v` at `off`. */
  predicate Holds(buf: seq<byte>, off: nat, v: nat, n: nat) {
    off + n <= |buf| && buf[off..off + n] == Le(v, n)
  }

  lemma HeldValue(buf: seq<byte>, off: nat, v: nat, n: nat)
    requires Holds(buf, off, v, n) && v < Pow256(n)
    ensures Get(buf, off, n) == v
  {
    LeRoundTrip(v, n);
  }

  lemma ValueHeld(buf: seq<byte>, off: nat, n: nat)
    requires off + n <= |buf|
    ensures Holds(buf, off, Get(buf, off, n), n)
  {
    UnLeRoundTrip(buf[off..off + n]);
  }

  lemma HeldLonger(buf: seq<byte>, rest: seq<byte>, off: nat, v: nat, n: nat)
    requires Holds(buf, off, v, n)
    ensures Holds(buf + rest, off, v, n)
  {
    assert (buf + rest)[off..off + n] == buf[off..off + n];
  }

  /** Writes `v` at `off`, leaving the rest of the buffer alone. */
  method PutLe(buf: array<byte>, off: nat, v: nat, n: nat)
    requires off + n <= buf.Length
    modifies buf
    ensures buf[off..off + n] == Le(v, n)
    ensures buf[..off] == old(buf[..off]) && buf[off + n..] == old(buf[off + n..])
  {
    var x := v;
    for i := 0 to n
      invariant buf[off..off + i] + Le(x, n - i) == Le(v, n)
      invariant buf[..off] == old(buf[..off]) && buf[off + n..] == old(buf[off + n..])
    {
      ghost var done := buf[off..off + i];
      assert Le(x, n - i) == [x % 256] + Le(x / 256, n - i - 1);
      buf[off + i] := x % 256;
      assert buf[off..off + i + 1] == done + [x % 256];
      x := x / 256;
    }
    assert buf[off..off + n] + [] == buf[off..off + n];
  }

  // ---- DATA ----

  datatype DataHeader = DataHeader(
    flags: u8, payloadLen: u16, session: u32, blockSeq: u64, echoTick: u64, rexIndex: i64, payloadCrc: u32)

  function DataBytes(h: DataHeader): (s: seq<byte>)
    ensures |s| == DATA_HEADER_SIZE
  {
    [PDU_DATA, h.flags] + Le(h.payloadLen, 2) + Le(h.session, 4) + Le(h.blockSeq, 8) + Le(h.echoTick, 8)
    + Le(AsU64(h.rexIndex), 8) + Le(h.payloadCrc, 4)
  }

  /** Where each field of a DATA header lies. */
  predicate IsData(buf: seq<byte>, h: DataHeader) {
    && |buf| >= DATA_HEADER_SIZE && buf[0] == PDU_DATA && buf[1] == h.flags
    && Holds(buf, 2, h.payloadLen, 2) && Holds(buf, 4, h.session, 4)
    && Holds(buf, 8, h.blockSeq, 8) && Holds(buf, 16, h.echoTick, 8)
    && Holds(buf, 24, AsU64(h.rexIndex), 8) && Holds(buf, 32, h.payloadCrc, 4)
  }

  /** A field appended is held where it was put. */
  lemma HeldAtEnd(front: seq<byte>, v: nat, n: nat)
    ensures Holds(front + Le(v, n), |front|, v, n)
  {
  }

  lemma DataBytesAre(h: DataHeader)
    ensures IsData(DataBytes(h), h)
  {
    hide Le, AsU64, Holds;
    var p0 := [PDU_DATA, h.flags];
    var p1 := p0 + Le(h.payloadLen, 2);
    var p2 := p1 + Le(h.session, 4);
    var p3 := p2 + Le(h.blockSeq, 8);
    var p4 := p3 + Le(h.echoTick, 8);
    var p5 := p4 + Le(AsU64(h.rexIndex), 8);
    HeldAtEnd(p0, h.payloadLen, 2);
    HeldAtEnd(p1, h.session, 4);
    HeldAtEnd(p2, h.blockSeq, 8);
    HeldAtEnd(p3, h.echoTick, 8);
    HeldAtEnd(p4, AsU64(h.rexIndex), 8);
    HeldAtEnd(p5, h.payloadCrc, 4);
    HeldThrough(p1, p2, p3, p4, p5, DataBytes(h), 2, h.payloadLen, 2);
    HeldThrough(p2, p2, p3, p4, p5, DataBytes(h), 4, h.session, 4);
    HeldThrough(p3, p3, p3, p4, p5, DataBytes(h), 8, h.blockSeq, 8);
    HeldThrough(p4, p4, p4, p4, p5, DataBytes(h), 16, h.echoTick, 8);
    HeldThrough(p5, p5, p5, p5, p5, DataBytes(h), 24, AsU64(h.rexIndex), 8);
  }

  /** What a buffer holds, longer ones do. */
  lemma HeldThrough(p1: seq<byte>, p2: seq<byte>, p3: seq<byte>, p4: seq<byte>, p5: seq<byte>, s: seq<byte>,
                    off: nat, v: nat, n: nat)
    requires p1 <= p2 <= p3 <= p4 <= p5 <= s && Holds(p1, off, v, n)
    ensures Holds(s, off, v, n)
  {
    hide Le;
    assert p1 <= s;
    assert s == p1 + s[|p1|..];
    HeldLonger(p1, s[|p1|..], off, v, n);
  }

  function DecodeData(buf: seq<byte>): Option<DataHeader> {
    if |buf| < DATA_HEADER_SIZE || buf[0] != PDU_DATA then None
    else Some(DataHeader(buf[1], Get16(buf, 2), Get32(buf, 4), Get64(buf, 8), Get64(buf, 16),
                         AsI64(Get64(buf, 24)), Get32(buf, 32)))
  }

  lemma DecodesData(buf: seq<byte>, h: DataHeader)
    requires IsData(buf, h)
    ensures DecodeData(buf) == Some(h)
  {
    Pow256Values();
    HeldValue(buf, 2, h.payloadLen, 2);
    HeldValue(buf, 4, h.session, 4);
    HeldValue(buf, 8, h.blockSeq, 8);
    HeldValue(buf, 16, h.echoTick, 8);
    HeldValue(buf, 24, AsU64(h.rexIndex), 8);
    HeldValue(buf, 32, h.payloadCrc, 4);
  }

  /** Every DATA header survives encoding and decoding, whatever payload follows. */
  lemma DataRoundTrip(h: DataHeader, payload: seq<byte>)
    ensures DecodeData(DataBytes(h) + payload) == Some(h)
  {
    hide DecodeData, DataBytes;
    DataBytesAre(h);
    var s := DataBytes(h);
    HeldLonger(s, payload, 2, h.payloadLen, 2);
    HeldLonger(s, payload, 4, h.session, 4);
    HeldLonger(s, payload, 8, h.blockSeq, 8);
    HeldLonger(s, payload, 16, h.echoTick, 8);
    HeldLonger(s, payload, 24, AsU64(h.rexIndex), 8);
    HeldLonger(s, payload, 32, h.payloadCrc, 4);
    DecodesData(s + payload, h);
  }

  /** Nothing in an accepted header is ignored: decoding and encoding gives back the very
      bytes. */
  lemma DataIsCanonical(buf: seq<byte>)
    requires DecodeData(buf).Some?
    ensures IsData(buf, DecodeData(buf).value)
    ensures DataBytes(DecodeData(buf).value) == buf[..DATA_HEADER_SIZE]
  {
    var h := DecodeData(buf).value;
    ValueHeld(buf, 2, 2);
    ValueHeld(buf, 4, 4);
    ValueHeld(buf, 8, 8);
    ValueHeld(buf, 16, 8);
    ValueHeld(buf, 24, 8);
    ValueHeld(buf, 32, 4);
    DataIs(buf, h);
  }

  lemma DataIs(buf: seq<byte>, h: DataHeader)
    requires IsData(buf, h)
    ensures DataBytes(h) == buf[..DATA_HEADER_SIZE]
  {
    var s := buf[..DATA_HEADER_SIZE];
    assert s == s[..2] + s[2..4] + s[4..8] + s[8..16] + s[16..24] + s[24..32] + s[32..36];
    assert s[2..4] == buf[2..4] && s[4..8] == buf[4..8] && s[8..16] == buf[8..16];
    assert s[16..24] == buf[16..24] && s[24..32] == buf[24..32] && s[32..36] == buf[32..36];
    assert s[..2] == [PDU_DATA, h.flags];
  }

  method EncodeDataHeader(buf: array<byte>, h: DataHeader)
    requires buf.Length >= DATA_HEADER_SIZE
    modifies buf
    ensures buf[..DATA_HEADER_SIZE] == DataBytes(h)
    ensures buf[DATA_HEADER_SIZE..] == old(buf[DATA_HEADER_SIZE..])
  {
    ghost var tail := buf[36..];
    buf[0] := PDU_DATA;
    buf[1] := h.flags;
    assert buf[..2] == [PDU_DATA, h.flags] && buf[36..] == tail;
    ghost var a := [PDU_DATA, h.flags];
    PutField(buf, 2, h.payloadLen, 2, a);
    a := a + Le(h.payloadLen, 2);
    PutField(buf, 4, h.session, 4, a);
    a := a + Le(h.session, 4);
    PutField(buf, 8, h.blockSeq, 8, a);
    a := a + Le(h.blockSeq, 8);
    PutField(buf, 16, h.echoTick, 8, a);
    a := a + Le(h.echoTick, 8);
    PutField(buf, 24, AsU64(h.rexIndex), 8, a);
    a := a + Le(AsU64(h.rexIndex), 8);
    PutField(buf, 32, h.payloadCrc, 4, a);
  }

  /** Appends a field to the `done` bytes already at the front of the buffer. */
  method PutField(buf: array<byte>, off: nat, v: nat, n: nat, ghost done: seq<byte>)
    requires off + n <= buf.Length && buf[..off] == done
    modifies buf
    ensures buf[..off + n] == done + Le(v, n)
    ensures buf[off + n..] == old(buf[off + n..])
    ensures off + n <= 36 <= buf.Length ==> buf[36..] == old(buf[36..])
  {
    PutLe(buf, off, v, n);
    assert buf[..off + n] == buf[..off] + buf[off..off + n];
    if off + n <= 36 <= buf.Length {
      assert buf[36..] == buf[off + n..][36 - (off + n)..];
      assert old(buf[36..]) == old(buf[off + n..])[36 - (off + n)..];
    }
  }

  // ---- FEEDBACK ----

  datatype FeedbackHeader = FeedbackHeader(
    tickIsNetwork: bool, nackCount: u16, session: u32, tick: u64, targetRate: u64, hiContig: u64, done: bool)

  datatype Nack = Nack(blockSeq: u64, rexIndex: i64)

  /** `nacks.len() as u16` */
  function Count16(nacks: seq<Nack>): u16 { |nacks| % 0x1_0000 }

  function NackBytes(nacks: seq<Nack>): (s: seq<byte>)
    ensures |s| == NACK_ENTRY_SIZE * |nacks|
  {
    if nacks == [] then []
    else
      var last := nacks[|nacks| - 1];
      NackBytes(nacks[..|nacks| - 1]) + Le(last.blockSeq, 8) + Le(AsU64(last.rexIndex), 8)
  }

  function FeedbackHead(h: FeedbackHeader, count: u16): (s: seq<byte>)
    ensures |s| == FEEDBACK_HEADER_SIZE
  {
    [PDU_FEEDBACK, if h.tickIsNetwork then FLAG_TICK_N else 0] + Le(count, 2) + Le(h.session, 4)
    + Le(h.tick, 8) + Le(h.targetRate, 8) + Le(h.hiContig, 8) + [if h.done then 1 else 0, 0, 0, 0]
  }

  function FeedbackBytes(h: FeedbackHeader, nacks: seq<Nack>): seq<byte> {
    FeedbackHead(h, Count16(nacks)) + NackBytes(nacks)
  }

  function DecodeNacks(buf: seq<byte>, n: nat): (nacks: seq<Nack>)
    requires FEEDBACK_HEADER_SIZE + n * NACK_ENTRY_SIZE <= |buf|
    ensures |nacks| == n
  {
    if n == 0 then []
    else
      var off := FEEDBACK_HEADER_SIZE + (n - 1) * NACK_ENTRY_SIZE;
      DecodeNacks(buf, n - 1) + [Nack(Get64(buf, off), AsI64(Get64(buf, off + 8)))]
  }

  function DecodeFeedback(buf: seq<byte>): Option<(FeedbackHeader, seq<Nack>)> {
    if |buf| < FEEDBACK_HEADER_SIZE || buf[0] != PDU_FEEDBACK then None
    else
      var count := Get16(buf, 2);
      if |buf| < FEEDBACK_HEADER_SIZE + count * NACK_ENTRY_SIZE then None
      else
        Some((FeedbackHeader(HasFlag(buf[1], FLAG_TICK_N), count, Get32(buf, 4), Get64(buf, 8),
                             Get64(buf, 16), Get64(buf, 24), buf[32] == 1),
              DecodeNacks(buf, count)))
  }

  /** `f & bit != 0` for a single-bit mask. */
  predicate HasFlag(f: u8, bit: u8)
    requires bit > 0
  {
    f / bit % 2 == 1
  }

  lemma HeadFields(h: FeedbackHeader, count: u16, rest: seq<byte>)
    ensures var s := FeedbackHead(h, count) + rest;
      && s[0] == PDU_FEEDBACK && s[1] == (if h.tickIsNetwork then FLAG_TICK_N else 0)
      && s[32] == (if h.done then 1 else 0)
      && Get16(s, 2) == count && Get32(s, 4) == h.session && Get64(s, 8) == h.tick
      && Get64(s, 16) == h.targetRate && Get64(s, 24) == h.hiContig
  {
    var s := FeedbackHead(h, count) + rest;
    assert s[2..4] == Le(count, 2);
    assert s[4..8] == Le(h.session, 4);
    assert s[8..16] == Le(h.tick, 8);
    assert s[16..24] == Le(h.targetRate, 8);
    assert s[24..32] == Le(h.hiContig, 8);
    Pow256Values();
    HeldValue(s, 2, count, 2);
    HeldValue(s, 4, h.session, 4);
    HeldValue(s, 8, h.tick, 8);
    HeldValue(s, 16, h.targetRate, 8);
    HeldValue(s, 24, h.hiContig, 8);
  }

  /** Decoding reads the entries one by one from the front. */
  lemma {:induction false} NacksDecode(head: seq<byte>, nacks: seq<Nack>, rest: seq<byte>)
    requires |head| == FEEDBACK_HEADER_SIZE
    ensures DecodeNacks(head + NackBytes(nacks) + rest, |nacks|) == nacks
    decreases |nacks|
  {
    hide Le, Get64, NackBytes, DecodeNacks;
    var n := |nacks| - 1;
    if n < 0 {
      NoEntries(head + NackBytes(nacks) + rest);
    } else {
      var init, last := nacks[..n], nacks[n];
      var entry := Le(last.blockSeq, 8) + Le(AsU64(last.rexIndex), 8);
      LastEntry(nacks);
      NacksDecode(head, init, entry + rest);
      assert head + NackBytes(nacks) + rest == head + NackBytes(init) + (entry + rest);
      EntryAt(head + NackBytes(init), last, rest);
      NextEntry(head + NackBytes(nacks) + rest, n);
      assert nacks == init + [last];
    }
  }

  lemma NoEntries(buf: seq<byte>)
    requires FEEDBACK_HEADER_SIZE <= |buf|
    ensures DecodeNacks(buf, 0) == []
  {
  }

  lemma LastEntry(nacks: seq<Nack>)
    requires nacks != []
    ensures var last := nacks[|nacks| - 1];
      NackBytes(nacks) == NackBytes(nacks[..|nacks| - 1]) + (Le(last.blockSeq, 8) + Le(AsU64(last.rexIndex), 8))
  {
    hide Le;
  }

  lemma NextEntry(buf: seq<byte>, n: nat)
    requires FEEDBACK_HEADER_SIZE + (n + 1) * NACK_ENTRY_SIZE <= |buf|
    ensures var off := FEEDBACK_HEADER_SIZE + n * NACK_ENTRY_SIZE;
      DecodeNacks(buf, n + 1) == DecodeNacks(buf, n) + [Nack(Get64(buf, off), AsI64(Get64(buf, off + 8)))]
  {
    hide Get64;
  }

  lemma EntryAt(front: seq<byte>, e: Nack, rest: seq<byte>)
    ensures var buf := front + (Le(e.blockSeq, 8) + Le(AsU64(e.rexIndex), 8) + rest);
      Nack(Get64(buf, |front|), AsI64(Get64(buf, |front| + 8))) == e
  {
    hide Le, UnLe;
    var a, b := Le(e.blockSeq, 8), Le(AsU64(e.rexIndex), 8);
    var buf, off := front + (a + b + rest), |front|;
    assert buf[off..off + 8] == a && buf[off + 8..off + 16] == b;
    Pow256Values();
    HeldValue(buf, off, e.blockSeq, 8);
    HeldValue(buf, off + 8, AsU64(e.rexIndex), 8);
  }

  lemma {:induction false} NackPrefix(nacks: seq<Nack>, m: nat)
    requires m <= |nacks|
    ensures NackBytes(nacks) == NackBytes(nacks[..m]) + NackBytes(nacks)[NACK_ENTRY_SIZE * m..]
    decreases |nacks|
  {
    if m == |nacks| {
      assert nacks[..m] == nacks;
    } else {
      var n := |nacks| - 1;
      NackPrefix(nacks[..n], m);
      assert nacks[..n][..m] == nacks[..m];
    }
  }

  /** What comes back from an encoded FEEDBACK: the header as sent, and the first
      `len % 65536` of its entries. */
  lemma FeedbackDecodes(h: FeedbackHeader, nacks: seq<Nack>)
    ensures DecodeFeedback(FeedbackBytes(h, nacks))
         == Some((h.(nackCount := Count16(nacks)), nacks[..Count16(nacks)]))
  {
    hide FeedbackHead, NackBytes, DecodeNacks, Get16, Get32, Get64, HasFlag;
    var count := Count16(nacks);
    var head, tail := FeedbackHead(h, count), NackBytes(nacks)[NACK_ENTRY_SIZE * count..];
    HeadFields(h, count, NackBytes(nacks));
    NackPrefix(nacks, count);
    NacksDecode(head, nacks[..count], tail);
    assert FeedbackBytes(h, nacks) == head + NackBytes(nacks[..count]) + tail;
    TickFlag(h.tickIsNetwork);
  }

  lemma TickFlag(isNet: bool)
    ensures HasFlag(if isNet then FLAG_TICK_N else 0, FLAG_TICK_N) == isNet
  {
  }

  /** FEEDBACK survives the trip if and only if it has fewer than 65536 entries: the count
      on the wire is 16 bits wide. */
  lemma FeedbackRoundTrip(h: FeedbackHeader, nacks: seq<Nack>)
    ensures DecodeFeedback(FeedbackBytes(h, nacks)) == Some((h.(nackCount := Count16(nacks)), nacks))
       <==> |nacks| < 0x1_0000
  {
    FeedbackDecodes(h, nacks);
    hide DecodeFeedback, FeedbackBytes;
    assert |nacks| < 0x1_0000 ==> nacks[..Count16(nacks)] == nacks;
    assert |nacks| >= 0x1_0000 ==> |nacks[..Count16(nacks)]| != |nacks|;
  }

  /** What a receive buffer of 2048 bytes keeps of a datagram. */
  function Kept(pkt: seq<byte>): seq<byte> {
    if |pkt| <= RECV_BUFFER then pkt else pkt[..RECV_BUFFER]
  }

  /** The sender decodes what its buffer kept. FEEDBACK with up to 125 entries is heard as it
      was sent and no other is: a longer one is dropped, unless its 16-bit count has come
      round to at most 125 again. */
  lemma FeedbackHeard(h: FeedbackHeader, nacks: seq<Nack>)
    ensures DecodeFeedback(Kept(FeedbackBytes(h, nacks))) == Some((h.(nackCount := Count16(nacks)), nacks))
       <==> |nacks| <= HEARD_NACKS
    ensures DecodeFeedback(Kept(FeedbackBytes(h, nacks))).Some? <==> Count16(nacks) <= HEARD_NACKS
  {
    if |nacks| <= HEARD_NACKS {
      hide DecodeFeedback, FeedbackHead, NackBytes;
      FeedbackRoundTrip(h, nacks);
    } else {
      hide FeedbackHead, NackBytes, DecodeNacks, Get16, Get32, Get64, HasFlag;
      var rest := NackBytes(nacks)[..RECV_BUFFER - FEEDBACK_HEADER_SIZE];
      assert Kept(FeedbackBytes(h, nacks)) == FeedbackHead(h, Count16(nacks)) + rest;
      HeadFields(h, Count16(nacks), rest);
    }
  }

  method PutFeedbackHead(buf: array<byte>, h: FeedbackHeader, count: u16)
    requires buf.Length >= FEEDBACK_HEADER_SIZE
    modifies buf
    ensures buf[..FEEDBACK_HEADER_SIZE] == FeedbackHead(h, count)
  {
    hide Le;
    ghost var a := [PDU_FEEDBACK, if h.tickIsNetwork then FLAG_TICK_N else 0];
    buf[0] := PDU_FEEDBACK;
    buf[1] := if h.tickIsNetwork then FLAG_TICK_N else 0;
    assert buf[..2] == a;
    PutField(buf, 2, count, 2, a);
    a := a + Le(count, 2);
    PutField(buf, 4, h.session, 4, a);
    a := a + Le(h.session, 4);
    PutField(buf, 8, h.tick, 8, a);
    a := a + Le(h.tick, 8);
    PutField(buf, 16, h.targetRate, 8, a);
    a := a + Le(h.targetRate, 8);
    PutField(buf, 24, h.hiContig, 8, a);
    a := a + Le(h.hiContig, 8);
    buf[32], buf[33], buf[34], buf[35] := if h.done then 1 else 0, 0, 0, 0;
    assert buf[..32] == a;
    assert buf[..36] == a + [if h.done then 1 else 0, 0, 0, 0];
  }

  method EncodeFeedback(buf: array<byte>, h: FeedbackHeader, nacks: seq<Nack>) returns (len: nat)
    requires buf.Length >= FEEDBACK_HEADER_SIZE + |nacks| * NACK_ENTRY_SIZE
    modifies buf
    ensures len == FEEDBACK_HEADER_SIZE + |nacks| * NACK_ENTRY_SIZE
    ensures buf[..len] == FeedbackBytes(h, nacks)
  {
    hide Le, FeedbackHead;
    ghost var head := FeedbackHead(h, Count16(nacks));
    PutFeedbackHead(buf, h, Count16(nacks));
    len := FEEDBACK_HEADER_SIZE;
    for i := 0 to |nacks|
      invariant len == FEEDBACK_HEADER_SIZE + i * NACK_ENTRY_SIZE
      invariant buf[..len] == head + NackBytes(nacks[..i])
    {
      ghost var done := head + NackBytes(nacks[..i]);
      PutField(buf, len, nacks[i].blockSeq, 8, done);
      PutField(buf, len + 8, AsU64(nacks[i].rexIndex), 8, done + Le(nacks[i].blockSeq, 8));
      assert nacks[..i + 1][..i] == nacks[..i];
      len := len + NACK_ENTRY_SIZE;
      assert buf[..len] == head + NackBytes(nacks[..i + 1]);
    }
    assert nacks[..|nacks|] == nacks;
  }

  method ReadFeedback(buf: array<byte>) returns (r: Option<(FeedbackHeader, seq<Nack>)>)
    ensures r == DecodeFeedback(buf[..])
  {
    if buf.Length < FEEDBACK_HEADER_SIZE || buf[0] != PDU_FEEDBACK {
      return None;
    }
    ghost var s := buf[..];
    var count := Get16(buf[..], 2);
    var h := FeedbackHeader(HasFlag(buf[1], FLAG_TICK_N), count, Get32(buf[..], 4), Get64(buf[..], 8),
                            Get64(buf[..], 16), Get64(buf[..], 24), buf[32] == 1);
    if buf.Length < FEEDBACK_HEADER_SIZE + count * NACK_ENTRY_SIZE {
      return None;
    }
    var nacks: seq<Nack> := [];
    var off := FEEDBACK_HEADER_SIZE;
    for i := 0 to count
      invariant off == FEEDBACK_HEADER_SIZE + i * NACK_ENTRY_SIZE
      invariant nacks == DecodeNacks(s, i)
    {
      nacks := nacks + [Nack(Get64(buf[..], off), AsI64(Get64(buf[..], off + 8)))];
      off := off + NACK_ENTRY_SIZE;
    }
    r := Some((h.(nackCount := |nacks|), nacks));
  }

  // ---- START and FIN ----

  function StartBytes(session: u32): seq<byte> { [PDU_START, 0, 0, 0] + Le(session, 4) }

  function DecodeStart(buf: seq<byte>): Option<u32> {
    if |buf| < 8 || buf[0] != PDU_START then None else Some(Get32(buf, 4))
  }

  function FinBytes(session: u32, total: u64): seq<byte> {
    [PDU_FIN, 0, 0, 0] + Le(session, 4) + Le(total, 8)
  }

  function DecodeFin(buf: seq<byte>): Option<(u32, u64)> {
    if |buf| < 16 || buf[0] != PDU_FIN then None else Some((Get32(buf, 4), Get64(buf, 8)))
  }

  /** The type byte, 0 for an empty datagram. */
  function PduType(buf: seq<byte>): u8 {
    if buf == [] then 0 else buf[0]
  }

  /** START and FIN survive the trip. */
  lemma StartFinRoundTrip(session: u32, total: u64)
    ensures DecodeStart(StartBytes(session)) == Some(session)
    ensures DecodeFin(FinBytes(session, total)) == Some((session, total))
  {
    var s, f := StartBytes(session), FinBytes(session, total);
    assert s[4..8] == Le(session, 4);
    assert f[4..8] == Le(session, 4) && f[8..16] == Le(total, 8);
    Pow256Values();
    HeldValue(s, 4, session, 4);
    HeldValue(f, 4, session, 4);
    HeldValue(f, 8, total, 8);
  }

  /** A datagram is accepted by at most one of the four decoders, and dispatching on its type
      byte never sends it to another. */
  lemma DecodersDisjoint(buf: seq<byte>)
    ensures DecodeData(buf).Some? ==> DecodeFeedback(buf).None? && DecodeFin(buf).None? && DecodeStart(buf).None?
    ensures DecodeFeedback(buf).Some? ==> DecodeFin(buf).None? && DecodeStart(buf).None?
    ensures DecodeFin(buf).Some? ==> DecodeStart(buf).None?
    ensures DecodeData(buf).Some? ==> PduType(buf) == PDU_DATA
    ensures DecodeFeedback(buf).Some? ==> PduType(buf) == PDU_FEEDBACK
    ensures DecodeFin(buf).Some? ==> PduType(buf) == PDU_FIN
    ensures DecodeStart(buf).Some? ==> PduType(buf) == PDU_START
  {
  }

  method EncodeStart(buf: array<byte>, session: u32) returns (len: nat)
    requires buf.Length >= 8
    modifies buf
    ensures len == 8 && buf[..len] == StartBytes(session)
  {
    buf[0], buf[1], buf[2], buf[3] := PDU_START, 0, 0, 0;
    assert buf[..4] == [PDU_START, 0, 0, 0];
    PutField(buf, 4, session, 4, [PDU_START, 0, 0, 0]);
    len := 8;
  }

  method EncodeFin(buf: array<byte>, session: u32, total: u64) returns (len: nat)
    requires buf.Length >= 16
    modifies buf
    ensures len == 16 && buf[..len] == FinBytes(session, total)
  {
    buf[0], buf[1], buf[2], buf[3] := PDU_FIN, 0, 0, 0;
    assert buf[..4] == [PDU_FIN, 0, 0, 0];
    PutField(buf, 4, session, 4, [PDU_FIN, 0, 0, 0]);
    PutField(buf, 8, total, 8, [PDU_FIN, 0, 0, 0] + Le(session, 4));
    len := 16;
  }
}
