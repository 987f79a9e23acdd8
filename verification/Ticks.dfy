/** Timing ticks: how the sender keeps the last one it heard and echoes it in a DATA header. */
module Ticks {
  import opened Blocks
  import opened Prelude
  import opened Wire
  import Pdus
  import History = TickHistory

  // ---- stamping a header ----

  function WithFlag(f: u8, bit: u8): u8
    requires bit in {1, 2, 4, 8}
  {
    if HasFlag(f, bit) then f else f + bit
  }

  function WithoutFlag(f: u8, bit: u8): u8
    requires bit in {1, 2, 4, 8}
  {
    if HasFlag(f, bit) then f - bit else f
  }

  /** The flags of a header after a tick was put into it. */
  function TickFlags(f: u8, isNet: bool): u8 {
    var g := WithFlag(f, FLAG_HAS_TICK);
    if isNet then WithFlag(g, FLAG_TICK_N) else WithoutFlag(g, FLAG_TICK_N)
  }

  /** Only the two tick flags change, and they say what was put in. */
  lemma TickFlagsMean(f: u8, isNet: bool)
    ensures HasFlag(TickFlags(f, isNet), FLAG_HAS_TICK)
    ensures HasFlag(TickFlags(f, isNet), FLAG_TICK_N) == isNet
    ensures HasFlag(TickFlags(f, isNet), FLAG_RETRANSMIT) == HasFlag(f, FLAG_RETRANSMIT)
    ensures HasFlag(TickFlags(f, isNet), FLAG_LAST_BLOCK) == HasFlag(f, FLAG_LAST_BLOCK)
    ensures TickFlags(f, isNet) / 16 == f / 16
  {
    hide HasFlag;
    var h, d, c, b, a := Split(f);
    Bits(h, d, c, b, a);
    Bits(h, d, 1, b, a);
    Bits(h, d, 1, if isNet then 1 else 0, a);
  }

  /** A byte by its low four bits. */
  lemma Split(f: u8) returns (h: nat, d: nat, c: nat, b: nat, a: nat)
    ensures h < 16 && d < 2 && c < 2 && b < 2 && a < 2 && f == 16 * h + 8 * d + 4 * c + 2 * b + a
  {
    var f1, f2, f3: nat;
    f1, a := Halve(f);
    f2, b := Halve(f1);
    f3, c := Halve(f2);
    h, d := Halve(f3);
  }

  lemma Halve(f: nat) returns (q: nat, x: nat)
    ensures f == 2 * q + x && x < 2
  {
    q, x := f / 2, f % 2;
  }

  lemma Bits(h: nat, d: nat, c: nat, b: nat, a: nat)
    requires h < 16 && d < 2 && c < 2 && b < 2 && a < 2
    ensures var f := 16 * h + 8 * d + 4 * c + 2 * b + a;
      && f < 256 && f / 16 == h
      && (HasFlag(f, FLAG_RETRANSMIT) <==> a == 1) && (HasFlag(f, FLAG_TICK_N) <==> b == 1)
      && (HasFlag(f, FLAG_HAS_TICK) <==> c == 1) && (HasFlag(f, FLAG_LAST_BLOCK) <==> d == 1)
  {
    var f := 16 * h + 8 * d + 4 * c + 2 * b + a;
    LowBit(f, 1, f, 8 * h + 4 * d + 2 * c + b, a, 0);
    LowBit(f, 2, 8 * h + 4 * d + 2 * c + b, 4 * h + 2 * d + c, b, a);
    LowBit(f, 4, 4 * h + 2 * d + c, 2 * h + d, c, 2 * b + a);
    LowBit(f, 8, 2 * h + d, h, d, 4 * c + 2 * b + a);
  }

  lemma LowBit(f: u8, k: u8, q: nat, q2: nat, x: nat, r: nat)
    requires k in {1, 2, 4, 8} && r < k && x < 2
    requires f == k * q + r && q == 2 * q2 + x
    ensures HasFlag(f, k) <==> x == 1
  {
    assert f / k == q;
  }

  /** The header `attach_tick` leaves behind. */
  function Stamped(h: DataHeader, val: u64, isNet: bool, held: nat): DataHeader {
    h.(flags := TickFlags(h.flags, isNet),
       echoTick := if isNet then (val + held) % U64_LIMIT else val)
  }

  /** `TickState`: the last tick heard, until it is stamped into a datagram. */
  class TickState {
    var pending: bool
    var val: u64
    var isNet: bool
    var t2: u64

    constructor ()
      ensures !pending
    {
      pending, val, isNet, t2 := false, 0, false, 0;
    }

    /** The slot holds what the history says is stored. */
    ghost predicate Shows(slot: Option<History.Stored>)
      reads this
    {
      && (pending <==> slot.Some?)
      && (slot.Some? ==> val == slot.value.reading && isNet == slot.value.isNet && t2 == slot.value.t2)
    }

    /** What the feedback thread does with each accepted FEEDBACK: the history's step of
        hearing that tick, over whatever was there. */
    method Store(fh: FeedbackHeader, now: u64)
      modifies this
      ensures pending && val == fh.tick && isNet == fh.tickIsNetwork && t2 == now
      ensures forall c: History.Epochs, s: History.State, t: History.Tick ::
        History.Enabled(s, History.Hear(t)) && t.reading == fh.tick && t.isNet == fh.tickIsNetwork
        && History.Reading(s.now, c.sender) == now
        ==> Shows(History.After(c, s, History.Hear(t)).stored)
    {
      pending := true;
      val := fh.tick;
      isNet := fh.tickIsNetwork;
      t2 := now;
    }

    /** `attach_tick`: the decoded header changes in its echo tick and its two tick flags
        and nowhere else, the payload not at all, and the tick is used up. */
    method Attach(buf: array<byte>, now: u64)
      requires DecodeData(buf[..]).Some? && t2 <= now
      modifies this, buf
      ensures !old(pending) ==> buf[..] == old(buf[..])
      ensures !pending && val == old(val) && isNet == old(isNet) && t2 == old(t2)
      ensures old(pending) ==>
        DecodeData(buf[..]) == Some(Stamped(DecodeData(old(buf[..])).value, val, isNet, now - t2))
      ensures buf[DATA_HEADER_SIZE..] == old(buf[DATA_HEADER_SIZE..])
      ensures forall c: History.Epochs, s: History.State ::
        old(Shows(s.stored)) && History.Enabled(s, History.Take) ==> Shows(History.After(c, s, History.Take).stored)
    {
      if !pending {
        return;
      }
      pending := false;
      var echo := val;
      var flags := WithFlag(buf[1], FLAG_HAS_TICK);
      if isNet {
        flags := WithFlag(flags, FLAG_TICK_N);
        echo := (val + (now - t2)) % U64_LIMIT;
      } else {
        flags := WithoutFlag(flags, FLAG_TICK_N);
      }
      ghost var was := buf[..];
      buf[1] := flags;
      PutLe(buf, 16, echo, 8);
      StampedDecodes(was, buf[..], flags, echo);
      assert buf[36..] == buf[24..][12..];
    }
  }

  /** What is stamped is what the history says is echoed, while clocks fit 64 bits. */
  lemma StampIsEcho(h: DataHeader, c: History.Epochs, s: History.State)
    requires s.taken.Some? && 0 <= s.taken.value.reading && s.taken.value.t2 <= History.Reading(s.now, c.sender)
    requires s.taken.value.reading + (History.Reading(s.now, c.sender) - s.taken.value.t2) < U64_LIMIT
    ensures var k := s.taken.value; var t := History.After(c, s, History.Stamp);
      && |t.echoes| == |s.echoes| + 1 && t.echoes[|s.echoes|].isNet == k.isNet
      && Stamped(h, k.reading, k.isNet, History.Reading(s.now, c.sender) - k.t2).echoTick == t.echoes[|s.echoes|].echo
  {
    hide History.Reading;
    var k, now := s.taken.value, History.Reading(s.now, c.sender);
    Pdus.WholeMod(k.reading + (now - k.t2), U64_LIMIT);
  }

  lemma StampedDecodes(was: seq<byte>, buf: seq<byte>, flags: u8, echo: u64)
    requires DecodeData(was).Some? && |buf| == |was|
    requires buf[..16] == was[..16][1 := flags] && buf[16..24] == Le(echo, 8) && buf[24..] == was[24..]
    ensures DecodeData(buf) == Some(DecodeData(was).value.(flags := flags, echoTick := echo))
  {
    hide DecodeData;
    var h := DecodeData(was).value;
    DataIsCanonical(was);
    assert buf[0] == buf[..16][0] && buf[1] == buf[..16][1];
    assert buf[2..4] == buf[..16][2..4] == was[2..4];
    assert buf[4..8] == buf[..16][4..8] == was[4..8];
    assert buf[8..16] == buf[..16][8..16] == was[8..16];
    assert buf[24..32] == buf[24..][..8] == was[24..32];
    assert buf[32..36] == buf[24..][8..12] == was[32..36];
    DecodesData(buf, h.(flags := flags, echoTick := echo));
  }

  /** Stamping a tick into a datagram changes nothing of what the receiver gets from it. */
  lemma StampedIsReceived(j: Pdus.Job, sn: nat, again: bool, pkt: seq<byte>, val: u64, isNet: bool, held: nat)
    requires Pdus.ValidJob(j) && Pdus.InFile(j, sn) && Pdus.Readable(j, sn)
    requires DecodeData(pkt) == Some(Stamped(Pdus.Header(j, sn, again), val, isNet, held))
    requires pkt[DATA_HEADER_SIZE..] == Pdus.Pdu(j, sn, again)[DATA_HEADER_SIZE..]
    ensures Pdus.Received(j, pkt) == Some((sn, Pdus.Payload(j, sn)))
  {
    hide DecodeData, DataBytes, Pdus.Received, Pdus.Payload;
    Pdus.FitsWire(j, sn);
    assert Pdus.Pdu(j, sn, again)[36..] == Pdus.Body(j, sn);
    Pdus.BodyReceived(j, sn, pkt, Stamped(Pdus.Header(j, sn, again), val, isNet, held));
  }
}
