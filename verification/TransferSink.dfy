/** What exactly is in the sink: which blocks were written, and what a flusher write that
    failed half way left behind. */
module TransferSink {
  import opened Blocks
  import opened TransferModel
  import opened TransferInvariant
  import opened TransferSafety
  import opened TransferTheorems

  /** Block `i` after a write of it that stopped after `k` bytes, over the bytes of `was`. */
  function Cut(c: Config, was: seq<byte>, i: nat, k: nat): seq<byte>
    requires |was| == |c.src| && i < Total(c) && k <= BlockLen(|c.src|, c.bs, i)
  {
    Block(c.src, c.bs, i)[..k] + Block(was, c.bs, i)[k..]
  }

  predicate SomeWrote(wk: seq<Worker>, i: nat) {
    exists k :: 0 <= k < |wk| && wk[k] == Wrote(i)
  }

  /** Has anything been written to block `i`? */
  predicate Touched(s: State, i: nat) {
    i in s.stuck || (i in s.rcv.ready && !Unwritten(s.rcv, s.fl, i)) || SomeWrote(s.wk, i)
  }

  predicate Passed(fl: Flusher, i: nat) {
    i < fl.front || (i == fl.front && (fl.pc.ReturningBuf? || fl.pc.Advancing?))
  }

  /** Untouched blocks hold what the sink started with; blocks whose flusher write failed
      hold what it wrote and then what the sink started with. */
  predicate SinkHistory(c: Config, was: seq<byte>, s: State) {
    && |was| == |c.src| && |s.sink| == |c.src|
    && (forall i: nat :: i < Total(c) && !Touched(s, i) ==> Block(s.sink, c.bs, i) == Block(was, c.bs, i))
    && (forall i :: i in s.lost ==>
          && i < Total(c) && Passed(s.fl, i) && s.lost[i] <= BlockLen(|c.src|, c.bs, i)
          && Block(s.sink, c.bs, i) == Cut(c, was, i, s.lost[i]))
  }

  // ---- steps that do not write ----

  /** Nothing is written, and what was touched stays so. */
  ghost predicate Quiet(s: State, t: State) {
    && t.sink == s.sink && t.lost == s.lost
    && (forall i: nat :: Touched(s, i) ==> Touched(t, i))
    && (forall i: nat :: Passed(s.fl, i) ==> Passed(t.fl, i))
  }

  lemma QuietKeeps(c: Config, was: seq<byte>, s: State, t: State)
    requires SinkHistory(c, was, s) && Quiet(s, t)
    ensures SinkHistory(c, was, t)
  {
    hide Touched, Passed, Cut, Block;
  }

  lemma SameReceiver(s: State, t: State)
    requires t.sink == s.sink && t.lost == s.lost && t.stuck == s.stuck && t.wk == s.wk && t.fl == s.fl
    requires t.rcv.ready == s.rcv.ready && t.rcv.stage == s.rcv.stage
    ensures Quiet(s, t)
  {
  }

  lemma WroteStays(wk: seq<Worker>, w: nat, now: Worker)
    requires w < |wk|
    ensures forall i: nat :: SomeWrote(wk, i) && wk[w] != Wrote(i) ==> SomeWrote(wk[w := now], i)
    ensures now.Wrote? ==> SomeWrote(wk[w := now], now.sn)
  {
    forall i: nat | SomeWrote(wk, i) && wk[w] != Wrote(i)
      ensures SomeWrote(wk[w := now], i)
    {
      var k :| 0 <= k < |wk| && wk[k] == Wrote(i);
      assert wk[w := now][k] == Wrote(i);
    }
    if now.Wrote? {
      assert wk[w := now][w] == Wrote(now.sn);
    }
  }

  lemma DeliverQuiet(c: Config, s: State, w: nat, p: Packet, parsed: bool)
    requires IngestEnabled(c, s, Deliver(w, p, parsed))
    ensures Quiet(s, DeliverApply(c, s, w, p, parsed))
  {
    hide DeliverApply;
    DeliverShape(c, s, w, p, parsed);
    WroteStays(s.wk, w, DeliverApply(c, s, w, p, parsed).wk[w]);
  }

  /** Facts about a block whose owner is a worker. */
  lemma OwnedFacts(c: Config, s: State, w: nat)
    requires Inv(c, s) && w < |s.wk| && Owns(s.wk[w])
    ensures s.wk[w].sn !in s.rcv.ready && s.wk[w].sn !in s.stuck && s.wk[w].sn !in s.lost
    ensures AtFront(s.fl.pc) ==> s.wk[w].sn != s.fl.front
    ensures s.wk[w].Staged? <==> s.wk[w].sn in s.rcv.stage
    ensures s.wk[w].Direct? ==> s.wk[w].sn < Total(c) && s.wk[w].data == Block(c.src, c.bs, s.wk[w].sn)
  {
    hide SendInv, AskedInv, DoneInv, NetInv, PoolInv, CountInv, ScanInv, FinishInv, Landed;
    Parts(c, s);
    assert WorkerInv(c, Limit(c, s.snd), s.rcv, s.wk[w]);
  }

  lemma StagedQuiet(c: Config, s: State, w: nat)
    requires w < |s.wk| && s.wk[w].Staged?
    requires s.wk[w].sn in s.rcv.stage
    ensures Quiet(s, WorkApply(c, s, w))
  {
    WroteStays(s.wk, w, Idle);
  }

  lemma WroteQuiet(c: Config, s: State, w: nat)
    requires w < |s.wk| && s.wk[w].Wrote?
    requires s.wk[w].sn !in s.rcv.stage && (AtFront(s.fl.pc) ==> s.wk[w].sn != s.fl.front)
    ensures Quiet(s, WorkApply(c, s, w))
  {
    WroteStays(s.wk, w, Idle);
    assert forall i: nat :: s.wk[w] == Wrote(i) ==> i == s.wk[w].sn;
  }

  lemma BufferedQuiet(c: Config, s: State, w: nat)
    requires w < |s.wk| && s.wk[w].Buffered?
    requires s.wk[w].sn !in s.rcv.ready
    ensures Quiet(s, WorkApply(c, s, w))
  {
    WroteStays(s.wk, w, Staged(s.wk[w].sn));
  }

  lemma EarlyQuiet(c: Config, s: State, w: nat)
    requires w < |s.wk|
    requires !s.wk[w].Staged? && !s.wk[w].Wrote? && !s.wk[w].Buffered? && !s.wk[w].Direct?
    ensures Quiet(s, WorkApply(c, s, w))
  {
    WroteStays(s.wk, w, WorkApply(c, s, w).wk[w]);
  }

  lemma FlushQuiet(c: Config, s: State)
    requires FlushEnabled(c, s, Flush) && !s.fl.pc.Writing?
    requires FrontInv(c, s.rcv, s.fl)
    ensures Quiet(s, FlushApply(c, s))
  {
  }

  // ---- steps that write ----

  /** A write of the first bytes of an untouched block that leaves it touched. */
  lemma WriteKeeps(c: Config, was: seq<byte>, s: State, t: State, i: nat, data: seq<byte>)
    requires SinkHistory(c, was, s) && i < Total(c) && i !in s.lost
    requires |data| <= BlockLen(|c.src|, c.bs, i) && t.sink == WriteAt(s.sink, i * c.bs, data)
    requires forall j: nat :: Touched(s, j) ==> Touched(t, j)
    requires forall j: nat :: Passed(s.fl, j) ==> Passed(t.fl, j)
    requires Touched(t, i)
    requires t.lost == s.lost
    ensures SinkHistory(c, was, t)
  {
    hide Touched, Passed, Block, WriteAt;
    BlockBounds(|c.src|, c.bs, i);
    WriteFrame(c, s.sink, i, data);
  }

  lemma WriteFrame(c: Config, sink: seq<byte>, i: nat, data: seq<byte>)
    requires |sink| == |c.src| && i < Total(c) && |data| <= BlockLen(|c.src|, c.bs, i)
    ensures var r := WriteAt(sink, i * c.bs, data);
      && |r| == |c.src| && Block(r, c.bs, i) == data + Block(sink, c.bs, i)[|data|..]
      && forall j: nat :: j < Total(c) && j != i ==> Block(r, c.bs, j) == Block(sink, c.bs, j)
  {
    hide Block, WriteAt;
    WriteStartsBlock(sink, c.bs, i, data);
    forall j: nat | j < Total(c) && j != i
      ensures Block(WriteAt(sink, i * c.bs, data), c.bs, j) == Block(sink, c.bs, j)
    {
      WriteLeavesOthers(sink, c.bs, i, data, j);
    }
  }

  lemma DirectTouches(c: Config, s: State, w: nat)
    requires w < |s.wk| && s.wk[w].Direct?
    ensures var t := WorkApply(c, s, w);
      && Touched(t, s.wk[w].sn) && t.fl == s.fl && t.lost == s.lost
      && (forall j: nat :: Touched(s, j) ==> Touched(t, j))
  {
    WroteStays(s.wk, w, Wrote(s.wk[w].sn));
  }

  lemma DirectFailTouches(c: Config, s: State, w: nat, k: nat)
    requires IngestEnabled(c, s, DirectFail(w, k))
    ensures var t := DirectFailApply(c, s, w, k);
      && Touched(t, s.wk[w].sn) && t.fl == s.fl && t.lost == s.lost
      && (forall j: nat :: Touched(s, j) ==> Touched(t, j))
  {
    WroteStays(s.wk, w, Idle);
  }

  lemma DirectHistory(c: Config, was: seq<byte>, s: State, w: nat)
    requires Inv(c, s) && SinkHistory(c, was, s) && w < |s.wk| && s.wk[w].Direct?
    ensures SinkHistory(c, was, WorkApply(c, s, w))
  {
    hide Inv, SinkHistory, Touched, Passed, Block, WriteAt;
    OwnedFacts(c, s, w);
    DirectTouches(c, s, w);
    WriteKeeps(c, was, s, WorkApply(c, s, w), s.wk[w].sn, s.wk[w].data);
  }

  lemma DirectFailHistory(c: Config, was: seq<byte>, s: State, w: nat, k: nat)
    requires Inv(c, s) && SinkHistory(c, was, s) && IngestEnabled(c, s, DirectFail(w, k))
    ensures SinkHistory(c, was, DirectFailApply(c, s, w, k))
  {
    hide Inv, SinkHistory, Touched, Passed, Block, WriteAt;
    OwnedFacts(c, s, w);
    DirectFailTouches(c, s, w, k);
    WriteKeeps(c, was, s, DirectFailApply(c, s, w, k), s.wk[w].sn, s.wk[w].data[..k]);
  }

  /** The block the flusher is about to write is untouched. */
  lemma FrontFacts(c: Config, s: State)
    requires Inv(c, s) && s.fl.pc.Writing?
    ensures s.fl.front < Total(c) && s.fl.front in s.rcv.ready && s.fl.front !in s.rcv.stage
    ensures s.fl.pc.buf == Block(c.src, c.bs, s.fl.front)
    ensures !Touched(s, s.fl.front)
  {
    hide SendInv, AskedInv, DoneInv, NetInv, PoolInv, CountInv, ScanInv, FinishInv, Landed, HeardInv;
    Parts(c, s);
    assert forall k :: 0 <= k < |s.wk| && s.wk[k].Wrote? ==> Owns(s.wk[k]);
  }

  lemma FlushTouches(c: Config, s: State, lost: map<nat, nat>, sink: seq<byte>)
    requires s.fl.pc.Writing? && s.fl.front in s.rcv.ready && s.fl.front !in s.rcv.stage
    ensures var t := s.(fl := s.fl.(pc := ReturningBuf), lost := lost, sink := sink);
      && Touched(t, s.fl.front) && Passed(t.fl, s.fl.front)
      && (forall j: nat :: Touched(s, j) ==> Touched(t, j))
      && (forall j: nat :: Passed(s.fl, j) ==> Passed(t.fl, j))
  {
  }

  lemma FlushHistory(c: Config, was: seq<byte>, s: State)
    requires Inv(c, s) && SinkHistory(c, was, s) && s.fl.pc.Writing?
    ensures SinkHistory(c, was, FlushApply(c, s))
  {
    hide Inv, Touched, Passed, Block, WriteAt, Cut;
    FrontFacts(c, s);
    NotPassed(s);
    var t := FlushApply(c, s);
    FlushTouches(c, s, s.lost, t.sink);
    WriteKeeps(c, was, s, t, s.fl.front, s.fl.pc.buf);
  }

  lemma FlushFailHistory(c: Config, was: seq<byte>, s: State, k: nat)
    requires Inv(c, s) && SinkHistory(c, was, s) && FlushEnabled(c, s, FlushFail(k))
    ensures SinkHistory(c, was, FlushFailApply(c, s, k))
  {
    hide Inv, Touched, Passed, Block, WriteAt;
    FrontFacts(c, s);
    NotPassed(s);
    var t := FlushFailApply(c, s, k);
    FlushTouches(c, s, t.lost, t.sink);
    WriteFrame(c, s.sink, s.fl.front, s.fl.pc.buf[..k]);
    assert Block(t.sink, c.bs, s.fl.front) == Cut(c, was, s.fl.front, k);
  }

  lemma NotPassed(s: State)
    requires s.fl.pc.Writing?
    ensures !Passed(s.fl, s.fl.front)
  {
  }

  // ---- every step, every run ----

  lemma WorkHistory(c: Config, was: seq<byte>, s: State, w: nat)
    requires Inv(c, s) && SinkHistory(c, was, s) && w < |s.wk|
    ensures SinkHistory(c, was, WorkApply(c, s, w))
  {
    hide Inv, SinkHistory, WorkApply, Quiet;
    if s.wk[w].Direct? {
      DirectHistory(c, was, s, w);
    } else {
      if s.wk[w].Staged? {
        OwnedFacts(c, s, w);
        StagedQuiet(c, s, w);
      } else if s.wk[w].Wrote? {
        OwnedFacts(c, s, w);
        WroteQuiet(c, s, w);
      } else if s.wk[w].Buffered? {
        OwnedFacts(c, s, w);
        BufferedQuiet(c, s, w);
      } else {
        EarlyQuiet(c, s, w);
      }
      QuietKeeps(c, was, s, WorkApply(c, s, w));
    }
  }

  lemma IngestHistory(c: Config, was: seq<byte>, s: State, st: Step)
    requires Inv(c, s) && SinkHistory(c, was, s) && IngestEnabled(c, s, st)
    ensures SinkHistory(c, was, IngestApply(c, s, st))
  {
    hide Inv, SinkHistory, WorkApply, DeliverApply, DirectFailApply, Quiet;
    match st
    case Work(w) => WorkHistory(c, was, s, w);
    case DirectFail(w, k) => DirectFailHistory(c, was, s, w, k);
    case Deliver(w, p, parsed) =>
      DeliverQuiet(c, s, w, p, parsed);
      QuietKeeps(c, was, s, DeliverApply(c, s, w, p, parsed));
  }

  lemma FlusherHistory(c: Config, was: seq<byte>, s: State, st: Step)
    requires Inv(c, s) && SinkHistory(c, was, s) && FlushEnabled(c, s, st)
    ensures SinkHistory(c, was, FlusherApply(c, s, st))
  {
    FrontOnly(c, s);
    hide Inv, SinkHistory, FlushApply, FlushFailApply, Quiet, FrontInv;
    if st.FlushFail? {
      FlushFailHistory(c, was, s, st.k);
    } else if s.fl.pc.Writing? {
      FlushHistory(c, was, s);
    } else {
      FlushQuiet(c, s);
      QuietKeeps(c, was, s, FlushApply(c, s));
    }
  }

  lemma FrontOnly(c: Config, s: State)
    requires Inv(c, s)
    ensures FrontInv(c, s.rcv, s.fl)
  {
    hide FrontInv, OwnInv, PoolInv, SendInv, StageInv, SinkInv, DoneInv, FinishInv, NetInv, AskedInv, ScanInv, CountInv;
    hide HeardInv;
    Parts(c, s);
  }

  lemma StepHistory(c: Config, was: seq<byte>, s: State, st: Step)
    requires Inv(c, s) && SinkHistory(c, was, s) && Enabled(c, s, st)
    ensures SinkHistory(c, was, Apply(c, s, st))
  {
    hide Inv, SinkHistory, IngestApply, FlusherApply, SenderApply, FbApply, Quiet;
    match ActorOf(st)
    case TheWorkers => IngestHistory(c, was, s, st);
    case TheFlusher => FlusherHistory(c, was, s, st);
    case TheSender =>
      SenderShape(c, s, st);
      SameReceiver(s, SenderApply(c, s, st));
      QuietKeeps(c, was, s, SenderApply(c, s, st));
    case TheNetwork =>
      SameReceiver(s, NetApply(s, st));
      QuietKeeps(c, was, s, NetApply(s, st));
    case TheReporter =>
      FeedbackShape(c, s, st);
      SameReceiver(s, FbApply(c, s, st));
      QuietKeeps(c, was, s, FbApply(c, s, st));
  }

  lemma {:induction false} RunHistory(c: Config, was: seq<byte>, s: State, steps: seq<Step>, t: State)
    requires Inv(c, s) && SinkHistory(c, was, s) && Runs(c, s, steps, t)
    ensures SinkHistory(c, was, t) && Inv(c, t)
    decreases |steps|
  {
    hide Inv, SinkHistory, Enabled, Apply;
    if steps != [] {
      StepKeeps(c, s, steps[0]);
      StepHistory(c, was, s, steps[0]);
      RunHistory(c, was, Apply(c, s, steps[0]), steps[1..], t);
    }
  }

  lemma InitHistory(c: Config, s: State)
    requires Init(c, s)
    ensures SinkHistory(c, s.sink, s)
  {
  }

  /** What completion leaves in the sink, byte for byte, whatever failed on the way: a
      block whose flusher write failed after k bytes is its first k bytes followed by what
      was in the sink before the transfer, and every other block is the source's. So the
      sink equals the source exactly when those left-over tails did from the start. */
  lemma SinkAtCompletion(c: Config, s: State, steps: seq<Step>, t: State)
    requires Init(c, s) && Runs(c, s, steps, t) && Complete(c, t)
    ensures |t.sink| == |c.src|
    ensures forall i :: i in t.lost ==> i < Total(c) && t.lost[i] <= BlockLen(|c.src|, c.bs, i)
    ensures forall i: nat :: i < Total(c) ==>
      Block(t.sink, c.bs, i) == if i in t.lost then Cut(c, s.sink, i, t.lost[i]) else Block(c.src, c.bs, i)
    ensures t.sink == c.src
       <==> forall i :: i in t.lost ==> Block(s.sink, c.bs, i)[t.lost[i]..] == Block(c.src, c.bs, i)[t.lost[i]..]
  {
    hide Runs, Inv, Block, Init;
    InitFacts(c, s);
    RunHistory(c, s.sink, s, steps, t);
    LandedAtEnd(c, t);
    if forall i :: i in t.lost ==> Block(s.sink, c.bs, i)[t.lost[i]..] == Block(c.src, c.bs, i)[t.lost[i]..] {
      forall i: nat | i < Total(c)
        ensures Block(t.sink, c.bs, i) == Block(c.src, c.bs, i)
      {
        if i in t.lost {
          Joined(Block(c.src, c.bs, i), t.lost[i]);
        }
      }
      SameBlocksSameFile(t.sink, c.src, c.bs);
    }
    if t.sink == c.src {
      forall i | i in t.lost
        ensures Block(s.sink, c.bs, i)[t.lost[i]..] == Block(c.src, c.bs, i)[t.lost[i]..]
      {
        CutTail(c, s.sink, i, t.lost[i]);
      }
    }
  }

  lemma InitFacts(c: Config, s: State)
    requires Init(c, s)
    ensures Inv(c, s) && SinkHistory(c, s.sink, s)
  {
    hide Inv, SinkHistory;
    InitInv(c, s);
    InitHistory(c, s);
  }

  lemma Joined(b: seq<byte>, k: nat)
    requires k <= |b|
    ensures b[..k] + b[k..] == b
  {
  }

  lemma CutTail(c: Config, was: seq<byte>, i: nat, k: nat)
    requires |was| == |c.src| && i < Total(c) && k <= BlockLen(|c.src|, c.bs, i)
    ensures Cut(c, was, i, k)[k..] == Block(was, c.bs, i)[k..]
  {
    hide Block;
  }
}
