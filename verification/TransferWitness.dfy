/** Runs that show which provisos of the transfer's theorems are needed. Each exists for
    every policy. */
module TransferWitness {
  import opened Blocks
  import opened LossTracker
  import opened TransferModel
  import opened TransferInvariant
  import opened TransferPolicy
  import opened TransferSafety
  import opened TransferTheorems
  import opened TransferSink
  import opened TransferProgress
  import opened TransferFinish

  // ---- runs from the start ----

  lemma Begin(c: Config, e: Policy, s: State)
    requires Init(c, s)
    ensures Follows(c, e, [], s, [], s) && Good(c, s) && AllOut(c, s) && AllIdle(s.wk)
    ensures !Complete(c, s) && s.fb.pc.Sleeping? && s.fb.doneSends == 0
  {
    hide Inv;
    InitInv(c, s);
  }

  /** A run without mishap prolongs a run. */
  lemma GoesOn(c: Config, e: Policy, s0: State, ha: seq<Step>, a: State, hb: seq<Step>, b: State)
    requires Follows(c, e, [], s0, ha, a) && Reaches(c, e, ha, a, hb, b)
    ensures Follows(c, e, [], s0, hb, b)
  {
    hide Follows;
    assert [] + ha == ha && ha + hb[|ha|..] == hb;
    FollowsJoin(c, e, [], s0, ha, a, hb[|ha|..], b);
  }

  /** One more step, mishap or not. */
  lemma Then(c: Config, e: Policy, s0: State, ha: seq<Step>, a: State, st: Step) returns (hb: seq<Step>, b: State)
    requires Follows(c, e, [], s0, ha, a) && Inv(c, a)
    requires Enabled(c, a, st) && Obeys(c, e, ha, a, st)
    ensures hb == ha + [st] && b == Apply(c, a, st) && Follows(c, e, [], s0, hb, b) && Inv(c, b)
  {
    hide Follows, Enabled, Apply, Obeys, Inv;
    assert [] + ha == ha;
    hb, b := ha + [st], Apply(c, a, st);
    FollowsOne(c, e, ha, a, st);
    FollowsJoin(c, e, [], s0, ha, a, [st], b);
    StepKeeps(c, a, st);
  }

  // ---- a read error ----

  /** Run the sender until prefetch is about to read block `k`. */
  lemma {:induction false} ReadUpTo(c: Config, e: Policy, hs: seq<Step>, s: State, k: nat)
    returns (ht: seq<Step>, t: State)
    requires Good(c, s) && !Complete(c, s) && AllOut(c, s)
    requires !s.snd.readFailed && s.snd.next <= k < Total(c)
    ensures Good(c, t) && Reaches(c, e, hs, s, ht, t) && SenderOnly(s, t) && AllOut(c, t)
    ensures t.snd.pf.Holding? && t.snd.next == k
    decreases Unread(c, s.snd), PfRank(s.snd.pf), Queue(s.snd), Cycle(s.snd.pacing)
  {
    hide Good, Reaches, SendInv, SenderApply, AllOut;
    SenderFacts(c, s);
    if s.snd.pf.Holding? && s.snd.next == k {
      ht, t := hs, s;
      ReachSelf(c, e, hs, s);
    } else {
      var hm: seq<Step>;
      var m: State;
      if !PfWaits(c, s.snd) {
        PrefetchMoves(c, s);
        OutStep(c, s, PfStep(c, s.snd));
        ReadStep(c, s, k);
        hm, m := GoSend(c, e, hs, s, PfStep(c, s.snd));
      } else if s.snd.pacing.AtTop? {
        hm, m := TopRound(c, e, hs, s);
      } else {
        PaceMoves(c, s);
        OutStep(c, s, PaceStep(s.snd));
        hm, m := GoSend(c, e, hs, s, PaceStep(s.snd));
      }
      ReachNoReadError(c, e, hs, s, hm, m);
      if TheFin(c) in m.net {
        FinMeansAll(c, m);
        SentIsRead(c, m);
      }
      ht, t := ReadUpTo(c, e, hm, m, k);
      ReachJoin(c, e, hs, s, hm, m, ht, t);
    }
  }

  lemma ReadStep(c: Config, s: State, k: nat)
    requires SendInv(c, s.snd) && !PfWaits(c, s.snd) && s.snd.next <= k < Total(c)
    requires !(s.snd.pf.Holding? && s.snd.next == k) && SenderEnabled(c, s, PfStep(c, s.snd))
    ensures SenderApply(c, s, PfStep(c, s.snd)).snd.next <= k
  {
  }

  lemma SentIsRead(c: Config, s: State)
    requires Good(c, s)
    ensures s.snd.injected <= s.snd.next
  {
    hide HeardInv, OwnInv, FrontInv, StageInv, SinkInv, PoolInv, CountInv, ScanInv, FinishInv, NetInv, AskedInv, DoneInv;
    Parts(c, s);
  }

  /** Everything before block `k` is read, and its own read fails. */
  lemma FailRead(c: Config, e: Policy, s: State, k: nat) returns (ht: seq<Step>, t: State)
    requires Init(c, s) && k < Total(c)
    ensures Follows(c, e, [], s, ht, t) && Good(c, t) && !Complete(c, t) && AllOut(c, t) && AllIdle(t.wk)
    ensures t.snd.readFailed && t.snd.pf.Exited? && t.snd.next == k && t.rcv.bm == {} && t.fl.flushed == 0
  {
    Begin(c, e, s);
    hide Follows, Reaches, Inv, AllOut;
    var ha, a := ReadUpTo(c, e, [], s, k);
    GoesOn(c, e, s, [], s, ha, a);
    OutStep(c, a, PfReadFail);
    ht, t := Then(c, e, s, ha, a, PfReadFail);
  }

  lemma NextFixedStep(c: Config, s: State, st: Step)
    requires Enabled(c, s, st) && s.snd.pf.Exited?
    ensures var t := Apply(c, s, st);
      t.snd.pf.Exited? && t.snd.next == s.snd.next && t.snd.readFailed == s.snd.readFailed
  {
    if ActorOf(st).TheSender? {
      hide SenderApply;
      SenderFrames(c, s, st);
    } else {
      hide Apply;
      OwnParts(c, s, st);
    }
  }

  /** Once prefetch has left, nothing more is read. */
  lemma {:induction false} NextFixedRun(c: Config, s: State, steps: seq<Step>, t: State)
    requires Runs(c, s, steps, t) && s.snd.pf.Exited?
    ensures t.snd.pf.Exited? && t.snd.next == s.snd.next && t.snd.readFailed == s.snd.readFailed
    decreases |steps|
  {
    hide Enabled, Apply;
    if steps != [] {
      NextFixedStep(c, s, steps[0]);
      NextFixedRun(c, Apply(c, s, steps[0]), steps[1..], t);
    }
  }

  lemma ReachNextFixed(c: Config, e: Policy, hs: seq<Step>, s: State, ht: seq<Step>, t: State)
    requires Reaches(c, e, hs, s, ht, t) && s.snd.pf.Exited?
    ensures t.snd.next == s.snd.next && t.snd.readFailed == s.snd.readFailed
  {
    hide Follows, Runs;
    FollowsRuns(c, e, hs, s, ht[|hs|..], t);
    NextFixedRun(c, s, ht[|hs|..], t);
  }

  // ---- everything arrives at once ----

  /** From the start, with nothing lost: every block is on the wire, and FIN behind them. */
  lemma SendEverything(c: Config, e: Policy, hs: seq<Step>, s: State) returns (ht: seq<Step>, t: State)
    requires Good(c, s) && !Complete(c, s) && AllOut(c, s) && !s.snd.readFailed
    ensures Good(c, t) && Reaches(c, e, hs, s, ht, t) && SenderOnly(s, t) && TheFin(c) in t.net
    ensures forall x: nat :: x < Total(c) ==> DataPdu(c, x) in t.net
  {
    hide Good, Reaches;
    ht, t := SendFin(c, e, hs, s);
    ReachNoReadError(c, e, hs, s, ht, t);
    FinMeansAll(c, t);
  }

  lemma FinMeansAll(c: Config, s: State)
    requires Good(c, s) && TheFin(c) in s.net && !s.snd.readFailed
    ensures s.snd.injected == Total(c)
  {
    hide HeardInv, OwnInv, FrontInv, StageInv, SinkInv, PoolInv, CountInv, ScanInv, FinishInv, SendInv, AskedInv, DoneInv;
    Parts(c, s);
    assert TruePacket(c, Limit(c, s.snd), Complete(c, s), TheFin(c));
  }

  lemma NoReadError(c: Config, s: State, st: Step)
    requires Enabled(c, s, st) && Smooth(st)
    ensures Apply(c, s, st).snd.readFailed == s.snd.readFailed && Apply(c, s, st).lost == s.lost
  {
    hide SenderApply, SenderEnabled, FbApply, WorkApply, DeliverApply, FlushApply, Total;
    match ActorOf(st)
    case TheSender =>
      SenderFrames(c, s, st);
      SenderShape(c, s, st);
    case TheNetwork =>
    case TheReporter => FeedbackShape(c, s, st);
    case TheFlusher => FlushShape(c, s);
    case TheWorkers =>
      if st.Work? {
        WorkShape(c, s, st.w);
      } else if st.Deliver? {
        DeliverShape(c, s, st.w, st.p, st.parsed);
      }
  }

  lemma {:induction false} SmoothLosesNothing(c: Config, e: Policy, h: seq<Step>, s: State, steps: seq<Step>, t: State)
    requires SmoothRun(c, e, h, s, steps, t)
    ensures t.snd.readFailed == s.snd.readFailed && t.lost == s.lost
    decreases |steps|
  {
    hide Enabled, Apply, Obeys;
    if steps != [] {
      NoReadError(c, s, steps[0]);
      SmoothLosesNothing(c, e, h + [steps[0]], Apply(c, s, steps[0]), steps[1..], t);
    }
  }

  lemma ReachNoReadError(c: Config, e: Policy, hs: seq<Step>, s: State, ht: seq<Step>, t: State)
    requires Reaches(c, e, hs, s, ht, t)
    ensures t.snd.readFailed == s.snd.readFailed && t.lost == s.lost
  {
    hide Follows;
    SmoothLosesNothing(c, e, hs, s, ht[|hs|..], t);
  }

  lemma PdusApart(c: Config, x: nat)
    ensures forall y: nat :: y != x ==> DataPdu(c, y) != DataPdu(c, x)
    ensures TheFin(c) != DataPdu(c, x)
  {
  }

  /** What taking in data leaves alone. */
  predicate DataOnly(s: State, t: State) {
    && t == s.(net := t.net, rcv := t.rcv, wk := t.wk, sink := t.sink)
    && t.net <= s.net && s.rcv.bm <= t.rcv.bm && s.rcv.stage.Keys <= t.rcv.stage.Keys
  }

  /** Take in those of the blocks from `x` up to `n` that have not arrived yet. */
  lemma {:induction false} HearRest(c: Config, e: Policy, hs: seq<Step>, s: State, x: nat, n: nat)
    returns (ht: seq<Step>, t: State)
    requires Good(c, s) && AllIdle(s.wk) && x <= n <= Total(c)
    requires forall y: nat :: x <= y < n ==> y in s.rcv.bm || DataPdu(c, y) in s.net
    ensures Good(c, t) && Reaches(c, e, hs, s, ht, t) && AllIdle(t.wk) && DataOnly(s, t)
    ensures TheFin(c) in s.net ==> TheFin(c) in t.net
    ensures forall y: nat :: y in t.rcv.bm <==> y in s.rcv.bm || x <= y < n
    decreases n - x
  {
    hide Good, Reaches, DataPdu, Total;
    if x == n {
      ht, t := hs, s;
      ReachSelf(c, e, hs, s);
    } else if x in s.rcv.bm {
      ht, t := HearRest(c, e, hs, s, x + 1, n);
    } else {
      var hm, m := HearData(c, e, hs, s, x);
      PdusApart(c, x);
      ht, t := HearRest(c, e, hm, m, x + 1, n);
      ReachJoin(c, e, hs, s, hm, m, ht, t);
    }
  }

  /** All data and FIN are heard and the workers are at rest, so all blocks are ready. */
  lemma HearEverything(c: Config, e: Policy, hs: seq<Step>, s: State) returns (ht: seq<Step>, t: State)
    requires Good(c, s) && AllIdle(s.wk) && TheFin(c) in s.net
    requires forall y: nat :: y < Total(c) ==> y in s.rcv.bm || DataPdu(c, y) in s.net
    ensures Good(c, t) && Reaches(c, e, hs, s, ht, t) && t.rcv.allSent
    ensures forall y: nat :: y < Total(c) ==> y in t.rcv.ready
    ensures t.fb == s.fb && t.fl == s.fl && t.snd == s.snd && t.net <= s.net && s.rcv.stage.Keys <= t.rcv.stage.Keys
  {
    hide Good, Reaches;
    var ha, a := HearRest(c, e, hs, s, 0, Total(c));
    ht, t := HearFin(c, e, ha, a);
    ReachJoin(c, e, hs, s, ha, a, ht, t);
    FlushFacts(c, t);
  }

  // ---- a read error, heard ----

  /** A read error makes the proviso of `NeverNacksUninjected` necessary, wherever it strikes:
      for every block of the file, under every policy, there is a run in which prefetch
      fails on the read of that block and the receiver then asks for a block that was never
      sent. */
  lemma ReadErrorNacksUnsent(c: Config, e: Policy, s: State, k: nat)
      returns (ht: seq<Step>, t: State, p: Packet, x: nat)
    requires Init(c, s) && k < Total(c)
    ensures Follows(c, e, [], s, ht, t) && t.snd.readFailed && t.snd.next == k
    ensures p in t.net && p.Feedback? && Genuine(c, p) && x in p.nacks && x >= t.snd.injected
  {
    hide Follows, Init, Reaches, Inv, Agrees, AllOut, DataPdu;
    var ha, a := FailRead(c, e, s, k);
    var hd, d := HearSent(c, e, ha, a);
    var hf, f := FullTick(c, e, hd, d);
    ReachJoin(c, e, ha, a, hd, d, hf, f);
    FbFacts(c, f);
    SentIsRead(c, d);
    var entry := EntryOf(f.fb.sc, f.rcv.bm, Scanned(f.fb), k);
    ht, t, p, x := NackOne(c, e, hf, f, entry);
    ReachJoin(c, e, ha, a, hf, f, ht, t);
    GoesOn(c, e, s, ha, a, ht, t);
    ReachNextFixed(c, e, ha, a, ht, t);
  }

  /** FIN is sent, and all that was ever sent is heard. */
  lemma HearSent(c: Config, e: Policy, hs: seq<Step>, s: State) returns (ht: seq<Step>, t: State)
    requires Good(c, s) && !Complete(c, s) && AllOut(c, s) && AllIdle(s.wk)
    requires s.rcv.bm == {} && s.fl.flushed == 0 && s.snd.pf.Exited? && s.snd.next < Total(c)
    ensures Good(c, t) && Reaches(c, e, hs, s, ht, t) && !Complete(c, t) && t.rcv.allSent
    ensures forall y: nat :: y in t.rcv.bm <==> y < t.snd.injected
    ensures t.snd.next == s.snd.next && t.snd.injected <= t.snd.next
  {
    hide Good, Reaches, AllOut, DataPdu, Total;
    var ha, a := SendFin(c, e, hs, s);
    ReachNextFixed(c, e, hs, s, ha, a);
    SentIsRead(c, a);
    SentIsOut(c, a);
    var hb, b := HearRest(c, e, ha, a, 0, a.snd.injected);
    ReachJoin(c, e, hs, s, ha, a, hb, b);
    ht, t := HearFin(c, e, hb, b);
    ReachJoin(c, e, hs, s, hb, b, ht, t);
  }

  lemma SentIsOut(c: Config, s: State)
    requires AllOut(c, s)
    ensures forall x: nat :: x < s.snd.injected ==> DataPdu(c, x) in s.net
  {
  }

  // ---- the first DONE lags ----

  lemma StopAtOnce(c: Config, e: Policy, s: State) returns (ht: seq<Step>, t: State)
    requires Init(c, s) && Total(c) > 0
    ensures Follows(c, e, [], s, ht, t) && Good(c, t) && AllOut(c, t) && AllIdle(t.wk) && !Complete(c, t)
    ensures !t.snd.readFailed && t.fb.pc.LoadMax? && t.fb.sc.hi == 0
  {
    hide Follows, Inv;
    Begin(c, e, s);
    var ha, a := Then(c, e, s, [], s, TickOf(e, [], s.fb));
    ht, t := Then(c, e, s, ha, a, Fb);
  }

  /** The first DONE may carry a contiguous mark short of the file: in every transfer of a
      file that is not empty, under every policy, some run sends such a DONE. */
  lemma FirstDoneMayLag(c: Config, e: Policy, s: State) returns (ht: seq<Step>, t: State, p: Packet)
    requires Init(c, s) && Total(c) > 0
    ensures Follows(c, e, [], s, ht, t)
    ensures p in t.net && SaysDone(c, p) && p.hi < Total(c)
  {
    hide Follows, Init, Reaches, Good, AllOut, SaysDone;
    var ha, a := StopAtOnce(c, e, s);
    var hb, b := SendEverything(c, e, ha, a);
    var hd, d := HearEverything(c, e, hb, b);
    ReachJoin(c, e, ha, a, hb, b, hd, d);
    var hf, f := FlushAll(c, e, hd, d);
    ReachJoin(c, e, ha, a, hd, d, hf, f);
    ht, t, p := PromisedDone(c, e, hf, f);
    ReachJoin(c, e, ha, a, hf, f, ht, t);
    GoesOn(c, e, s, ha, a, ht, t);
  }

  // ---- a flusher write fails ----

  /** Is block `i` still to be written by the flusher? */
  predicate Ahead(s: State, i: nat) {
    i in s.rcv.stage || (s.fl.pc.Writing? && s.fl.front == i)
  }

  lemma FlushAhead(c: Config, s: State, i: nat)
    requires FrontInv(c, s.rcv, s.fl) && i < Total(c) && i in s.rcv.stage
    requires s.fl.front <= i && (TookFront(s.fl.pc) ==> s.fl.front != i)
    requires forall y: nat :: y < Total(c) ==> y in s.rcv.ready
    requires s.fl.pc.ReturningBuf? ==> s.rcv.free < StageDepth(c)
    ensures FlushEnabled(c, s, Flush)
    ensures var t := FlushApply(c, s);
      && Ahead(t, i) && t.fl.front <= Total(c)
      && (t.fl.front > s.fl.front || (t.fl.front == s.fl.front && FlushRank(t.fl.pc) < FlushRank(s.fl.pc)))
  {
    hide WriteAt, StageDepth, Total;
  }

  /** Run the flusher until it is about to write block `i`. */
  lemma {:induction false} FlushUpTo(c: Config, e: Policy, hs: seq<Step>, s: State, i: nat)
    returns (ht: seq<Step>, t: State)
    requires Good(c, s) && i < Total(c) && Ahead(s, i)
    requires forall y: nat :: y < Total(c) ==> y in s.rcv.ready
    ensures Good(c, t) && Reaches(c, e, hs, s, ht, t) && t.fl.pc.Writing? && t.fl.front == i
    ensures t.rcv.ready == s.rcv.ready && t.rcv.allSent == s.rcv.allSent
    decreases Total(c) - s.fl.front, FlushRank(s.fl.pc)
  {
    hide Good, Reaches, FlushApply, FlushRank, Total;
    if s.fl.pc.Writing? && s.fl.front == i {
      ht, t := hs, s;
      ReachSelf(c, e, hs, s);
    } else {
      FlushFacts(c, s);
      StagedAhead(c, s, i);
      FlushAhead(c, s, i);
      FlushShape(c, s);
      var hm, m := GoFlush(c, e, hs, s);
      ht, t := FlushUpTo(c, e, hm, m, i);
      ReachJoin(c, e, hs, s, hm, m, ht, t);
    }
  }

  lemma StagedAhead(c: Config, s: State, i: nat)
    requires Good(c, s) && i in s.rcv.stage
    ensures s.fl.front <= i && (TookFront(s.fl.pc) ==> s.fl.front != i)
  {
    hide HeardInv, OwnInv, FrontInv, SinkInv, PoolInv, CountInv, ScanInv, FinishInv, SendInv, AskedInv, DoneInv, NetInv;
    Parts(c, s);
  }

  lemma FailAt(c: Config, e: Policy, s0: State, ha: seq<Step>, a: State, k: nat) returns (ht: seq<Step>, t: State)
    requires Follows(c, e, [], s0, ha, a) && Good(c, a) && a.lost == map[]
    requires a.fl.pc.Writing? && k <= |a.fl.pc.buf|
    ensures Follows(c, e, [], s0, ht, t) && Good(c, t) && t.lost == map[a.fl.front := k]
    ensures t.rcv == a.rcv
  {
    hide Follows, Inv;
    ht, t := Then(c, e, s0, ha, a, FlushFail(k));
  }

  lemma WritingIsBlock(c: Config, s: State)
    requires Good(c, s) && s.fl.pc.Writing?
    ensures |s.fl.pc.buf| == BlockLen(|c.src|, c.bs, s.fl.front)
  {
    hide Inv;
    FrontFacts(c, s);
  }

  /** A flusher write may fail anywhere: in every transfer, under every policy, for every
      block and every number of bytes of it, some run ends complete with just that write
      cut short there. The sink then equals the source exactly if the rest of the block was
      right before the transfer. */
  lemma FailedFlushShows(c: Config, e: Policy, s: State, i: nat, k: nat) returns (ht: seq<Step>, t: State)
    requires Init(c, s) && i < Total(c) && k <= BlockLen(|c.src|, c.bs, i)
    ensures Follows(c, e, [], s, ht, t) && Complete(c, t) && t.lost == map[i := k]
    ensures t.sink == c.src <==> Block(s.sink, c.bs, i)[k..] == Block(c.src, c.bs, i)[k..]
  {
    hide Follows, Init, Reaches, Good, AllOut, Block;
    var ha, a := BlockFirst(c, e, s, i);
    var hb, b := FlushUpTo(c, e, ha, a, i);
    GoesOn(c, e, s, ha, a, hb, b);
    ReachNoReadError(c, e, ha, a, hb, b);
    WritingIsBlock(c, b);
    var hd, d := FailAt(c, e, s, hb, b, k);
    ht, t := FlushAll(c, e, hd, d);
    GoesOn(c, e, s, hd, d, ht, t);
    ReachNoReadError(c, e, hd, d, ht, t);
    FollowsRuns(c, e, [], s, ht, t);
    SinkAtCompletion(c, s, ht, t);
  }

  /** Everything is sent and heard, block `i` first, so that it finds a buffer to wait in. */
  lemma BlockFirst(c: Config, e: Policy, s: State, i: nat) returns (ht: seq<Step>, t: State)
    requires Init(c, s) && i < Total(c)
    ensures Follows(c, e, [], s, ht, t) && Good(c, t) && t.lost == map[] && t.rcv.allSent && i in t.rcv.stage
    ensures forall y: nat :: y < Total(c) ==> y in t.rcv.ready
  {
    hide Init, Follows, Reaches, Good, AllOut, DataPdu, NumBlocks;
    Begin(c, e, s);
    EmptyHanded(c, s);
    var ha, a := SendEverything(c, e, [], s);
    var hb, b := HearData(c, e, ha, a, i);
    ReachJoin(c, e, [], s, ha, a, hb, b);
    PdusApart(c, i);
    ht, t := HearEverything(c, e, hb, b);
    ReachJoin(c, e, [], s, hb, b, ht, t);
    GoesOn(c, e, s, [], s, ht, t);
    ReachNoReadError(c, e, [], s, ht, t);
  }

  lemma EmptyHanded(c: Config, s: State)
    requires Init(c, s)
    ensures s.lost == map[] && !s.snd.readFailed && s.rcv.bm == {} && s.rcv.free > 0
  {
  }

  // ---- every DONE is lost ----

  /** Nothing that says DONE has been heard or is in flight. */
  ghost predicate Unheard(c: Config, s: State) {
    !Told(s.snd) && !InFlight(c, s.net)
  }

  lemma UnheardBefore(c: Config, s: State)
    requires Inv(c, s) && !Complete(c, s)
    ensures Unheard(c, s)
  {
    hide HeardInv, OwnInv, FrontInv, StageInv, SinkInv, PoolInv, CountInv, ScanInv, FinishInv, SendInv, AskedInv;
    Parts(c, s);
    forall p | p in s.net
      ensures !SaysDone(c, p)
    {
      assert TruePacket(c, Limit(c, s.snd), false, p);
    }
  }

  lemma UnheardStays(c: Config, s: State, t: State)
    requires Unheard(c, s) && t.snd == s.snd && t.net <= s.net
    ensures Unheard(c, t)
  {
    assert forall p :: p in t.net ==> p in s.net;
  }

  /** Everything is received and written without a single report. */
  lemma CompleteUnheard(c: Config, e: Policy, s: State) returns (ht: seq<Step>, t: State)
    requires Init(c, s)
    ensures Follows(c, e, [], s, ht, t) && Good(c, t) && Complete(c, t) && Unheard(c, t)
    ensures t.fb.pc.Sleeping? && t.fb.doneSends == 0
  {
    Begin(c, e, s);
    hide Init, Follows, Reaches, Good, AllOut, DataPdu, NumBlocks, Unheard;
    var ha, a := SendEverything(c, e, [], s);
    GoodIsInv(c, a);
    UnheardBefore(c, a);
    var hb, b := HearEverything(c, e, ha, a);
    UnheardStays(c, a, b);
    ReachJoin(c, e, [], s, ha, a, hb, b);
    ht, t := FlushAll(c, e, hb, b);
    UnheardStays(c, b, t);
    ReachJoin(c, e, [], s, hb, b, ht, t);
    GoesOn(c, e, s, [], s, ht, t);
  }

  lemma GoodIsInv(c: Config, s: State)
    requires Good(c, s)
    ensures Inv(c, s)
  {
    hide Inv;
  }

  /** One more DONE is said, lost, and counted. */
  lemma LoseDone(c: Config, e: Policy, s0: State, hs: seq<Step>, s: State) returns (ht: seq<Step>, t: State)
    requires Follows(c, e, [], s0, hs, s) && Good(c, s) && Complete(c, s) && Unheard(c, s)
    requires s.fb.pc.Sleeping? && s.fb.doneSends < DONE_SENDS
    ensures Follows(c, e, [], s0, ht, t) && Good(c, t) && Complete(c, t) && Unheard(c, t)
    ensures t.fb.doneSends == s.fb.doneSends + 1
    ensures if t.fb.doneSends < DONE_SENDS then t.fb.pc.Sleeping? else t.fb.pc.Gone?
  {
    hide Follows, Reaches, Good, Unheard, SaysDone, Promising;
    var ha, a := WakeUp(c, e, hs, s);
    var hb, b, p := PromisedDone(c, e, ha, a);
    ReachJoin(c, e, hs, s, ha, a, hb, b);
    GoesOn(c, e, s0, hs, s, hb, b);
    var hd, d := DropIt(c, e, s0, hb, b, p);
    assert d.net == s.net;
    UnheardStays(c, s, d);
    ht, t := CountDone(c, e, s0, hd, d);
    UnheardStays(c, d, t);
  }

  lemma DropIt(c: Config, e: Policy, s0: State, hs: seq<Step>, s: State, p: Packet) returns (ht: seq<Step>, t: State)
    requires Follows(c, e, [], s0, hs, s) && Good(c, s) && p in s.net
    ensures Follows(c, e, [], s0, ht, t) && Good(c, t) && t == s.(net := s.net - multiset{p})
  {
    hide Follows, Inv;
    ht, t := Then(c, e, s0, hs, s, Drop(p));
  }

  lemma CountDone(c: Config, e: Policy, s0: State, hs: seq<Step>, s: State) returns (ht: seq<Step>, t: State)
    requires Follows(c, e, [], s0, hs, s) && Good(c, s) && Complete(c, s)
    requires s.fb.pc.Counting? && s.fb.complete && s.fb.doneSends < DONE_SENDS
    ensures Follows(c, e, [], s0, ht, t) && Good(c, t) && Complete(c, t) && t.snd == s.snd && t.net == s.net
    ensures t.fb.doneSends == s.fb.doneSends + 1
    ensures if t.fb.doneSends < DONE_SENDS then t.fb.pc.Sleeping? else t.fb.pc.Gone?
  {
    hide Follows, Inv, Look, Collect;
    ht, t := Then(c, e, s0, hs, s, Fb);
  }

  lemma {:induction false} LoseDones(c: Config, e: Policy, s0: State, hs: seq<Step>, s: State)
    returns (ht: seq<Step>, t: State)
    requires Follows(c, e, [], s0, hs, s) && Good(c, s) && Complete(c, s) && Unheard(c, s)
    requires s.fb.pc.Sleeping? && s.fb.doneSends < DONE_SENDS
    ensures Follows(c, e, [], s0, ht, t) && Good(c, t) && Complete(c, t) && Unheard(c, t) && t.fb.pc.Gone?
    decreases DONE_SENDS - s.fb.doneSends
  {
    hide Follows, Good, Unheard;
    ht, t := LoseDone(c, e, s0, hs, s);
    if t.fb.doneSends < DONE_SENDS {
      ht, t := LoseDones(c, e, s0, ht, t);
    }
  }

  /** All eight DONEs may be lost: in every transfer, under every policy, some run ends with
      the file complete, no direct write failed and the receiver gone, and yet the sender
      does not finish, then or in any continuation. */
  lemma AllDonesMayBeLost(c: Config, e: Policy, s: State) returns (ht: seq<Step>, t: State)
    requires Init(c, s)
    ensures Follows(c, e, [], s, ht, t) && Complete(c, t) && t.stuck == {} && t.rcv.done && !CanHear(c, t)
    ensures forall steps, u :: Runs(c, t, steps, u) ==> !u.snd.pacing.Left?
  {
    hide Init, Follows, Inv, Unheard, Runs;
    var ha, a := CompleteUnheard(c, e, s);
    ht, t := LoseDones(c, e, s, ha, a);
    GoneIsDone(c, t);
    NothingToHear(c, t);
    forall steps, u | Runs(c, t, steps, u)
      ensures !u.snd.pacing.Left?
    {
      QuietRun(c, t, steps, u);
      NotTold(c, u);
    }
  }

  lemma GoneIsDone(c: Config, s: State)
    requires Good(c, s) && s.fb.pc.Gone?
    ensures s.rcv.done
  {
    hide HeardInv, OwnInv, FrontInv, StageInv, SinkInv, PoolInv, CountInv, ScanInv, NetInv, SendInv, AskedInv, DoneInv;
    Parts(c, s);
  }

  lemma NothingToHear(c: Config, s: State)
    requires Unheard(c, s) && s.fb.pc.Gone?
    ensures !CanHear(c, s)
  {
  }
}
