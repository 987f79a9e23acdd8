/** A transfer never wedges: from every reachable state in which no direct write has
    failed, the threads can carry the transfer to completion without any further
    help from luck, and if one has failed nothing can. */
module TransferProgress {
  import opened Blocks
  import opened LossTracker
  import opened Prelude
  import opened TransferModel
  import opened TransferInvariant
  import opened TransferPolicy
  import opened TransferSafety
  import opened TransferTheorems

  /** From `s`, reached by the steps `hs`, the policy's own run `ht` goes on to `t` without
      loss, forgery or failure. */
  predicate Reaches(c: Config, e: Policy, hs: seq<Step>, s: State, ht: seq<Step>, t: State) {
    hs <= ht && SmoothRun(c, e, hs, s, ht[|hs|..], t)
  }

  lemma ReachSelf(c: Config, e: Policy, hs: seq<Step>, s: State)
    ensures Reaches(c, e, hs, s, hs, s)
  {
    assert hs[|hs|..] == [];
  }

  lemma ReachJoin(c: Config, e: Policy, hs: seq<Step>, s: State, ht: seq<Step>, t: State, hu: seq<Step>, u: State)
    requires Reaches(c, e, hs, s, ht, t) && Reaches(c, e, ht, t, hu, u)
    ensures Reaches(c, e, hs, s, hu, u)
  {
    hide Follows;
    var a, b := ht[|hs|..], hu[|ht|..];
    assert hs + a == ht && a + b == hu[|hs|..];
    FollowsJoin(c, e, hs, s, a, t, b, u);
  }

  /** A state the induction walks through. */
  ghost predicate Good(c: Config, s: State) {
    Inv(c, s) && s.stuck == {}
  }

  /** Take one step. */
  lemma Go(c: Config, e: Policy, hs: seq<Step>, s: State, st: Step) returns (ht: seq<Step>, t: State)
    requires Good(c, s) && Enabled(c, s, st) && Smooth(st) && Obeys(c, e, hs, s, st)
    ensures t == Apply(c, s, st) && Good(c, t) && ht == hs + [st] && Reaches(c, e, hs, s, ht, t)
  {
    hide Inv, Apply, Enabled, Obeys;
    ht, t := hs + [st], Apply(c, s, st);
    StepKeeps(c, s, st);
    StuckStep(c, s, st);
    FollowsOne(c, e, hs, s, st);
    assert ht[|hs|..] == [st];
  }

  lemma GoDeliver(c: Config, e: Policy, hs: seq<Step>, s: State, p: Packet) returns (ht: seq<Step>, t: State)
    requires Good(c, s) && |s.wk| > 0 && s.wk[0].Idle? && p in s.net && !p.Feedback?
    ensures t == DeliverApply(c, s, 0, p, true) && Good(c, t) && Reaches(c, e, hs, s, ht, t)
  {
    hide Good, Reaches, DeliverApply;
    ht, t := Go(c, e, hs, s, Deliver(0, p, true));
  }

  lemma GoWork(c: Config, e: Policy, hs: seq<Step>, s: State, w: nat) returns (ht: seq<Step>, t: State)
    requires Good(c, s) && w < |s.wk| && !s.wk[w].Idle?
    ensures t == WorkApply(c, s, w) && Good(c, t) && Reaches(c, e, hs, s, ht, t)
  {
    hide Good, Reaches, WorkApply;
    ht, t := Go(c, e, hs, s, Work(w));
  }

  lemma GoFlush(c: Config, e: Policy, hs: seq<Step>, s: State) returns (ht: seq<Step>, t: State)
    requires Good(c, s) && FlushEnabled(c, s, Flush)
    ensures t == FlushApply(c, s) && Good(c, t) && Reaches(c, e, hs, s, ht, t)
  {
    hide Good, Reaches, FlushApply;
    ht, t := Go(c, e, hs, s, Flush);
  }

  lemma GoFb(c: Config, e: Policy, hs: seq<Step>, s: State, st: Step) returns (ht: seq<Step>, t: State)
    requires Good(c, s) && FbEnabled(c, s, st) && Obeys(c, e, hs, s, st)
    ensures t == FbApply(c, s, st) && Good(c, t) && Reaches(c, e, hs, s, ht, t)
  {
    hide Good, Reaches, FbApply;
    ht, t := Go(c, e, hs, s, st);
  }

  lemma GoSend(c: Config, e: Policy, hs: seq<Step>, s: State, st: Step) returns (ht: seq<Step>, t: State)
    requires Good(c, s) && SenderEnabled(c, s, st) && Smooth(st) && Obeys(c, e, hs, s, st)
    ensures t == SenderApply(c, s, st) && Good(c, t) && Reaches(c, e, hs, s, ht, t)
  {
    hide Good, Reaches, SenderApply, SenderEnabled;
    SenderStep(c, s, st);
    ht, t := Go(c, e, hs, s, st);
  }

  lemma SenderStep(c: Config, s: State, st: Step)
    requires SenderEnabled(c, s, st)
    ensures ActorOf(st).TheSender?
  {
    hide PrefetchEnabled, BuildEnabled;
  }

  // ---- ingest workers run dry ----

  function WorkLeft(w: Worker): nat {
    match w
    case Idle => 0
    case FinSeen => 1
    case Fresh(_, _) => 9
    case Seen(_, _) => 8
    case Raised(_, _) => 7
    case Won(_, _) => 6
    case Counted(_, _) => 5
    case Tallied(_, _) => 4
    case Buffered(_, _) => 3
    case Direct(_, _) => 3
    case Staged(_) => 1
    case Wrote(_) => 1
  }

  predicate AllIdle(wk: seq<Worker>) {
    forall k :: 0 <= k < |wk| ==> wk[k].Idle?
  }

  /** What ingest may change, and in which direction. */
  predicate IngestOnly(s: State, t: State) {
    && t == s.(rcv := t.rcv, wk := t.wk, sink := t.sink) && |t.wk| == |s.wk|
    && s.rcv.bm <= t.rcv.bm && s.rcv.stage.Keys <= t.rcv.stage.Keys
    && (s.rcv.allSent ==> t.rcv.allSent) && (s.rcv.peer.Some? ==> t.rcv.peer.Some?)
  }

  lemma WorkShrinks(r: Receiver, w: Worker)
    requires !w.Idle?
    ensures WorkLeft(WorkNext(r, w)) < WorkLeft(w)
  {
  }

  lemma WorkGrows(r: Receiver, w: Worker)
    ensures var q := WorkShared(r, w);
      && r.bm <= q.bm && r.stage.Keys <= q.stage.Keys && (r.allSent ==> q.allSent) && q.peer == r.peer
      && (w.Raised? ==> w.sn in q.bm) && (w.FinSeen? ==> q.allSent)
  {
  }

  lemma WorkStep(c: Config, s: State, w: nat)
    requires w < |s.wk| && !s.wk[w].Idle?
    ensures var t := WorkApply(c, s, w); IngestOnly(s, t) && WorkLeft(t.wk[w]) < WorkLeft(s.wk[w])
    ensures var t := WorkApply(c, s, w); t.wk == s.wk[w := t.wk[w]]
    ensures var t := WorkApply(c, s, w);
      (s.wk[w].Fresh? || s.wk[w].Seen? ==> (t.wk[w].Seen? || t.wk[w].Raised?) && t.wk[w].sn == s.wk[w].sn)
      && (s.wk[w].Raised? ==> s.wk[w].sn in t.rcv.bm)
      && (s.wk[w].FinSeen? ==> t.rcv.allSent)
  {
    hide WorkShared, WorkLeft, WriteAt;
    WorkShrinks(s.rcv, s.wk[w]);
    WorkGrows(s.rcv, s.wk[w]);
  }

  /** Will block `sn` be in the bitmap once worker `w` has finished? */
  predicate Bound(s: State, w: nat, sn: nat)
    requires w < |s.wk|
  {
    sn in s.rcv.bm || ((s.wk[w].Fresh? || s.wk[w].Seen? || s.wk[w].Raised?) && s.wk[w].sn == sn)
  }

  lemma BoundSteps(c: Config, s: State, w: nat)
    requires w < |s.wk| && !s.wk[w].Idle?
    ensures |WorkApply(c, s, w).wk| == |s.wk|
    ensures forall sn: nat :: Bound(s, w, sn) <==> Bound(WorkApply(c, s, w), w, sn)
  {
    hide WriteAt;
  }

  /** Will block `sn` be in the stage once worker `w` has finished, if no other one runs? */
  predicate StageBound(s: State, w: nat, sn: nat)
    requires w < |s.wk|
  {
    || sn in s.rcv.stage
    || (s.wk[w].Buffered? && s.wk[w].sn == sn)
    || (s.rcv.free > 0 && (s.wk[w].Won? || s.wk[w].Counted? || s.wk[w].Tallied?) && s.wk[w].sn == sn)
    || (s.rcv.free > 0 && sn !in s.rcv.bm && (s.wk[w].Fresh? || s.wk[w].Seen? || s.wk[w].Raised?) && s.wk[w].sn == sn)
  }

  lemma StageStep(c: Config, s: State, w: nat, sn: nat)
    requires w < |s.wk| && StageBound(s, w, sn)
    ensures WorkApply(c, s, w).wk == s.wk[w := WorkApply(c, s, w).wk[w]]
    ensures StageBound(WorkApply(c, s, w), w, sn)
  {
  }

  lemma StageSteps(c: Config, s: State, w: nat)
    requires w < |s.wk|
    ensures |WorkApply(c, s, w).wk| == |s.wk|
    ensures forall sn: nat :: StageBound(s, w, sn) ==> StageBound(WorkApply(c, s, w), w, sn)
  {
    WorkShape(c, s, w);
    hide WorkApply, StageBound;
    forall sn: nat | StageBound(s, w, sn)
      ensures StageBound(WorkApply(c, s, w), w, sn)
    {
      StageStep(c, s, w, sn);
    }
  }

  /** Run worker `w` until it is idle. */
  lemma {:induction false} DrainOne(c: Config, e: Policy, hs: seq<Step>, s: State, w: nat)
    returns (ht: seq<Step>, t: State)
    requires Good(c, s) && w < |s.wk|
    ensures Good(c, t) && Reaches(c, e, hs, s, ht, t) && IngestOnly(s, t)
    ensures t.wk == s.wk[w := Idle]
    ensures s.wk[w].FinSeen? ==> t.rcv.allSent
    ensures forall sn: nat :: Bound(s, w, sn) <==> sn in t.rcv.bm
    ensures forall sn: nat :: StageBound(s, w, sn) ==> sn in t.rcv.stage
    decreases WorkLeft(s.wk[w])
  {
    hide Good, Reaches, WorkApply;
    if s.wk[w].Idle? {
      ht, t := hs, s;
      ReachSelf(c, e, hs, s);
    } else {
      WorkStep(c, s, w);
      StageSteps(c, s, w);
      BoundSteps(c, s, w);
      var hm, m := GoWork(c, e, hs, s, w);
      ht, t := DrainOne(c, e, hm, m, w);
      ReachJoin(c, e, hs, s, hm, m, ht, t);
    }
  }

  lemma {:induction false} DrainFrom(c: Config, e: Policy, hs: seq<Step>, s: State, w: nat)
    returns (ht: seq<Step>, t: State)
    requires Good(c, s) && w <= |s.wk|
    requires forall k :: 0 <= k < w ==> s.wk[k].Idle?
    ensures Good(c, t) && Reaches(c, e, hs, s, ht, t) && IngestOnly(s, t) && AllIdle(t.wk)
    decreases |s.wk| - w
  {
    hide Good, Reaches;
    if w == |s.wk| {
      ht, t := hs, s;
      ReachSelf(c, e, hs, s);
    } else {
      var hm, m := DrainOne(c, e, hs, s, w);
      ht, t := DrainFrom(c, e, hm, m, w + 1);
      ReachJoin(c, e, hs, s, hm, m, ht, t);
    }
  }

  lemma Drain(c: Config, e: Policy, hs: seq<Step>, s: State) returns (ht: seq<Step>, t: State)
    requires Good(c, s)
    ensures Good(c, t) && Reaches(c, e, hs, s, ht, t) && IngestOnly(s, t) && AllIdle(t.wk)
  {
    ht, t := DrainFrom(c, e, hs, s, 0);
  }

  // ---- the sender reaches FIN ----

  predicate SenderOnly(s: State, t: State) {
    t == s.(snd := t.snd, net := t.net) && s.net <= t.net
  }

  function TheFin(c: Config): Packet {
    Fin(c.sender, c.session, Total(c))
  }

  lemma SenderFacts(c: Config, s: State)
    requires Good(c, s)
    ensures SendInv(c, s.snd) && AskedInv(c, s.snd)
    ensures s.snd.done || s.snd.pacing.Left? ==> Complete(c, s)
    ensures s.snd.free + s.snd.used <= SEND_POOL
    ensures s.snd.pacing.AtTop? && PfWaits(c, s.snd) && s.snd.ready == [] ==> s.snd.pf.Exited?
  {
    assert SendInv(c, s.snd) ==> s.snd.free + s.snd.used <= SEND_POOL;
    assert SendInv(c, s.snd) && s.snd.pacing.AtTop? && PfWaits(c, s.snd) && s.snd.ready == [] ==> s.snd.pf.Exited?;
    hide HeardInv, OwnInv, FrontInv, StageInv, SinkInv, PoolInv, CountInv, ScanInv, FinishInv, NetInv, SendInv, AskedInv;
    Parts(c, s);
  }

  function Unread(c: Config, d: Sender): nat {
    if d.next <= Total(c) then Total(c) - d.next else 0
  }

  function PfRank(p: Prefetch): nat {
    match p
    case Borrowing => 2
    case Holding => 1
    case Exited => 0
  }

  function Queue(d: Sender): nat {
    |d.ready| + |d.rex| + if d.newDone then 0 else 1
  }

  function Cycle(p: Pacing): nat {
    match p
    case AtTop => 0
    case FinCheck => 1
    case Returning => 2
    case Flushing => 3
    case TryNew => 4
    case Building => 5
    case Left => 0
  }

  /** Prefetch has nothing it can do: it has left, or it waits for a buffer. */
  predicate PfWaits(c: Config, d: Sender) {
    d.pf.Exited? || (d.pf.Borrowing? && d.next < Total(c) && d.free == 0)
  }

  function PfStep(c: Config, d: Sender): Step {
    if d.pf.Holding? then PfPublish else if d.next >= Total(c) then PfEnd else PfBorrow
  }

  lemma PrefetchMoves(c: Config, s: State)
    requires SendInv(c, s.snd) && !PfWaits(c, s.snd)
    ensures SenderEnabled(c, s, PfStep(c, s.snd)) && Smooth(PfStep(c, s.snd))
    ensures var t := SenderApply(c, s, PfStep(c, s.snd));
      && t == s.(snd := t.snd)
      && (Unread(c, t.snd) < Unread(c, s.snd)
          || (Unread(c, t.snd) == Unread(c, s.snd) && PfRank(t.snd.pf) < PfRank(s.snd.pf)))
  {
  }

  /** The pacing loop's next step below the top of the loop. */
  function PaceStep(d: Sender): Step {
    match d.pacing
    case Building => if d.built >= d.toSend then BatchFull else if d.rex != {} then PopRex(true) else RexEmpty
    case TryNew =>
      if d.newDone then NewBreak else if d.ready != [] then TakeNew
      else if d.pf.Exited? then Disconnected else NoneReady
    case Flushing => FlushBatch
    case Returning => ReturnBufs
    case FinCheck => AnnounceFin
    case AtTop => PaceLeave
    case Left => PaceLeave
  }

  predicate Shortens(s: State, t: State) {
    && SenderOnly(s, t) && t.snd.next == s.snd.next && t.snd.pf == s.snd.pf
    && (Queue(t.snd) < Queue(s.snd) || (Queue(t.snd) == Queue(s.snd) && Cycle(t.snd.pacing) < Cycle(s.snd.pacing)))
  }

  lemma BuildMoves(c: Config, s: State)
    requires (s.snd.pacing.Building? || s.snd.pacing.TryNew?)
    ensures SenderEnabled(c, s, PaceStep(s.snd)) && Smooth(PaceStep(s.snd))
    ensures Shortens(s, SenderApply(c, s, PaceStep(s.snd)))
  {
    hide Refill, DataPdu, Total, MinOf, Queue, BuildApply, Cycle;
    BuildFrame(c, s.snd, PaceStep(s.snd));
    BuildShrinks(c, s.snd);
  }

  lemma RexShrinks(c: Config, d: Sender)
    requires BuildEnabled(d, PopRex(true))
    ensures Queue(BuildApply(c, d, PopRex(true))) < Queue(d)
  {
    hide Refill, DataPdu, MinOf;
    Without(d.rex, MinOf(d.rex));
  }

  lemma Without(s: set<nat>, m: nat)
    requires m in s
    ensures |s - {m}| == |s| - 1
  {
  }

  lemma ReadyShrinks(c: Config, d: Sender)
    requires BuildEnabled(d, TakeNew)
    ensures Queue(BuildApply(c, d, TakeNew)) < Queue(d)
  {
    hide DataPdu;
  }

  lemma PhaseFalls(c: Config, d: Sender, st: Step)
    requires BuildEnabled(d, st)
    requires st.BatchFull? || st.RexEmpty? || st.NewBreak? || st.NoneReady? || st.Disconnected?
    ensures var e := BuildApply(c, d, st);
      Queue(e) < Queue(d) || (Queue(e) == Queue(d) && Cycle(e.pacing) < Cycle(d.pacing))
  {
  }

  lemma BuildShrinks(c: Config, d: Sender)
    requires (d.pacing.Building? || d.pacing.TryNew?)
    ensures BuildStep(PaceStep(d)) && BuildEnabled(d, PaceStep(d))
    ensures var e := BuildApply(c, d, PaceStep(d));
      Queue(e) < Queue(d) || (Queue(e) == Queue(d) && Cycle(e.pacing) < Cycle(d.pacing))
  {
    hide BuildApply, Queue, Cycle;
    var st := PaceStep(d);
    if st.PopRex? {
      RexShrinks(c, d);
    } else if st.TakeNew? {
      ReadyShrinks(c, d);
    } else {
      PhaseFalls(c, d, st);
    }
  }

  lemma TailMoves(c: Config, s: State)
    requires s.snd.free + s.snd.used <= SEND_POOL
    requires s.snd.pacing.Flushing? || s.snd.pacing.Returning? || s.snd.pacing.FinCheck?
    ensures SenderEnabled(c, s, PaceStep(s.snd)) && Smooth(PaceStep(s.snd))
    ensures Shortens(s, SenderApply(c, s, PaceStep(s.snd)))
  {
  }

  lemma PaceMoves(c: Config, s: State)
    requires s.snd.free + s.snd.used <= SEND_POOL && !s.snd.pacing.AtTop? && !s.snd.pacing.Left?
    ensures SenderEnabled(c, s, PaceStep(s.snd)) && Smooth(PaceStep(s.snd))
    ensures Shortens(s, SenderApply(c, s, PaceStep(s.snd)))
  {
    hide SenderEnabled, SenderApply, Shortens, PaceStep, Smooth;
    if s.snd.pacing.Building? || s.snd.pacing.TryNew? {
      BuildMoves(c, s);
    } else {
      TailMoves(c, s);
    }
  }

  /** No block sent so far has left the network: each is there or in the batch. */
  predicate AllOut(c: Config, s: State) {
    && (forall x: nat :: x < s.snd.injected ==> DataPdu(c, x) in s.net)
    && (forall x: nat :: s.snd.injected <= x < s.snd.injected + s.snd.brandNew ==> DataPdu(c, x) in s.snd.batch)
  }

  lemma BuildOut(c: Config, d: Sender, st: Step)
    requires SendInv(c, d) && BuildEnabled(d, st)
    requires forall x: nat :: d.injected <= x < d.injected + d.brandNew ==> DataPdu(c, x) in d.batch
    ensures var t := BuildApply(c, d, st);
      forall x: nat :: t.injected <= x < t.injected + t.brandNew ==> DataPdu(c, x) in t.batch
  {
    hide DataPdu, Refill, MinOf, IsOwnData;
  }

  lemma OutStays(c: Config, s: State, st: Step)
    requires SendInv(c, s.snd) && SenderEnabled(c, s, st) && !st.InRecv? && AllOut(c, s)
    ensures AllOut(c, SenderApply(c, s, st))
  {
    hide DataPdu, BuildApply, SendInv, Genuine, Total;
    if BuildStep(st) {
      BuildFrame(c, s.snd, st);
      BuildOut(c, s.snd, st);
    }
  }

  lemma OutStep(c: Config, s: State, st: Step)
    requires Good(c, s) && SenderEnabled(c, s, st) && !st.InRecv?
    ensures AllOut(c, s) ==> AllOut(c, SenderApply(c, s, st))
  {
    hide Good, SenderEnabled, SenderApply, SendInv, AskedInv, AllOut;
    SenderFacts(c, s);
    if AllOut(c, s) {
      OutStays(c, s, st);
    }
  }

  /** From the top of the loop with prefetch waiting, one round either shortens the
      queue or announces FIN: an empty ready channel with prefetch short of a buffer
      would mean lost buffers. */
  lemma TopRound(c: Config, e: Policy, hs: seq<Step>, s: State) returns (ht: seq<Step>, t: State)
    requires Good(c, s) && !Complete(c, s)
    requires s.snd.pacing.AtTop? && PfWaits(c, s.snd)
    ensures Good(c, t) && Reaches(c, e, hs, s, ht, t) && SenderOnly(s, t)
    ensures t.snd.next == s.snd.next && t.snd.pf == s.snd.pf
    ensures Queue(t.snd) < Queue(s.snd) || TheFin(c) in t.net
    ensures AllOut(c, s) ==> AllOut(c, t)
  {
    hide Good, Reaches, SendInv, AskedInv, Inv, AllOut;
    SenderFacts(c, s);
    var ha, a := StartBatch(c, e, hs, s);
    if s.snd.rex != {} {
      ht, t := PopFirst(c, e, ha, a);
    } else {
      ht, t := EmptyRex(c, e, ha, a);
    }
    ReachJoin(c, e, hs, s, ha, a, ht, t);
  }

  lemma StartBatch(c: Config, e: Policy, hs: seq<Step>, s: State) returns (ht: seq<Step>, t: State)
    requires Good(c, s) && s.snd.pacing.AtTop? && !s.snd.done
    ensures Good(c, t) && Reaches(c, e, hs, s, ht, t)
    ensures t == s.(snd := s.snd.(pacing := Building, toSend := e.batch(hs), built := 0))
    ensures AllOut(c, s) ==> AllOut(c, t)
  {
    hide Good, Reaches, AllOut;
    OutStep(c, s, PaceTop(e.batch(hs)));
    ht, t := GoSend(c, e, hs, s, PaceTop(e.batch(hs)));
  }

  lemma PopFirst(c: Config, e: Policy, hs: seq<Step>, s: State) returns (ht: seq<Step>, t: State)
    requires Good(c, s) && s.snd.pacing.Building? && s.snd.built < s.snd.toSend && s.snd.rex != {}
    ensures Good(c, t) && Reaches(c, e, hs, s, ht, t) && SenderOnly(s, t)
    ensures SenderEnabled(c, s, PopRex(true)) && t == SenderApply(c, s, PopRex(true))
    ensures t.snd.next == s.snd.next && t.snd.pf == s.snd.pf && Queue(t.snd) < Queue(s.snd)
    ensures AllOut(c, s) ==> AllOut(c, t)
  {
    hide Good, Reaches, AllOut, Refill, MinOf;
    OutStep(c, s, PopRex(true));
    ht, t := GoSend(c, e, hs, s, PopRex(true));
    RexShrinks(c, s.snd);
  }

  lemma EmptyRex(c: Config, e: Policy, hs: seq<Step>, s: State) returns (ht: seq<Step>, t: State)
    requires Good(c, s) && s.snd.pacing.Building? && s.snd.built < s.snd.toSend && s.snd.rex == {}
    requires s.snd.ready != [] || s.snd.pf.Exited?
    ensures Good(c, t) && Reaches(c, e, hs, s, ht, t) && SenderOnly(s, t)
    ensures t.snd.next == s.snd.next && t.snd.pf == s.snd.pf
    ensures Queue(t.snd) < Queue(s.snd) || TheFin(c) in t.net
    ensures AllOut(c, s) ==> AllOut(c, t)
  {
    hide Good, Reaches, AllOut;
    OutStep(c, s, RexEmpty);
    var ha, a := GoSend(c, e, hs, s, RexEmpty);
    ht, t := TryRound(c, e, ha, a);
    ReachJoin(c, e, hs, s, ha, a, ht, t);
  }

  lemma TryRound(c: Config, e: Policy, hs: seq<Step>, s: State) returns (ht: seq<Step>, t: State)
    requires Good(c, s) && s.snd.pacing.TryNew? && s.snd.rex == {}
    requires s.snd.ready != [] || s.snd.pf.Exited?
    ensures Good(c, t) && Reaches(c, e, hs, s, ht, t) && SenderOnly(s, t)
    ensures t.snd.next == s.snd.next && t.snd.pf == s.snd.pf
    ensures Queue(t.snd) < Queue(s.snd) || TheFin(c) in t.net
    ensures AllOut(c, s) ==> AllOut(c, t)
  {
    hide Good, Reaches, Inv, AllOut;
    if s.snd.newDone {
      OutStep(c, s, NewBreak);
      var ha, a := GoSend(c, e, hs, s, NewBreak);
      ht, t := Announce(c, e, ha, a);
      ReachJoin(c, e, hs, s, ha, a, ht, t);
    } else if s.snd.ready != [] {
      OutStep(c, s, TakeNew);
      ht, t := GoSend(c, e, hs, s, TakeNew);
    } else {
      OutStep(c, s, Disconnected);
      ht, t := GoSend(c, e, hs, s, Disconnected);
    }
  }

  lemma Announce(c: Config, e: Policy, hs: seq<Step>, s: State) returns (ht: seq<Step>, t: State)
    requires Good(c, s)
    requires s.snd.pacing.Flushing? && s.snd.newDone && s.snd.rex == {}
    ensures Good(c, t) && Reaches(c, e, hs, s, ht, t) && SenderOnly(s, t)
    ensures t.snd.next == s.snd.next && t.snd.pf == s.snd.pf && TheFin(c) in t.net
    ensures AllOut(c, s) ==> AllOut(c, t)
  {
    hide Good, Reaches, AllOut, SendInv, AskedInv;
    OutStep(c, s, FlushBatch);
    var ha, a := GoSend(c, e, hs, s, FlushBatch);
    SenderFacts(c, a);
    OutStep(c, a, ReturnBufs);
    var hb, b := GoSend(c, e, ha, a, ReturnBufs);
    OutStep(c, b, AnnounceFin);
    ht, t := GoSend(c, e, hb, b, AnnounceFin);
    ReachJoin(c, e, hs, s, ha, a, hb, b);
    ReachJoin(c, e, hs, s, hb, b, ht, t);
  }

  lemma {:induction false} SendFin(c: Config, e: Policy, hs: seq<Step>, s: State) returns (ht: seq<Step>, t: State)
    requires Good(c, s) && !Complete(c, s)
    ensures Good(c, t) && Reaches(c, e, hs, s, ht, t) && SenderOnly(s, t) && TheFin(c) in t.net
    ensures AllOut(c, s) ==> AllOut(c, t)
    decreases Unread(c, s.snd), PfRank(s.snd.pf), Queue(s.snd), Cycle(s.snd.pacing)
  {
    hide Good, Reaches, SendInv, SenderApply, AllOut;
    SenderFacts(c, s);
    if TheFin(c) in s.net {
      ht, t := hs, s;
      ReachSelf(c, e, hs, s);
    } else {
      var hm: seq<Step>;
      var m: State;
      if !PfWaits(c, s.snd) {
        PrefetchMoves(c, s);
        OutStep(c, s, PfStep(c, s.snd));
        hm, m := GoSend(c, e, hs, s, PfStep(c, s.snd));
      } else if s.snd.pacing.AtTop? {
        hm, m := TopRound(c, e, hs, s);
      } else {
        PaceMoves(c, s);
        OutStep(c, s, PaceStep(s.snd));
        hm, m := GoSend(c, e, hs, s, PaceStep(s.snd));
      }
      if TheFin(c) in m.net {
        ht, t := hm, m;
      } else {
        ht, t := SendFin(c, e, hm, m);
        ReachJoin(c, e, hs, s, hm, m, ht, t);
      }
    }
  }

  // ---- FIN is heard ----

  lemma WorkerFacts(c: Config, s: State)
    requires Good(c, s)
    ensures |s.wk| == c.workers && |s.wk| > 0
    ensures s.rcv.peer.Some? ==> s.rcv.peer.value == c.sender
    ensures s.rcv.allSent ==> s.rcv.peer.Some?
    ensures forall i :: i in s.rcv.bm ==> i < Total(c)
  {
    BmBound(c, s);
    hide OwnInv, FrontInv, StageInv, SinkInv, PoolInv, CountInv, ScanInv, FinishInv, NetInv, SendInv, AskedInv, DoneInv;
    Parts(c, s);
  }

  lemma HearFin(c: Config, e: Policy, hs: seq<Step>, s: State) returns (ht: seq<Step>, t: State)
    requires Good(c, s) && AllIdle(s.wk) && TheFin(c) in s.net
    ensures Good(c, t) && Reaches(c, e, hs, s, ht, t)
    ensures t == s.(net := s.net - multiset{TheFin(c)}, rcv := s.rcv.(peer := Some(c.sender), allSent := true))
  {
    hide Good, Reaches, DeliverApply, WorkApply, Total, LearnPeer, ValidSetup;
    WorkerFacts(c, s);
    FinTaken(c, s);
    var ha, a := GoDeliver(c, e, hs, s, TheFin(c));
    ht, t := GoWork(c, e, ha, a, 0);
    ReachJoin(c, e, hs, s, ha, a, ht, t);
  }

  lemma FinTaken(c: Config, s: State)
    requires |s.wk| > 0 && s.wk[0].Idle? && (s.rcv.peer.Some? ==> s.rcv.peer.value == c.sender)
    ensures var a := DeliverApply(c, s, 0, TheFin(c), true);
      && |a.wk| == |s.wk| && a.wk[0].FinSeen?
      && WorkApply(c, a, 0)
         == s.(net := s.net - multiset{TheFin(c)}, rcv := s.rcv.(peer := Some(c.sender), allSent := true))
  {
    hide Total;
    assert s.wk[0 := FinSeen][0 := Idle] == s.wk;
  }

  /** The receiver learns that everything has been sent, even if every packet so far,
      the file's tail and every earlier FIN included, was lost. */
  lemma LearnAllSent(c: Config, e: Policy, hs: seq<Step>, s: State) returns (ht: seq<Step>, t: State)
    requires Good(c, s)
    ensures Good(c, t) && Reaches(c, e, hs, s, ht, t) && t.fb == s.fb
    ensures Complete(c, t) || (AllIdle(t.wk) && t.rcv.allSent)
  {
    hide Good, Reaches;
    var ha, a := Drain(c, e, hs, s);
    if Complete(c, a) {
      ht, t := ha, a;
    } else {
      var hb, b := SendFin(c, e, ha, a);
      ReachJoin(c, e, hs, s, ha, a, hb, b);
      ht, t := HearFin(c, e, hb, b);
      ReachJoin(c, e, hs, s, hb, b, ht, t);
    }
  }

  // ---- a requested block goes out again ----

  predicate Tracked(c: Config, s: State, x: nat) {
    x in s.snd.rex || DataPdu(c, x) in s.snd.batch || DataPdu(c, x) in s.net
  }

  lemma PaceTracks(c: Config, s: State, x: nat)
    requires x < Total(c) && Tracked(c, s, x) && SenderEnabled(c, s, PaceStep(s.snd))
    ensures Tracked(c, SenderApply(c, s, PaceStep(s.snd)), x)
  {
    hide DataPdu, Total, BuildApply, SenderApply, SenderEnabled;
    var st := PaceStep(s.snd);
    SenderClasses(c, s, st);
    if DataPdu(c, x) in s.net {
      NetStays(c, s, st, DataPdu(c, x));
    } else if BuildStep(st) {
      BuildTracks(c, s.snd, st, x);
    } else {
      WireTracks(c, s, st, x);
    }
  }

  lemma NetStays(c: Config, s: State, st: Step, p: Packet)
    requires SenderEnabled(c, s, st) && !st.InRecv? && p in s.net
    ensures p in SenderApply(c, s, st).net
  {
    hide BuildApply, PrefetchApply, Total;
  }

  lemma WireTracks(c: Config, s: State, st: Step, x: nat)
    requires SenderEnabled(c, s, st) && (st.FlushBatch? || st.AnnounceFin?)
    requires x in s.snd.rex || DataPdu(c, x) in s.snd.batch
    ensures Tracked(c, SenderApply(c, s, st), x)
  {
    hide DataPdu, Total;
    assert forall p :: p in s.snd.batch ==> p in multiset(s.snd.batch);
  }

  lemma BuildTracks(c: Config, d: Sender, st: Step, x: nat)
    requires x < Total(c) && BuildEnabled(d, st) && (st.PopRex? ==> st.readOk)
    requires x in d.rex || DataPdu(c, x) in d.batch
    ensures var e := BuildApply(c, d, st); x in e.rex || DataPdu(c, x) in e.batch
  {
    hide DataPdu, Total;
  }

  lemma {:induction false} Resend(c: Config, e: Policy, hs: seq<Step>, s: State, x: nat)
    returns (ht: seq<Step>, t: State)
    requires Good(c, s) && !Complete(c, s)
    requires x < Total(c) && Tracked(c, s, x)
    ensures Good(c, t) && Reaches(c, e, hs, s, ht, t) && SenderOnly(s, t) && DataPdu(c, x) in t.net
    decreases Queue(s.snd), Cycle(s.snd.pacing)
  {
    hide Good, Reaches, SendInv, AskedInv, SenderApply, DataPdu;
    SenderFacts(c, s);
    if DataPdu(c, x) in s.net {
      ht, t := hs, s;
      ReachSelf(c, e, hs, s);
    } else {
      var hm: seq<Step>;
      var m: State;
      if s.snd.pacing.AtTop? {
        BatchEmpty(c, s);
        hm, m := TopPop(c, e, hs, s, x);
      } else {
        PaceMoves(c, s);
        PaceTracks(c, s, x);
        hm, m := GoSend(c, e, hs, s, PaceStep(s.snd));
      }
      ht, t := Resend(c, e, hm, m, x);
      ReachJoin(c, e, hs, s, hm, m, ht, t);
    }
  }

  lemma BatchEmpty(c: Config, s: State)
    requires SendInv(c, s.snd) && s.snd.pacing.AtTop?
    ensures s.snd.batch == []
  {
  }

  lemma TopPop(c: Config, e: Policy, hs: seq<Step>, s: State, x: nat) returns (ht: seq<Step>, t: State)
    requires Good(c, s) && s.snd.pacing.AtTop? && !s.snd.done
    requires x in s.snd.rex && x < Total(c)
    ensures Good(c, t) && Reaches(c, e, hs, s, ht, t) && SenderOnly(s, t) && Tracked(c, t, x)
    ensures Queue(t.snd) < Queue(s.snd)
  {
    hide Good, Reaches, AllOut, SenderApply, DataPdu;
    var ha, a := StartBatch(c, e, hs, s);
    PaceTracks(c, a, x);
    ht, t := PopFirst(c, e, ha, a);
    ReachJoin(c, e, hs, s, ha, a, ht, t);
  }

  /** The sender's feedback thread is back at its socket. */
  lemma ClearInbox(c: Config, e: Policy, hs: seq<Step>, s: State) returns (ht: seq<Step>, t: State)
    requires Good(c, s)
    ensures Good(c, t) && Reaches(c, e, hs, s, ht, t) && t == s.(snd := t.snd) && t.snd.inbox.Waiting?
    ensures s.snd.done || (!s.snd.inbox.Waiting? && s.snd.inbox.done) ==> t.snd.done
  {
    hide Good, Reaches;
    if s.snd.inbox.Got? {
      var ha, a := GoSend(c, e, hs, s, InPush);
      ht, t := GoSend(c, e, ha, a, InDone);
      ReachJoin(c, e, hs, s, ha, a, ht, t);
    } else if s.snd.inbox.Pushed? {
      ht, t := GoSend(c, e, hs, s, InDone);
    } else {
      ht, t := hs, s;
      ReachSelf(c, e, hs, s);
    }
  }

  lemma Ask(c: Config, e: Policy, hs: seq<Step>, s: State, p: Packet, x: nat) returns (ht: seq<Step>, t: State)
    requires Good(c, s) && !Complete(c, s)
    requires p in s.net && Audible(c, p) && x in p.nacks
    ensures Good(c, t) && Reaches(c, e, hs, s, ht, t) && t == s.(snd := t.snd, net := t.net) && x in t.snd.rex
  {
    hide Good, Reaches, SendInv, AskedInv;
    var ha, a := ClearInbox(c, e, hs, s);
    SenderFacts(c, a);
    var hb, b := GoSend(c, e, ha, a, InRecv(p));
    ReachJoin(c, e, hs, s, ha, a, hb, b);
    ht, t := GoSend(c, e, hb, b, InPush);
    ReachJoin(c, e, hs, s, hb, b, ht, t);
  }

  // ---- the flusher runs to the end ----

  function FlushRank(pc: FlushPc): nat {
    match pc
    case Probe => 5
    case Confirmed => 4
    case Writing(_) => 3
    case ReturningBuf => 2
    case Advancing => 1
    case Storing => 6
  }

  lemma FlushFacts(c: Config, s: State)
    requires Good(c, s)
    ensures FrontInv(c, s.rcv, s.fl)
    ensures s.fl.pc.ReturningBuf? ==> s.rcv.free < StageDepth(c)
    ensures AllIdle(s.wk) ==> forall i :: i in s.rcv.bm ==> i in s.rcv.ready
  {
    hide HeardInv, StageInv, SinkInv, CountInv, ScanInv, FinishInv, NetInv, SendInv, AskedInv, DoneInv;
    Parts(c, s);
  }

  lemma FlushMoves(c: Config, s: State)
    requires FrontInv(c, s.rcv, s.fl) && !(s.fl.pc.Probe? && s.fl.front == Total(c))
    requires forall i: nat :: i < Total(c) ==> i in s.rcv.ready
    requires s.fl.pc.ReturningBuf? ==> s.rcv.free < StageDepth(c)
    ensures FlushEnabled(c, s, Flush)
    ensures var f := FlushApply(c, s).fl;
      f.front > s.fl.front || (f.front == s.fl.front && FlushRank(f.pc) < FlushRank(s.fl.pc))
  {
    hide WriteAt, StageDepth, Total;
  }

  lemma {:induction false} FlushAll(c: Config, e: Policy, hs: seq<Step>, s: State) returns (ht: seq<Step>, t: State)
    requires Good(c, s) && s.rcv.allSent
    requires forall i: nat :: i < Total(c) ==> i in s.rcv.ready
    ensures Good(c, t) && Reaches(c, e, hs, s, ht, t) && Complete(c, t)
    ensures t.fb == s.fb && t.snd == s.snd && t.net == s.net
    decreases if s.fl.front <= Total(c) then Total(c) - s.fl.front else 0, FlushRank(s.fl.pc)
  {
    hide Good, Reaches, FlushApply, FlushRank, Total, StageDepth, FlushEnabled;
    FlushFacts(c, s);
    if s.fl.pc.Probe? && s.fl.front == Total(c) {
      ht, t := hs, s;
      ReachSelf(c, e, hs, s);
    } else {
      FlushMoves(c, s);
      FlushShape(c, s);
      var hm, m := GoFlush(c, e, hs, s);
      FlushFacts(c, m);
      ht, t := FlushAll(c, e, hm, m);
      ReachJoin(c, e, hs, s, hm, m, ht, t);
    }
  }

  // ---- the feedback thread finishes its tick ----

  /** The receiver will say DONE no more. */
  predicate Silent(b: Feedbacker) {
    b.pc.Gone? || (b.pc.Counting? && b.complete && b.doneSends + 1 >= DONE_SENDS)
  }

  predicate FbOnly(s: State, t: State) {
    t == s.(fb := t.fb, net := t.net, rcv := s.rcv.(statsHi := t.rcv.statsHi, done := t.rcv.done))
  }

  function FbRank(pc: FbPc): nat {
    match pc
    case AdvancingMark => 13
    case LoadMax => 12
    case LoadAllSent => 11
    case CheckSeen => 10
    case Scanning => 9
    case LoadFin => 8
    case LoadFlushed => 7
    case StoreHi => 6
    case CheckPeer => 5
    case Collecting => 4
    case Sending => 3
    case Counting => 2
    case Gone => 1
    case Sleeping => 0
  }

  function FbLeft(b: Feedbacker): nat {
    match b.pc
    case AdvancingMark => if b.sc.hi < b.sc.total then b.sc.total - b.sc.hi else 0
    case Scanning => if b.cursor <= b.ms then b.ms + 1 - b.cursor else 0
    case Collecting => (if |b.out| < b.cap then b.cap - |b.out| else 0) + |b.sc.heap|
    case _ => 0
  }

  function FbStep(b: Feedbacker, cap: nat): Step {
    if b.pc.CheckPeer? then FbPeer(cap) else Fb
  }

  /** Whatever this tick still has to scan, it will have scanned the whole file. */
  predicate WillScanAll(c: Config, b: Feedbacker) {
    || b.sc.next == Total(c)
    || b.pc.AdvancingMark? || b.pc.LoadMax? || b.pc.LoadAllSent?
    || ((b.pc.CheckSeen? || b.pc.Scanning?) && b.ms == Total(c) - 1)
  }

  lemma LookMoves(c: Config, r: Receiver, b: Feedbacker)
    requires Looking(b.pc)
    ensures var e := Look(c, r, b);
      && !e.pc.Gone?
      && (FbRank(e.pc) < FbRank(b.pc) || (e.pc == b.pc && FbLeft(e) < FbLeft(b)))
  {
    hide Total, DueAt, PopOne, Top;
  }

  lemma ReportMoves(c: Config, s: State, cap: nat)
    requires 1 <= cap <= c.maxNacks
    requires s.fb.pc.LoadFlushed? || s.fb.pc.StoreHi? || s.fb.pc.CheckPeer? || s.fb.pc.Sending? || s.fb.pc.Counting?
    requires s.fb.pc.Counting? ==> !s.fb.complete
    ensures FbEnabled(c, s, FbStep(s.fb, cap))
    ensures var t := FbApply(c, s, FbStep(s.fb, cap)); !t.fb.pc.Gone? && FbRank(t.fb.pc) < FbRank(s.fb.pc)
  {
    hide FbApply, Total;
    if s.fb.pc.Sending? || s.fb.pc.Counting? {
      SendMoves(c, s);
    } else {
      LoadMoves(c, s, cap);
    }
  }

  lemma SendMoves(c: Config, s: State)
    requires (s.fb.pc.Sending? || (s.fb.pc.Counting? && !s.fb.complete))
    ensures FbEnabled(c, s, Fb)
    ensures var t := FbApply(c, s, Fb); !t.fb.pc.Gone? && FbRank(t.fb.pc) < FbRank(s.fb.pc)
  {
    hide Look, Collect, Total, Report;
  }

  lemma LoadMoves(c: Config, s: State, cap: nat)
    requires 1 <= cap <= c.maxNacks
    requires s.fb.pc.LoadFlushed? || s.fb.pc.StoreHi? || s.fb.pc.CheckPeer?
    ensures FbEnabled(c, s, FbStep(s.fb, cap))
    ensures var t := FbApply(c, s, FbStep(s.fb, cap)); !t.fb.pc.Gone? && FbRank(t.fb.pc) < FbRank(s.fb.pc)
  {
    hide Look, Collect, Total, Report;
  }

  lemma FbMoves(c: Config, s: State, cap: nat)
    requires !s.fb.pc.Sleeping? && !s.fb.pc.Gone? && 1 <= cap <= c.maxNacks
    requires s.fb.pc.Counting? ==> !s.fb.complete
    ensures FbEnabled(c, s, FbStep(s.fb, cap)) && Smooth(FbStep(s.fb, cap))
    ensures var t := FbApply(c, s, FbStep(s.fb, cap));
      && !t.fb.pc.Gone?
      && (FbRank(t.fb.pc) < FbRank(s.fb.pc) || (t.fb.pc == s.fb.pc && FbLeft(t.fb) < FbLeft(s.fb)))
  {
    hide FbApply, Look, FbLeft, FbRank, Total;
    if Looking(s.fb.pc) {
      LookMoves(c, s.rcv, s.fb);
      LookShape(c, s);
    } else if s.fb.pc.Collecting? {
      CollectMoves(c, s);
      RanksFall();
    } else {
      ReportMoves(c, s, cap);
    }
  }

  lemma RanksFall()
    ensures FbRank(Sending) < FbRank(Collecting)
  {
  }

  lemma CollectMoves(c: Config, s: State)
    requires s.fb.pc.Collecting?
    ensures var t := FbApply(c, s, Fb);
      t.fb.pc.Sending? || (t.fb.pc.Collecting? && FbLeft(t.fb) < FbLeft(s.fb))
  {
    hide PopOne, Top, DueAt;
    if CanPop(s.fb.sc, s.fb.now) {
      PopShrinks(s.fb.sc, s.rcv.bm, DueAt(s.fb.now, s.fb.rto));
    }
  }

  lemma FbFacts(c: Config, s: State)
    requires Good(c, s)
    ensures Agrees(s.fb.sc, s.rcv.bm, Scanned(s.fb))
    ensures s.fb.sc.next <= Total(c) && s.fb.sc.total == Total(c)
    ensures s.fb.pc.Scanning? ==> s.fb.ms < Total(c)
    ensures !Complete(c, s) ==> !Silent(s.fb) && !s.fb.pc.Gone? && (s.fb.pc.Counting? ==> !s.fb.complete)
  {
    hide OwnInv, FrontInv, StageInv, SinkInv, PoolInv, CountInv, NetInv, SendInv, AskedInv, DoneInv, Agrees;
    Parts(c, s);
  }

  lemma {:induction false} FinishTick(c: Config, e: Policy, hs: seq<Step>, s: State) returns (ht: seq<Step>, t: State)
    requires Good(c, s) && !Complete(c, s)
    ensures Good(c, t) && Reaches(c, e, hs, s, ht, t) && FbOnly(s, t) && t.fb.pc.Sleeping?
    ensures s.rcv.allSent && Total(c) > 0 && WillScanAll(c, s.fb) ==> t.fb.sc.next == Total(c)
    decreases FbRank(s.fb.pc), FbLeft(s.fb)
  {
    hide Good, Reaches, FbApply, Agrees;
    if s.fb.pc.Sleeping? {
      ht, t := hs, s;
      ReachSelf(c, e, hs, s);
    } else {
      FbFacts(c, s);
      var st := FbStep(s.fb, Cap(c, e, hs));
      FbMoves(c, s, Cap(c, e, hs));
      FeedbackShape(c, s, st);
      if s.rcv.allSent && Total(c) > 0 && WillScanAll(c, s.fb) {
        FbScansOn(c, s, st);
      }
      var hm, m := GoFb(c, e, hs, s, st);
      ht, t := FinishTick(c, e, hm, m);
      ReachJoin(c, e, hs, s, hm, m, ht, t);
    }
  }

  /** The policy's next tick. */
  function TickOf(e: Policy, past: seq<Step>, b: Feedbacker): Step {
    Tick(b.now + e.wait(past), e.rto(past))
  }

  /** One whole tick after FIN: every missing block of the file is pending. */
  lemma FullTick(c: Config, e: Policy, hs: seq<Step>, s: State) returns (ht: seq<Step>, t: State)
    requires Good(c, s) && !Complete(c, s) && s.rcv.allSent && Total(c) > 0
    ensures Good(c, t) && Reaches(c, e, hs, s, ht, t) && FbOnly(s, t) && t.fb.pc.Sleeping?
    ensures t.fb.sc.next == Total(c)
    ensures forall i: nat :: i < Total(c) && i !in t.rcv.bm ==> i in t.fb.sc.pending
  {
    hide Good, Reaches;
    var ha, a := FinishTick(c, e, hs, s);
    var hb, b := GoFb(c, e, ha, a, TickOf(e, ha, a.fb));
    ReachJoin(c, e, hs, s, ha, a, hb, b);
    ht, t := FinishTick(c, e, hb, b);
    ReachJoin(c, e, hs, s, hb, b, ht, t);
    FbFacts(c, t);
  }

  lemma ScanBounds(c: Config, s: State)
    requires Inv(c, s)
    ensures s.fb.sc.next <= Total(c) && (s.fb.pc.Scanning? ==> s.fb.ms < Total(c))
    ensures Agrees(s.fb.sc, s.rcv.bm, Scanned(s.fb))
  {
    hide OwnInv, FrontInv, StageInv, SinkInv, PoolInv, CountInv, NetInv, SendInv, AskedInv, DoneInv, FinishInv, Agrees;
    Parts(c, s);
  }

  lemma FbScansOn(c: Config, s: State, st: Step)
    requires FbEnabled(c, s, st) && Total(c) > 0 && s.rcv.allSent
    requires s.fb.sc.next <= Total(c) && WillScanAll(c, s.fb)
    requires s.fb.pc.Scanning? ==> s.fb.ms < Total(c)
    ensures WillScanAll(c, FbApply(c, s, st).fb) && FbApply(c, s, st).rcv.allSent
  {
    hide Look, Collect;
    if st.Fb? && Looking(s.fb.pc) {
      LookScansOn(c, s.rcv, s.fb);
    } else if st.Fb? && s.fb.pc.Collecting? {
      CollectFrame(s.fb, s.rcv.bm);
    }
  }

  lemma LookScansOn(c: Config, r: Receiver, b: Feedbacker)
    requires Looking(b.pc) && Total(c) > 0 && r.allSent
    requires b.sc.next <= Total(c) && WillScanAll(c, b)
    requires b.pc.Scanning? ==> b.ms < Total(c)
    ensures WillScanAll(c, Look(c, r, b))
  {
    hide DueAt;
  }

  /** Every step of any thread keeps a tick that will scan the whole file on its way. */
  lemma {:induction false} ScansOn(c: Config, s: State, steps: seq<Step>, t: State)
    requires Inv(c, s) && Runs(c, s, steps, t)
    requires s.rcv.allSent && Total(c) > 0 && WillScanAll(c, s.fb)
    ensures WillScanAll(c, t.fb) && Inv(c, t)
    decreases |steps|
  {
    hide Inv, Enabled, Apply, FbApply, FbEnabled, WillScanAll, Agrees;
    if steps != [] {
      var st := steps[0];
      OwnParts(c, s, st);
      if ActorOf(st).TheReporter? {
        ScanBounds(c, s);
        FbIsApply(c, s, st);
        FbScansOn(c, s, st);
      }
      StepKeeps(c, s, st);
      ScansOn(c, Apply(c, s, st), steps[1..], t);
    }
  }

  lemma FbIsApply(c: Config, s: State, st: Step)
    requires Enabled(c, s, st) && ActorOf(st).TheReporter?
    ensures FbEnabled(c, s, st) && Apply(c, s, st) == FbApply(c, s, st)
  {
    hide FbApply;
  }

  /** One tick after FIN, however the other threads interleave with it, every missing
      block of the file is pending, and stays so until it arrives. */
  lemma TickAfterFin(c: Config, s0: State, past: seq<Step>, s: State, now: nat, rto: real, steps: seq<Step>, t: State)
    requires Init(c, s0) && Runs(c, s0, past, s) && Total(c) > 0
    requires s.rcv.allSent && FbEnabled(c, s, Tick(now, rto)) && Runs(c, FbApply(c, s, Tick(now, rto)), steps, t)
    requires t.fb.pc.Sleeping?
    ensures forall i: nat :: i < Total(c) && i !in t.rcv.bm ==> i in t.fb.sc.pending
  {
    hide Runs, Init, Inv, Agrees;
    ReachableInv(c, s0, past, s);
    StepKeeps(c, s, Tick(now, rto));
    ScansOn(c, FbApply(c, s, Tick(now, rto)), steps, t);
    ScanBounds(c, t);
    forall i: nat | i < Total(c) && i !in t.rcv.bm
      ensures i in t.fb.sc.pending
    {
      MissingIsPending(t.fb.sc, t.rcv.bm, Scanned(t.fb), i);
    }
  }

  // ---- ticks until something missing is asked for ----

  predicate BeforePeer(pc: FbPc) {
    !pc.Sleeping? && !pc.Collecting? && !pc.Sending? && !pc.Counting? && !pc.Gone?
  }

  predicate ScanIdle(c: Config, b: Feedbacker) {
    b.sc.next == Total(c) && (b.pc.Scanning? ==> b.ms < Total(c) && b.cursor == b.sc.next)
  }

  /** With the file scanned, a tick leaves the heap alone until it collects. */
  lemma HeapStays(c: Config, s: State)
    requires BeforePeer(s.fb.pc) && !s.fb.pc.CheckPeer? && ScanIdle(c, s.fb)
    ensures FbEnabled(c, s, Fb)
    ensures var b := FbApply(c, s, Fb).fb;
      BeforePeer(b.pc) && ScanIdle(c, b) && b.sc.heap == s.fb.sc.heap && b.now == s.fb.now && b.rto == s.fb.rto
  {
    hide PopOne, Top, CanPop, Reports, DueAt, Collect;
  }

  lemma {:induction false} ToPeer(c: Config, e: Policy, hs: seq<Step>, s: State) returns (ht: seq<Step>, t: State)
    requires Good(c, s) && BeforePeer(s.fb.pc) && ScanIdle(c, s.fb)
    ensures Good(c, t) && Reaches(c, e, hs, s, ht, t) && FbOnly(s, t) && t.fb.pc.CheckPeer? && ScanIdle(c, t.fb)
    ensures t.fb.sc.heap == s.fb.sc.heap && t.fb.now == s.fb.now && t.fb.rto == s.fb.rto
    decreases FbRank(s.fb.pc), FbLeft(s.fb)
  {
    hide Good, Reaches, FbApply, ScanIdle;
    if s.fb.pc.CheckPeer? {
      ht, t := hs, s;
      ReachSelf(c, e, hs, s);
    } else {
      FbMoves(c, s, Cap(c, e, hs));
      FeedbackShape(c, s, Fb);
      HeapStays(c, s);
      var hm, m := GoFb(c, e, hs, s, Fb);
      ht, t := ToPeer(c, e, hm, m);
      ReachJoin(c, e, hs, s, hm, m, ht, t);
    }
  }

  /** The report so far is of missing blocks, and while it is empty entry `a` is waiting. */
  predicate Hunting(b: Feedbacker, bm: set<nat>, a: Item) {
    && (forall y :: y in b.out ==> y !in bm)
    && (b.out == [] ==> a in b.sc.heap && a.sn in b.sc.pending)
  }

  lemma PopHunts(sc: Scanner, bm: set<nat>, a: Item, reDue: nat)
    requires sc.heap != multiset{} && a in sc.heap && a.sn in sc.pending && a.sn !in bm && !Reports(sc, bm)
    ensures var t := PopOne(sc, bm, reDue); a in t.heap && a.sn in t.pending
  {
    assert a != Top(sc.heap);
  }

  lemma NothingDue(sc: Scanner, now: nat, a: Item)
    requires a in sc.heap && !CanPop(sc, now)
    ensures a.due > now
  {
    assert !Before(a, Top(sc.heap));
  }

  /** The report so far names no block twice: a block in it is no longer due. */
  predicate Once(b: Feedbacker) {
    && b.rto >= 0.0 && |b.out| <= b.cap
    && (forall i, j :: 0 <= i < j < |b.out| ==> b.out[i] != b.out[j])
    && (forall x :: x in b.sc.heap && x.sn in b.out ==> x.due > b.now)
  }

  lemma CollectOnce(b: Feedbacker, bm: set<nat>)
    requires b.pc.Collecting? && Once(b) && OneEntryEach(b.sc.heap)
    ensures Once(Collect(b, bm))
  {
    hide Top, DueAt, OneEntryEach;
    if |b.out| < b.cap && CanPop(b.sc, b.now) {
      RestEntries(b.sc.heap, Top(b.sc.heap));
    }
  }

  lemma {:induction false} DistinctBelow(out: seq<nat>, n: nat)
    requires forall i, j :: 0 <= i < j < |out| ==> out[i] != out[j]
    requires forall x :: x in out ==> x < n
    ensures |out| <= n
  {
    var all := set x | x in out;
    DistinctSize(out, all);
    SubsetOfRange(all, n);
  }

  lemma {:induction false} DistinctSize(out: seq<nat>, all: set<nat>)
    requires forall i, j :: 0 <= i < j < |out| ==> out[i] != out[j]
    requires forall x :: x in all <==> x in out
    ensures |all| == |out|
    decreases |out|
  {
    if out == [] {
      assert all == {};
    } else {
      var rest, last := out[..|out| - 1], out[|out| - 1];
      assert out == rest + [last];
      DistinctSize(rest, all - {last});
    }
  }

  lemma CollectHunts(c: Config, s: State, a: Item)
    requires s.fb.pc.Collecting? && s.fb.cap >= 1 && Hunting(s.fb, s.rcv.bm, a) && a.sn !in s.rcv.bm
    ensures var b := FbApply(c, s, Fb).fb;
      && Hunting(b, s.rcv.bm, a) && b.now == s.fb.now && b.cap == s.fb.cap && b.sc.next == s.fb.sc.next
      && (b.pc.Sending? && b.out == [] ==> a.due > b.now)
  {
    hide PopOne, Top, DueAt;
    var b := s.fb;
    if |b.out| < b.cap && CanPop(b.sc, b.now) {
      PopKeepsNext(b.sc, s.rcv.bm, DueAt(b.now, b.rto));
      if b.out == [] && !Reports(b.sc, s.rcv.bm) {
        PopHunts(b.sc, s.rcv.bm, a, DueAt(b.now, b.rto));
      }
    } else if b.out == [] {
      NothingDue(b.sc, b.now, a);
    }
  }

  lemma PopKeepsNext(sc: Scanner, bm: set<nat>, reDue: nat)
    requires sc.heap != multiset{}
    ensures PopOne(sc, bm, reDue).next == sc.next
  {
  }

  lemma {:induction false} CollectAll(c: Config, e: Policy, hs: seq<Step>, s: State, a: Item)
    returns (ht: seq<Step>, t: State)
    requires Good(c, s) && a.sn !in s.rcv.bm
    requires s.fb.pc.Collecting? && s.fb.cap >= 1 && Hunting(s.fb, s.rcv.bm, a) && Once(s.fb)
    ensures Good(c, t) && Reaches(c, e, hs, s, ht, t) && FbOnly(s, t) && t.fb.pc.Sending?
    ensures Hunting(t.fb, t.rcv.bm, a) && t.fb.now == s.fb.now && t.fb.sc.next == s.fb.sc.next
    ensures Once(t.fb) && t.fb.cap == s.fb.cap
    ensures t.fb.out == [] ==> a.due > t.fb.now
    decreases FbLeft(s.fb)
  {
    hide Good, Reaches, FbApply, Hunting, FbLeft, Once, Agrees;
    CollectsOnce(c, s);
    CollectMoves(c, s);
    CollectHunts(c, s, a);
    FeedbackShape(c, s, Fb);
    ht, t := GoFb(c, e, hs, s, Fb);
    if t.fb.pc.Collecting? {
      var hm, m := ht, t;
      ht, t := CollectAll(c, e, hm, m, a);
      ReachJoin(c, e, hs, s, hm, m, ht, t);
    }
  }

  lemma CollectsOnce(c: Config, s: State)
    requires Good(c, s) && s.fb.pc.Collecting? && Once(s.fb)
    ensures Once(FbApply(c, s, Fb).fb)
  {
    hide Good, Collect, Once, Agrees;
    FbFacts(c, s);
    OneEntries(s.fb.sc, s.rcv.bm, Scanned(s.fb));
    CollectOnce(s.fb, s.rcv.bm);
  }

  lemma EntryOf(sc: Scanner, bm: set<nat>, scanned: nat, x: nat) returns (a: Item)
    requires Agrees(sc, bm, scanned) && x in sc.pending
    ensures a in sc.heap && a.sn == x
  {
    a :| a in sc.heap && a.sn == x;
  }

  lemma MissingIsPending(sc: Scanner, bm: set<nat>, scanned: nat, x: nat)
    requires Agrees(sc, bm, scanned) && x < scanned && x !in bm
    ensures x in sc.pending
  {
  }

  /** A tick of the policy's choosing, up to where it starts to collect. */
  lemma TickToCollect(c: Config, e: Policy, hs: seq<Step>, s: State) returns (ht: seq<Step>, t: State)
    requires Good(c, s) && s.rcv.allSent && s.fb.pc.Sleeping? && s.fb.sc.next == Total(c)
    ensures Good(c, t) && Reaches(c, e, hs, s, ht, t) && FbOnly(s, t)
    ensures t.fb.pc.Collecting? && 1 <= t.fb.cap <= c.maxNacks && t.fb.out == [] && t.fb.rto >= 0.0
    ensures t.fb.sc.heap == s.fb.sc.heap && t.fb.sc.next == Total(c) && t.fb.now > s.fb.now
  {
    hide Good, Reaches, Look, Collect, Total;
    WorkerFacts(c, s);
    var hx, x := GoFb(c, e, hs, s, TickOf(e, hs, s.fb));
    var hy, y := ToPeer(c, e, hx, x);
    ReachJoin(c, e, hs, s, hx, x, hy, y);
    ht, t := GoFb(c, e, hy, y, FbPeer(Cap(c, e, hy)));
    ReachJoin(c, e, hs, s, hy, y, ht, t);
  }

  /** And on to where it sends its report. */
  lemma TickToReport(c: Config, e: Policy, hs: seq<Step>, s: State, a: Item) returns (ht: seq<Step>, t: State)
    requires Good(c, s) && s.rcv.allSent && s.fb.pc.Sleeping? && s.fb.sc.next == Total(c)
    requires a in s.fb.sc.heap && a.sn !in s.rcv.bm && a.sn < Total(c)
    ensures Good(c, t) && Reaches(c, e, hs, s, ht, t) && FbOnly(s, t) && t.fb.pc.Sending?
    ensures Hunting(t.fb, t.rcv.bm, a) && t.fb.sc.next == Total(c) && t.fb.now > s.fb.now
    ensures t.fb.out == [] ==> a.due > t.fb.now
    ensures Once(t.fb) && t.fb.cap <= c.maxNacks
  {
    hide Good, Reaches, Agrees;
    var hz, z := TickToCollect(c, e, hs, s);
    FbFacts(c, z);
    MissingIsPending(z.fb.sc, z.rcv.bm, Scanned(z.fb), a.sn);
    ht, t := CollectAll(c, e, hz, z, a);
    ReachJoin(c, e, hs, s, hz, z, ht, t);
  }

  /** The rest of the tick: the report goes out. */
  lemma SendReport(c: Config, e: Policy, hs: seq<Step>, s: State) returns (ht: seq<Step>, t: State, p: Packet)
    requires Good(c, s) && !Complete(c, s) && s.fb.pc.Sending?
    ensures Good(c, t) && Reaches(c, e, hs, s, ht, t) && FbOnly(s, t) && t.fb.pc.Sleeping?
    ensures t.fb.sc == s.fb.sc && t.fb.now == s.fb.now
    ensures p in t.net && p.Feedback? && Genuine(c, p) && p.nacks == s.fb.out
  {
    hide Good, Reaches;
    var hx, x := GoFb(c, e, hs, s, Fb);
    FbFacts(c, x);
    ht, t := GoFb(c, e, hx, x, Fb);
    ReachJoin(c, e, hs, s, hx, x, ht, t);
    p := Report(c, s.fb);
  }

  lemma ShortReport(c: Config, s: State, b: Feedbacker, p: Packet)
    requires Good(c, s) && p in s.net && p.Feedback? && Genuine(c, p)
    requires p.nacks == b.out && Once(b) && b.cap <= c.maxNacks
    ensures ReportsFit(c) ==> Audible(c, p)
  {
    hide Good;
    forall x | x in p.nacks
      ensures x < Total(c)
    {
      NackedIsBlock(c, s, p, x);
    }
    DistinctBelow(p.nacks, Total(c));
  }

  /** However the policy sizes its reports and spaces its ticks, some missing block is asked
      for by the time entry `a` is due. */
  lemma {:induction false} NackOne(c: Config, e: Policy, hs: seq<Step>, s: State, a: Item)
      returns (ht: seq<Step>, t: State, p: Packet, y: nat)
    requires Good(c, s) && !Complete(c, s)
    requires s.rcv.allSent && s.fb.pc.Sleeping? && s.fb.sc.next == Total(c)
    requires a in s.fb.sc.heap && a.sn !in s.rcv.bm && a.sn < Total(c)
    ensures Good(c, t) && Reaches(c, e, hs, s, ht, t) && FbOnly(s, t)
    ensures p in t.net && p.Feedback? && Genuine(c, p) && y in p.nacks && y !in t.rcv.bm
    ensures ReportsFit(c) ==> Audible(c, p)
    decreases if a.due > s.fb.now then a.due - s.fb.now else 0
  {
    hide Good, Reaches;
    var hx, x := TickToReport(c, e, hs, s, a);
    ht, t, p := SendReport(c, e, hx, x);
    ReachJoin(c, e, hs, s, hx, x, ht, t);
    if x.fb.out != [] {
      y := x.fb.out[0];
      ShortReport(c, t, x.fb, p);
    } else {
      var hm, m := ht, t;
      ht, t, p, y := NackOne(c, e, hm, m, a);
      ReachJoin(c, e, hs, s, hm, m, ht, t);
    }
  }

  // ---- one more block, and then all ----

  lemma HearData(c: Config, e: Policy, hs: seq<Step>, s: State, x: nat) returns (ht: seq<Step>, t: State)
    requires Good(c, s) && AllIdle(s.wk) && x < Total(c) && DataPdu(c, x) in s.net
    ensures Good(c, t) && Reaches(c, e, hs, s, ht, t) && AllIdle(t.wk)
    ensures t.rcv.bm == s.rcv.bm + {x} && (s.rcv.allSent ==> t.rcv.allSent)
    ensures t == s.(net := s.net - multiset{DataPdu(c, x)}, rcv := t.rcv, wk := t.wk, sink := t.sink)
    ensures s.rcv.stage.Keys <= t.rcv.stage.Keys && (s.rcv.free > 0 && x !in s.rcv.bm ==> x in t.rcv.stage)
  {
    hide Good, Reaches;
    WorkerFacts(c, s);
    var p := DataPdu(c, x);
    var ha, a := GoDeliver(c, e, hs, s, p);
    assert a.wk == s.wk[0 := Fresh(x, p.payload)];
    assert Bound(a, 0, x);
    assert s.rcv.free > 0 && x !in s.rcv.bm ==> StageBound(a, 0, x);
    ht, t := DrainOne(c, e, ha, a, 0);
    ReachJoin(c, e, hs, s, ha, a, ht, t);
  }

  /** With everything announced and nothing in hand, one missing block can always be
      fetched: scan, wait, NACK, resend, receive. */
  lemma FillOne(c: Config, e: Policy, hs: seq<Step>, s: State, x: nat) returns (ht: seq<Step>, t: State)
    requires Good(c, s) && !Complete(c, s) && AllIdle(s.wk) && s.rcv.allSent
    requires x < Total(c) && x !in s.rcv.bm && ReportsFit(c)
    ensures Good(c, t) && Reaches(c, e, hs, s, ht, t) && AllIdle(t.wk) && t.rcv.allSent
    ensures s.rcv.bm < t.rcv.bm && !Silent(t.fb)
  {
    hide Good, Reaches, Agrees;
    var ha, a := FullTick(c, e, hs, s);
    FbFacts(c, a);
    var entry := EntryOf(a.fb.sc, a.rcv.bm, Scanned(a.fb), x);
    var hb, b, p, y := NackOne(c, e, ha, a, entry);
    ReachJoin(c, e, hs, s, ha, a, hb, b);
    NackedIsBlock(c, b, p, y);
    FbFacts(c, b);
    var hd, d := Ask(c, e, hb, b, p, y);
    ReachJoin(c, e, hs, s, hb, b, hd, d);
    var hf, f := Resend(c, e, hd, d, y);
    ReachJoin(c, e, hs, s, hd, d, hf, f);
    ht, t := HearData(c, e, hf, f, y);
    ReachJoin(c, e, hs, s, hf, f, ht, t);
  }

  lemma NackedIsBlock(c: Config, s: State, p: Packet, y: nat)
    requires Good(c, s)
    requires p in s.net && p.Feedback? && Genuine(c, p) && y in p.nacks
    ensures y < Total(c)
  {
    hide OwnInv, FrontInv, StageInv, SinkInv, PoolInv, CountInv, SendInv, AskedInv, DoneInv, ScanInv, FinishInv;
    Parts(c, s);
    assert TruePacket(c, Limit(c, s.snd), Complete(c, s), p);
  }

  lemma {:induction false} SubsetOfRange(got: set<nat>, n: nat)
    requires forall i :: i in got ==> i < n
    ensures |got| <= n
    decreases n
  {
    if n > 0 {
      SubsetOfRange(got - {n - 1}, n - 1);
    }
  }

  lemma StrictlyMore(a: set<nat>, b: set<nat>)
    requires a < b
    ensures |a| < |b|
  {
    assert b == a + (b - a);
    assert b - a != {};
  }

  lemma {:induction false} FillAll(c: Config, e: Policy, hs: seq<Step>, s: State) returns (ht: seq<Step>, t: State)
    requires Good(c, s) && AllIdle(s.wk) && s.rcv.allSent && ReportsFit(c)
    ensures Good(c, t) && Reaches(c, e, hs, s, ht, t) && Complete(c, t)
    ensures !Silent(s.fb) ==> !Silent(t.fb)
    decreases Total(c) - |s.rcv.bm|
  {
    hide Good, Reaches;
    WorkerFacts(c, s);
    SubsetOfRange(s.rcv.bm, Total(c));
    if Complete(c, s) {
      ht, t := hs, s;
      ReachSelf(c, e, hs, s);
    } else if x: nat :| x < Total(c) && x !in s.rcv.bm {
      var hm, m := FillOne(c, e, hs, s, x);
      StrictlyMore(s.rcv.bm, m.rcv.bm);
      WorkerFacts(c, m);
      SubsetOfRange(m.rcv.bm, Total(c));
      ht, t := FillAll(c, e, hm, m);
      ReachJoin(c, e, hs, s, hm, m, ht, t);
    } else {
      FlushFacts(c, s);
      ht, t := FlushAll(c, e, hs, s);
    }
  }

  lemma ToCompletion(c: Config, e: Policy, hs: seq<Step>, s: State) returns (ht: seq<Step>, t: State)
    requires Good(c, s) && ReportsFit(c)
    ensures Good(c, t) && Reaches(c, e, hs, s, ht, t) && Complete(c, t)
    ensures !Silent(s.fb) ==> !Silent(t.fb)
  {
    hide Good, Reaches, Silent;
    ht, t := LearnAllSent(c, e, hs, s);
    if !Complete(c, t) {
      var ha, a := ht, t;
      ht, t := FillAll(c, e, ha, a);
      ReachJoin(c, e, hs, s, ha, a, ht, t);
    }
  }

  /** Can the transfer be completed, by a run of the policy in which nothing more goes wrong? */
  ghost predicate MayComplete(c: Config, e: Policy, past: seq<Step>, s: State) {
    exists steps, t :: SmoothRun(c, e, past, s, steps, t) && Complete(c, t)
  }

  /** Never wedged. Whatever policy sizes batches and reports, sets timeouts and wakes the
      feedback thread: if reports fit, then from every reachable state, whatever was lost,
      forged, read or written badly so far, a run of that policy without further mishap
      completes the transfer if and only if no direct write has failed. The stage pool may
      be exhausted, every packet may have been lost, prefetch may have given up: none of
      that prevents completion. After a failed direct write nothing completes, whether
      reports fit or not. */
  lemma NeverWedged(c: Config, e: Policy, s0: State, past: seq<Step>, s: State)
    requires Init(c, s0) && Runs(c, s0, past, s)
    ensures MayComplete(c, e, past, s) ==> s.stuck == {}
    ensures ReportsFit(c) ==> (MayComplete(c, e, past, s) <==> s.stuck == {})
  {
    hide Runs, Init, Inv, Follows;
    ReachableInv(c, s0, past, s);
    if s.stuck != {} {
      forall steps, t | SmoothRun(c, e, past, s, steps, t)
        ensures !Complete(c, t)
      {
        FollowsRuns(c, e, past, s, steps, t);
        StuckRun(c, s, steps, t);
      }
    } else if ReportsFit(c) {
      assert Good(c, s);
      var ht, t := ToCompletion(c, e, past, s);
      assert SmoothRun(c, e, past, s, ht[|past|..], t);
    }
  }
}
