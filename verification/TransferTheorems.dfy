/** What the invariant says about every run of a transfer. */
module TransferTheorems {
  import opened Blocks
  import opened LossTracker
  import opened Prelude
  import opened TransferModel
  import opened TransferInvariant
  import opened TransferSafety

  /** Byte-exact delivery. In every run, whatever the network loses, duplicates,
      reorders or delays, whatever it corrupts or forges that some check rejects, and
      however the threads interleave, once the receiver finds the transfer complete
      every block whose flusher write did not fail holds the source's bytes; with no
      failed write, sink and source are equal. */
  lemma CompleteIsByteExact(c: Config, s: State, steps: seq<Step>, t: State)
    requires Init(c, s) && Runs(c, s, steps, t)
    requires Complete(c, t)
    ensures |t.sink| == |c.src|
    ensures forall i: nat :: i < Total(c) && i !in t.lost ==> Block(t.sink, c.bs, i) == Block(c.src, c.bs, i)
    ensures t.lost == map[] ==> t.sink == c.src
  {
    hide Runs, Init;
    ReachableInv(c, s, steps, t);
    LandedAtEnd(c, t);
  }

  lemma LandedAtEnd(c: Config, t: State)
    requires Inv(c, t) && Complete(c, t)
    ensures |t.sink| == |c.src|
    ensures forall i: nat :: i < Total(c) && i !in t.lost ==> Landed(c, t.sink, i)
    ensures t.lost == map[] ==> t.sink == c.src
  {
    CompleteMeansAll(c, t);
    hide HeardInv, OwnInv, PoolInv, CountInv, ScanInv, FinishInv, SendInv, AskedInv, DoneInv, NetInv;
    Parts(c, t);
    assert forall i: nat :: i < Total(c) ==> !Unwritten(t.rcv, t.fl, i);
    if t.lost == map[] {
      SameBlocksSameFile(t.sink, c.src, c.bs);
    }
  }

  /** DONE is truthful: the sender's pacing loop leaves, and so reports success, only
      when the receiver is complete and the bytes are in place. */
  lemma SenderDoneIsTrue(c: Config, s: State, steps: seq<Step>, t: State)
    requires Init(c, s) && Runs(c, s, steps, t)
    requires t.snd.pacing.Left? || t.snd.done
    ensures Complete(c, t)
    ensures t.lost == map[] ==> t.sink == c.src
  {
    hide Runs, Init;
    ReachableInv(c, s, steps, t);
    DoneMeansComplete(c, t);
    LandedAtEnd(c, t);
  }

  lemma DoneMeansComplete(c: Config, t: State)
    requires Inv(c, t)
    requires t.snd.pacing.Left? || t.snd.done || t.rcv.done
    ensures Complete(c, t)
    ensures t.rcv.done ==> t.rcv.statsHi == Total(c) && t.fb.doneSends == DONE_SENDS
  {
    hide HeardInv, OwnInv, PoolInv, CountInv, ScanInv, SendInv, AskedInv, NetInv, FrontInv, StageInv, SinkInv;
    Parts(c, t);
  }

  /** A receiver that leaves through `done` has told the sender so exactly eight times,
      passes the exit test `hi_contig == total_blocks` and has the file. */
  lemma ReceiverDoneIsTrue(c: Config, s: State, steps: seq<Step>, t: State)
    requires Init(c, s) && Runs(c, s, steps, t)
    requires t.rcv.done
    ensures t.rcv.statsHi == Total(c) && t.fb.doneSends == DONE_SENDS && Complete(c, t)
    ensures t.lost == map[] ==> t.sink == c.src
  {
    hide Runs, Init;
    ReachableInv(c, s, steps, t);
    DoneMeansComplete(c, t);
    LandedAtEnd(c, t);
  }

  /** Data or FIN is only ever taken in from a known peer, and that peer is the sender. */
  lemma PeerIsSender(c: Config, s: State, steps: seq<Step>, t: State)
    requires Init(c, s) && Runs(c, s, steps, t)
    ensures t.rcv.peer.Some? ==> t.rcv.peer.value == c.sender
    ensures t.rcv.allSent || t.rcv.seenAny || t.rcv.bm != {} ==> t.rcv.peer.Some?
  {
    hide Runs, Init;
    ReachableInv(c, s, steps, t);
    Parts(c, t);
    hide OwnInv, PoolInv, CountInv, ScanInv, SendInv, AskedInv, NetInv, FrontInv, StageInv, SinkInv, DoneInv, FinishInv;
  }

  /** Completion is final: no later step takes it back, and no later step of any thread
      writes to the sink. */
  lemma CompletionIsFinal(c: Config, s0: State, past: seq<Step>, s: State, steps: seq<Step>, t: State)
    requires Init(c, s0) && Runs(c, s0, past, s)
    requires Complete(c, s) && Runs(c, s, steps, t)
    ensures Complete(c, t) && t.sink == s.sink && t.lost == s.lost
  {
    hide Runs, Init, Inv;
    ReachableInv(c, s0, past, s);
    CompleteRun(c, s, steps, t);
  }

  lemma {:induction false} CompleteRun(c: Config, s: State, steps: seq<Step>, t: State)
    requires Inv(c, s) && Complete(c, s) && Runs(c, s, steps, t)
    ensures Complete(c, t) && t.sink == s.sink && t.lost == s.lost
    decreases |steps|
  {
    hide Inv, Enabled, Apply, Complete;
    if steps != [] {
      StepKeeps(c, s, steps[0]);
      CompleteStep(c, s, steps[0]);
      CompleteRun(c, Apply(c, s, steps[0]), steps[1..], t);
    }
  }

  lemma NoOwners(c: Config, s: State)
    requires Inv(c, s) && Complete(c, s)
    ensures forall k :: 0 <= k < |s.wk| ==> !Owns(s.wk[k])
    ensures s.fl.pc.Probe? && s.fl.front == Total(c)
  {
    CompleteMeansAll(c, s);
    hide PoolInv, CountInv, ScanInv, SendInv, AskedInv, NetInv, FrontInv, StageInv, SinkInv, DoneInv, FinishInv;
    Parts(c, s);
    BmBound(c, s);
  }

  lemma CompleteWork(c: Config, s: State, w: nat)
    requires w < |s.wk| && !Owns(s.wk[w])
    ensures var t := WorkApply(c, s, w);
      t.sink == s.sink && t.fl == s.fl && t.lost == s.lost && (s.rcv.allSent ==> t.rcv.allSent)
  {
  }

  lemma CompleteOther(c: Config, s: State, st: Step)
    requires Enabled(c, s, st)
    requires !st.Work? && !st.DirectFail? && !st.Flush? && !st.FlushFail?
    ensures var t := Apply(c, s, st);
      t.sink == s.sink && t.fl == s.fl && t.lost == s.lost && t.rcv.allSent == s.rcv.allSent
  {
    hide SenderApply, FbApply, DeliverApply;
    if st.Deliver? {
      DeliverShape(c, s, st.w, st.p, st.parsed);
    } else if st.Tick? || st.Fb? || st.FbPeer? {
      FeedbackShape(c, s, st);
    } else if SenderEnabled(c, s, st) {
      SenderShape(c, s, st);
    }
  }

  lemma CompleteStep(c: Config, s: State, st: Step)
    requires Inv(c, s) && Complete(c, s) && Enabled(c, s, st)
    ensures var t := Apply(c, s, st); Complete(c, t) && t.sink == s.sink && t.lost == s.lost
  {
    hide Inv;
    NoOwners(c, s);
    if st.Work? {
      CompleteWork(c, s, st.w);
    } else if !st.DirectFail? && !st.Flush? && !st.FlushFail? {
      hide Apply;
      CompleteOther(c, s, st);
    }
  }

  /** Nothing is asked for before it was sent: while prefetch has met no read error,
      every NACK on its way, every block the scanner watches, every block in the report
      being built and every queued retransmission is of a block already injected. This
      holds between any two steps, also when a tick has seen `seen_any` but not yet
      `max_seen`. */
  lemma NeverNacksUninjected(c: Config, s: State, steps: seq<Step>, t: State)
    requires Init(c, s) && Runs(c, s, steps, t)
    requires !t.snd.readFailed
    ensures forall p, x :: p in t.net && p.Feedback? && Genuine(c, p) && x in p.nacks ==> x < t.snd.injected
    ensures forall x :: x in t.fb.sc.pending || x in t.fb.out || x in t.snd.rex ==> x < t.snd.injected
    ensures t.fb.sc.next <= t.snd.injected
    ensures forall p :: p in t.net && p.Fin? && Genuine(c, p) ==> t.snd.injected == Total(c)
  {
    hide Runs, Init;
    ReachableInv(c, s, steps, t);
    Parts(c, t);
    hide OwnInv, PoolInv, CountInv, HeardInv, SendInv, FrontInv, StageInv, SinkInv, DoneInv, FinishInv;
    forall p | p in t.net && p.Feedback? && Genuine(c, p)
      ensures forall x :: x in p.nacks ==> x < t.snd.injected
    {
      assert TruePacket(c, Limit(c, t.snd), Complete(c, t), p);
    }
    forall p | p in t.net && p.Fin? && Genuine(c, p)
      ensures t.snd.injected == Total(c)
    {
      assert TruePacket(c, Limit(c, t.snd), Complete(c, t), p);
    }
  }

  /** No forgotten hole, between any two steps of any thread: a block below the scan
      mark has arrived or is pending; a pending block has one heap entry and no block has
      two; a heap entry that is not pending is for a block that has arrived. */
  lemma NoForgottenHole(c: Config, s: State, steps: seq<Step>, t: State)
    requires Init(c, s) && Runs(c, s, steps, t)
    ensures forall i: nat :: i < t.fb.sc.next ==> i in t.rcv.bm || i in t.fb.sc.pending
    ensures forall i :: i in t.fb.sc.pending ==> HasEntry(t.fb.sc.heap, i)
    ensures OneEntryEach(t.fb.sc.heap)
    ensures forall a :: a in t.fb.sc.heap ==> a.sn in t.fb.sc.pending || a.sn in t.rcv.bm
  {
    hide Runs, Init;
    ReachableInv(c, s, steps, t);
    Parts(c, t);
    hide OwnInv, PoolInv, CountInv, HeardInv, SendInv, FrontInv, StageInv, SinkInv, DoneInv, FinishInv, NetInv, AskedInv;
  }

  /** Pool conservation: the receiver's buffers are free, staged, with a worker or with
      the flusher, and none is ever lost; the sender's are free, ready, in the batch or
      with prefetch, and only a read error ever loses one. So handing a buffer back, or
      publishing a block, never waits on a full channel. */
  lemma PoolsConserved(c: Config, s: State, steps: seq<Step>, t: State)
    requires Init(c, s) && Runs(c, s, steps, t)
    ensures t.rcv.free + |t.rcv.stage| + SumOf(HoldsBuf, t.wk)
          + (if t.fl.pc.Writing? || t.fl.pc.ReturningBuf? then 1 else 0) == StageDepth(c)
    ensures t.fl.pc.ReturningBuf? ==> t.rcv.free < StageDepth(c)
    ensures t.snd.free + |t.snd.ready| + t.snd.used + (if t.snd.pf.Holding? then 1 else 0)
          == if t.snd.readFailed then SEND_POOL - 1 else SEND_POOL
    ensures t.snd.pf.Holding? ==> |t.snd.ready| < SEND_POOL
    ensures t.snd.pacing.Returning? ==> t.snd.free + t.snd.used <= SEND_POOL
    ensures forall k :: 0 <= k < |t.wk| && t.wk[k].Buffered? ==> t.wk[k].sn !in t.rcv.stage
  {
    hide Runs, Init;
    ReachableInv(c, s, steps, t);
    Parts(c, t);
    hide HeardInv, OwnInv, CountInv, ScanInv, FrontInv, SinkInv, DoneInv, FinishInv, NetInv, AskedInv;
    assert forall k :: 0 <= k < |t.wk| && t.wk[k].Buffered? ==> Owns(t.wk[k]);
  }

  /** At completion the counters say exactly the file: every block counted once, every
      byte once. */
  lemma CountersExact(c: Config, s: State, steps: seq<Step>, t: State)
    requires Init(c, s) && Runs(c, s, steps, t)
    requires Complete(c, t)
    ensures t.rcv.blocksWritten == Total(c)
    ensures t.rcv.payloadRecv == |c.src|
  {
    hide Runs, Init;
    ReachableInv(c, s, steps, t);
    CountersAtEnd(c, t);
  }

  lemma CountFact(c: Config, t: State)
    requires Inv(c, t)
    ensures CountInv(c, t.rcv, t.wk)
  {
    hide OwnInv, PoolInv, SendInv, FrontInv, StageInv, SinkInv, DoneInv, FinishInv, NetInv, AskedInv, ScanInv;
    hide CountInv, HeardInv;
    Parts(c, t);
  }

  lemma CountersAtEnd(c: Config, t: State)
    requires Inv(c, t) && Complete(c, t)
    ensures t.rcv.blocksWritten == Total(c)
    ensures t.rcv.payloadRecv == |c.src|
  {
    hide Inv, CountInv;
    CountFact(c, t);
    NoOwners(c, t);
    CompleteMeansAll(c, t);
    BmBound(c, t);
    CountersFull(c, t.rcv, t.wk);
  }

  lemma CountersFull(c: Config, r: Receiver, wk: seq<Worker>)
    requires CountInv(c, r, wk)
    requires forall k :: 0 <= k < |wk| ==> !Owns(wk[k])
    requires forall i: nat :: i in r.bm <==> i < Total(c)
    ensures r.blocksWritten == Total(c) && r.payloadRecv == |c.src|
  {
    SumIdle(OwesBlock, wk);
    SumIdle(OwesBytes, wk);
    BytesInAll(c.src, c.bs, r.bm, Total(c));
    CountBelow(r.bm, Total(c));
  }

  lemma BmBound(c: Config, t: State)
    requires Inv(c, t)
    ensures forall i :: i in t.rcv.bm ==> i < Total(c)
  {
    hide OwnInv, PoolInv, SendInv, FrontInv, StageInv, SinkInv, DoneInv, FinishInv, NetInv, AskedInv, ScanInv, CountInv;
    Parts(c, t);
  }

  // ---- exactly-once acceptance ----

  /** Does this step accept block `sn`, that is, win its bit? */
  predicate AcceptsBlock(s: State, st: Step, sn: nat) {
    st.Work? && st.w < |s.wk| && s.wk[st.w].Raised? && s.wk[st.w].sn == sn && sn !in s.rcv.bm
  }

  /** Does this step place block `sn`: hand it to the stage, or (try to) write it directly? */
  predicate PlacesBlock(s: State, st: Step, sn: nat) {
    || (st.Work? && st.w < |s.wk| && (s.wk[st.w].Buffered? || s.wk[st.w].Direct?) && s.wk[st.w].sn == sn)
    || (st.DirectFail? && st.w < |s.wk| && s.wk[st.w].Direct? && s.wk[st.w].sn == sn)
  }

  function Acceptances(c: Config, s: State, steps: seq<Step>, sn: nat): nat
    decreases |steps|
  {
    if steps == [] || !Enabled(c, s, steps[0]) then 0
    else
      var here := if AcceptsBlock(s, steps[0], sn) then 1 else 0;
      here + Acceptances(c, Apply(c, s, steps[0]), steps[1..], sn)
  }

  function Placements(c: Config, s: State, steps: seq<Step>, sn: nat): nat
    decreases |steps|
  {
    if steps == [] || !Enabled(c, s, steps[0]) then 0
    else
      var here := if PlacesBlock(s, steps[0], sn) then 1 else 0;
      here + Placements(c, Apply(c, s, steps[0]), steps[1..], sn)
  }

  /** A worker that has won its block but not yet placed it. */
  predicate Carries(w: Worker, sn: nat) {
    (w.Won? || w.Counted? || w.Tallied? || w.Buffered? || w.Direct?) && w.sn == sn
  }

  predicate Carried(wk: seq<Worker>, sn: nat) {
    exists i :: 0 <= i < |wk| && Carries(wk[i], sn)
  }

  function Placed(s: State, sn: nat): nat {
    if sn in s.rcv.bm && !Carried(s.wk, sn) then 1 else 0
  }

  function Accepted(s: State, sn: nat): nat {
    if sn in s.rcv.bm then 1 else 0
  }

  lemma AcceptStep(c: Config, s: State, st: Step, sn: nat)
    requires Enabled(c, s, st)
    ensures Accepted(Apply(c, s, st), sn) == Accepted(s, sn) + if AcceptsBlock(s, st, sn) then 1 else 0
  {
    hide IngestApply, IngestEnabled, Carries;
    if ActorOf(st).TheWorkers? {
      CarryStep(c, s, st, sn);
      NotBoth(s, st, sn);
    } else {
      hide Apply;
      OtherShape(c, s, st);
    }
  }

  /** How the carriers of a block change when one worker does. */
  lemma CarriedUpdate(wk: seq<Worker>, w: nat, now: Worker, sn: nat)
    requires w < |wk|
    ensures Carries(now, sn) ==> Carried(wk[w := now], sn)
    ensures !Carries(wk[w], sn) && !Carries(now, sn) ==> (Carried(wk[w := now], sn) <==> Carried(wk, sn))
    ensures Carries(wk[w], sn) ==> Carried(wk, sn)
    ensures !Carries(now, sn) && (forall j :: 0 <= j < |wk| && j != w ==> !Carries(wk[j], sn))
            ==> !Carried(wk[w := now], sn)
  {
    if Carries(now, sn) {
      assert Carries(wk[w := now][w], sn);
    }
    if Carried(wk, sn) && !Carries(wk[w], sn) {
      var i :| 0 <= i < |wk| && Carries(wk[i], sn);
      assert wk[w := now][i] == wk[i];
    }
    if Carried(wk[w := now], sn) && !Carries(now, sn) {
      var i :| 0 <= i < |wk| && Carries(wk[w := now][i], sn);
      assert wk[w := now][i] == wk[i];
    }
  }

  lemma WorkShape(c: Config, s: State, w: nat)
    requires w < |s.wk|
    ensures var t := WorkApply(c, s, w);
      && |t.wk| == |s.wk| && t.wk == s.wk[w := t.wk[w]]
      && t == s.(rcv := t.rcv, wk := t.wk, sink := t.sink) && (s.rcv.allSent ==> t.rcv.allSent)
  {
    hide WriteAt;
  }

  lemma DeliverShape(c: Config, s: State, w: nat, p: Packet, parsed: bool)
    requires w < |s.wk| && !p.Feedback?
    ensures var t := DeliverApply(c, s, w, p, parsed);
      && |t.wk| == |s.wk| && t.wk == s.wk[w := t.wk[w]]
      && t == s.(net := t.net, wk := t.wk, rcv := s.rcv.(peer := t.rcv.peer))
  {
  }

  /** No step changes what belongs to another thread. */
  lemma OwnParts(c: Config, s: State, st: Step)
    requires Enabled(c, s, st)
    ensures var t := Apply(c, s, st);
      && (!ActorOf(st).TheReporter? ==> t.fb == s.fb) && (!ActorOf(st).TheSender? ==> t.snd == s.snd)
      && (!ActorOf(st).TheFlusher? ==> t.fl == s.fl) && (s.rcv.allSent ==> t.rcv.allSent)
  {
    hide SenderApply, WorkApply, DeliverApply, FlushApply, FbApply;
    match ActorOf(st)
    case TheSender => SenderShape(c, s, st);
    case TheNetwork =>
    case TheReporter => FeedbackShape(c, s, st);
    case TheFlusher => FlushShape(c, s);
    case TheWorkers =>
      if st.Work? {
        WorkShape(c, s, st.w);
      } else if st.Deliver? {
        DeliverShape(c, s, st.w, st.p, st.parsed);
      }
  }

  lemma SenderShape(c: Config, s: State, st: Step)
    requires SenderEnabled(c, s, st)
    ensures var t := SenderApply(c, s, st); t == s.(snd := t.snd, net := t.net)
  {
    hide PrefetchApply, PrefetchEnabled, BuildApply, BuildEnabled, Genuine, Total;
  }

  lemma OtherShape(c: Config, s: State, st: Step)
    requires Enabled(c, s, st) && !st.Work? && !st.DirectFail? && !st.Deliver?
    ensures Apply(c, s, st).wk == s.wk && Apply(c, s, st).rcv.bm == s.rcv.bm
  {
    hide SenderApply, FbApply;
    if st.Tick? || st.Fb? || st.FbPeer? {
      FeedbackShape(c, s, st);
    } else if SenderEnabled(c, s, st) {
      SenderShape(c, s, st);
    }
  }

  /** What a step of a worker does to the block it may be carrying. */
  predicate Carriage(s: State, st: Step, was: Worker, now: Worker, bm: set<nat>, sn: nat) {
    && (sn in bm <==> sn in s.rcv.bm || AcceptsBlock(s, st, sn))
    && (PlacesBlock(s, st, sn) ==> Carries(was, sn) && !Carries(now, sn))
    && (AcceptsBlock(s, st, sn) ==> !Carries(was, sn) && Carries(now, sn))
    && (!PlacesBlock(s, st, sn) && !AcceptsBlock(s, st, sn) ==> (Carries(now, sn) <==> Carries(was, sn)))
  }

  lemma RaisedCarries(c: Config, s: State, w: nat, sn: nat)
    requires w < |s.wk| && s.wk[w].Raised?
    ensures var t := WorkApply(c, s, w); |t.wk| == |s.wk| && Carriage(s, Work(w), s.wk[w], t.wk[w], t.rcv.bm, sn)
  {
  }

  lemma PlaceCarries(c: Config, s: State, w: nat, sn: nat)
    requires w < |s.wk| && (s.wk[w].Buffered? || s.wk[w].Direct?)
    ensures var t := WorkApply(c, s, w); |t.wk| == |s.wk| && Carriage(s, Work(w), s.wk[w], t.wk[w], t.rcv.bm, sn)
  {
    hide WriteAt;
  }

  lemma RestCarries(c: Config, s: State, w: nat, sn: nat)
    requires w < |s.wk| && !s.wk[w].Raised? && !s.wk[w].Buffered? && !s.wk[w].Direct?
    ensures var t := WorkApply(c, s, w); |t.wk| == |s.wk| && Carriage(s, Work(w), s.wk[w], t.wk[w], t.rcv.bm, sn)
  {
  }

  lemma DeliverCarries(c: Config, s: State, st: Step, sn: nat)
    requires IngestEnabled(c, s, st) && st.Deliver?
    ensures var t := DeliverApply(c, s, st.w, st.p, st.parsed);
      |t.wk| == |s.wk| && Carriage(s, st, s.wk[st.w], t.wk[st.w], t.rcv.bm, sn)
  {
    hide Total;
  }

  lemma CarryStep(c: Config, s: State, st: Step, sn: nat)
    requires IngestEnabled(c, s, st)
    ensures st.Work? || st.Deliver? || st.DirectFail?
    ensures var t := IngestApply(c, s, st);
      st.w < |s.wk| && |t.wk| == |s.wk| && Carriage(s, st, s.wk[st.w], t.wk[st.w], t.rcv.bm, sn)
  {
    hide WorkApply, DeliverApply, WriteAt;
    if st.Deliver? {
      DeliverCarries(c, s, st, sn);
    } else if st.Work? {
      if s.wk[st.w].Raised? {
        RaisedCarries(c, s, st.w, sn);
      } else if s.wk[st.w].Buffered? || s.wk[st.w].Direct? {
        PlaceCarries(c, s, st.w, sn);
      } else {
        RestCarries(c, s, st.w, sn);
      }
    }
  }

  lemma BmGrows(c: Config, s: State, st: Step)
    requires Enabled(c, s, st)
    ensures s.rcv.bm <= Apply(c, s, st).rcv.bm
  {
    hide IngestApply, IngestEnabled, Carries;
    if ActorOf(st).TheWorkers? {
      forall sn | sn in s.rcv.bm
        ensures sn in IngestApply(c, s, st).rcv.bm
      {
        CarryStep(c, s, st, sn);
      }
    } else {
      hide Apply;
      OtherShape(c, s, st);
    }
  }

  lemma OwnersOnly(r: Receiver, wk: seq<Worker>, stuck: set<nat>, w: nat, sn: nat)
    requires OwnInv(r, wk, stuck) && w < |wk|
    ensures Carries(wk[w], sn) ==> sn in r.bm && forall j :: 0 <= j < |wk| && j != w ==> !Carries(wk[j], sn)
    ensures sn !in r.bm ==> !Carried(wk, sn)
  {
    hide SomeOwner;
    assert forall j :: 0 <= j < |wk| && Carries(wk[j], sn) ==> Owns(wk[j]) && wk[j].sn == sn;
  }

  lemma PlaceWorker(c: Config, s: State, st: Step, sn: nat)
    requires OwnInv(s.rcv, s.wk, s.stuck) && IngestEnabled(c, s, st)
    ensures Placed(IngestApply(c, s, st), sn) == Placed(s, sn) + if PlacesBlock(s, st, sn) then 1 else 0
  {
    hide IngestApply, IngestEnabled, OwnInv, Carries, Carried, PlacesBlock, AcceptsBlock;
    CarryStep(c, s, st, sn);
    IngestShape(c, s, st);
    OwnersOnly(s.rcv, s.wk, s.stuck, st.w, sn);
    CarriedUpdate(s.wk, st.w, IngestApply(c, s, st).wk[st.w], sn);
    NotBoth(s, st, sn);
  }

  lemma IngestShape(c: Config, s: State, st: Step)
    requires IngestEnabled(c, s, st)
    ensures st.Work? || st.Deliver? || st.DirectFail?
    ensures var t := IngestApply(c, s, st);
      st.w < |s.wk| && |t.wk| == |s.wk| && t.wk == s.wk[st.w := t.wk[st.w]]
  {
    hide WorkApply, DeliverApply, WriteAt;
    if st.Work? {
      WorkShape(c, s, st.w);
    } else if st.Deliver? {
      DeliverShape(c, s, st.w, st.p, st.parsed);
    }
  }

  lemma NotBoth(s: State, st: Step, sn: nat)
    ensures !(PlacesBlock(s, st, sn) && AcceptsBlock(s, st, sn))
    ensures AcceptsBlock(s, st, sn) ==> sn !in s.rcv.bm
  {
  }

  lemma PlaceStep(c: Config, s: State, st: Step, sn: nat)
    requires OwnInv(s.rcv, s.wk, s.stuck) && Enabled(c, s, st)
    ensures Placed(Apply(c, s, st), sn) == Placed(s, sn) + if PlacesBlock(s, st, sn) then 1 else 0
  {
    hide OwnInv, Carried, IngestApply, IngestEnabled;
    if ActorOf(st).TheWorkers? {
      PlaceWorker(c, s, st, sn);
    } else {
      hide Apply;
      OtherShape(c, s, st);
    }
  }

  lemma {:induction false} CountRun(c: Config, s: State, steps: seq<Step>, t: State, sn: nat)
    requires Inv(c, s) && Runs(c, s, steps, t)
    ensures Accepted(t, sn) == Accepted(s, sn) + Acceptances(c, s, steps, sn)
    ensures Placed(t, sn) == Placed(s, sn) + Placements(c, s, steps, sn)
    decreases |steps|
  {
    hide Apply, Enabled, Placed, Accepted, OwnInv;
    hide PoolInv, HeardInv, SendInv, FrontInv, StageInv, SinkInv, DoneInv, FinishInv, NetInv, AskedInv, ScanInv, CountInv;
    Parts(c, s);
    if steps != [] {
      AcceptStep(c, s, steps[0], sn);
      PlaceStep(c, s, steps[0], sn);
      StepKeeps(c, s, steps[0]);
      CountRun(c, Apply(c, s, steps[0]), steps[1..], t, sn);
    }
  }

  /** Exactly once: over any run a block is accepted at most once and placed, by stage
      or by direct write, at most once and only if accepted; in a run that ends complete
      both happened exactly once to every block. */
  lemma AcceptedExactlyOnce(c: Config, s: State, steps: seq<Step>, t: State, sn: nat)
    requires Init(c, s) && Runs(c, s, steps, t)
    ensures Placements(c, s, steps, sn) <= Acceptances(c, s, steps, sn) <= 1
    ensures Acceptances(c, s, steps, sn) == 1 <==> sn in t.rcv.bm
    ensures Complete(c, t) && sn < Total(c) ==> Placements(c, s, steps, sn) == 1
  {
    assert Accepted(s, sn) == 0 && Placed(s, sn) == 0;
    hide Runs, Init;
    InitInv(c, s);
    CountRun(c, s, steps, t, sn);
    if Complete(c, t) {
      RunKeeps(c, s, steps, t);
      NoOwners(c, t);
      CompleteMeansAll(c, t);
    }
  }

  // ---- a failed direct write ----

  /** A direct write that fails leaves its block set in `bm` and clear in `ready_bm` for
      good: whatever happens later, the transfer never completes. */
  lemma StuckForever(c: Config, s0: State, past: seq<Step>, s: State, steps: seq<Step>, t: State)
    requires Init(c, s0) && Runs(c, s0, past, s)
    requires s.stuck != {} && Runs(c, s, steps, t)
    ensures s.stuck <= t.stuck && !Complete(c, t)
  {
    hide Runs, Init, Inv;
    ReachableInv(c, s0, past, s);
    StuckRun(c, s, steps, t);
  }

  lemma {:induction false} StuckRun(c: Config, s: State, steps: seq<Step>, t: State)
    requires Inv(c, s) && s.stuck != {} && Runs(c, s, steps, t)
    ensures s.stuck <= t.stuck && !Complete(c, t)
    decreases |steps|
  {
    hide Inv, Enabled, Apply;
    if steps == [] {
      StuckNotComplete(c, s);
    } else {
      StepKeeps(c, s, steps[0]);
      StuckStep(c, s, steps[0]);
      StuckRun(c, Apply(c, s, steps[0]), steps[1..], t);
    }
  }

  lemma StuckStep(c: Config, s: State, st: Step)
    requires Enabled(c, s, st)
    ensures s.stuck <= Apply(c, s, st).stuck && (!st.DirectFail? ==> Apply(c, s, st).stuck == s.stuck)
  {
    hide SenderApply, WorkApply, DeliverApply, FlushApply, FbApply;
    match ActorOf(st)
    case TheSender => SenderShape(c, s, st);
    case TheNetwork =>
    case TheReporter => FeedbackShape(c, s, st);
    case TheFlusher => FlushShape(c, s);
    case TheWorkers =>
      if st.Work? {
        WorkShape(c, s, st.w);
      } else if st.Deliver? {
        DeliverShape(c, s, st.w, st.p, st.parsed);
      }
  }

  lemma StuckNotComplete(c: Config, s: State)
    requires Inv(c, s) && s.stuck != {}
    ensures !Complete(c, s)
  {
    BmBound(c, s);
    hide PoolInv, HeardInv, SendInv, StageInv, SinkInv, DoneInv, FinishInv, NetInv, AskedInv, ScanInv, CountInv;
    Parts(c, s);
    var sn :| sn in s.stuck;
    assert sn in s.rcv.bm && sn !in s.rcv.ready;
  }
}
