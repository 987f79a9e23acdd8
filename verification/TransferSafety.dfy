/** Every step keeps the invariant, hence every run does. */
module TransferSafety {
  import opened Blocks
  import opened LossTracker
  import opened Prelude
  import opened TransferModel
  import opened TransferInvariant

  // ---- sender ----

  /** What a change confined to the sender and the network has to preserve. */
  lemma SenderFrame(c: Config, s: State, t: State)
    requires Inv(c, s)
    requires t == s.(snd := t.snd, net := t.net)
    requires SendInv(c, t.snd) && AskedInv(c, t.snd) && DoneInv(c, t)
    requires Limit(c, s.snd) <= Limit(c, t.snd) <= Total(c)
    requires forall p :: p in t.net ==> p in s.net || TruePacket(c, Limit(c, t.snd), Complete(c, s), p)
    ensures Inv(c, t)
  {
    hide OwnInv, FrontInv, StageInv, SinkInv, PoolInv, CountInv;
    Parts(c, s);
    forall p | p in t.net
      ensures TruePacket(c, Limit(c, t.snd), Complete(c, t), p)
    {
      if p in s.net {
        assert TruePacket(c, Limit(c, s.snd), Complete(c, s), p);
      }
    }
    Whole(c, t);
  }

  lemma TakeNewSend(c: Config, d: Sender)
    requires SendInv(c, d) && BuildEnabled(d, TakeNew)
    ensures SendInv(c, BuildApply(c, d, TakeNew))
  {
    hide Block, Total, NumBlocks;
    var e := BuildApply(c, d, TakeNew);
    assert d.ready[0] == d.injected + d.brandNew;
    assert forall k :: 0 <= k < |e.ready| ==> e.ready[k] == d.ready[k + 1];
  }

  lemma PopRexSend(c: Config, d: Sender, ok: bool)
    requires SendInv(c, d) && AskedInv(c, d) && BuildEnabled(d, PopRex(ok))
    ensures SendInv(c, BuildApply(c, d, PopRex(ok)))
  {
    hide Block, MinOf, NumBlocks;
  }

  lemma OtherSend(c: Config, d: Sender, st: Step)
    requires SendInv(c, d) && BuildEnabled(d, st) && !st.TakeNew? && !st.PopRex?
    ensures SendInv(c, BuildApply(c, d, st))
  {
    hide IsOwnData, Total;
  }

  lemma BuildSend(c: Config, d: Sender, st: Step)
    requires SendInv(c, d) && AskedInv(c, d) && BuildEnabled(d, st)
    ensures var e := BuildApply(c, d, st); SendInv(c, e) && AskedInv(c, e) && Limit(c, e) == Limit(c, d)
  {
    hide SendInv, Refill, DataPdu;
    BuildFrame(c, d, st);
    if st.TakeNew? {
      TakeNewSend(c, d);
    } else if st.PopRex? {
      PopRexSend(c, d, st.readOk);
    } else {
      OtherSend(c, d, st);
    }
  }

  lemma BuildKeeps(c: Config, s: State, st: Step)
    requires Inv(c, s) && BuildStep(st) && SenderEnabled(c, s, st)
    ensures Inv(c, SenderApply(c, s, st))
  {
    hide HeardInv, OwnInv, FrontInv, StageInv, SinkInv, PoolInv, CountInv, ScanInv, FinishInv, NetInv;
    hide SendInv, AskedInv, BuildApply, BuildEnabled, TruePacket;
    Parts(c, s);
    BuildSend(c, s.snd, st);
    BuildFrame(c, s.snd, st);
    DoneNow(c, s);
    SenderFrame(c, s, SenderApply(c, s, st));
  }

  /** Building a batch changes neither what prefetch nor what the feedback thread owns. */
  lemma BuildFrame(c: Config, d: Sender, st: Step)
    requires BuildEnabled(d, st)
    ensures var e := BuildApply(c, d, st);
      && e.pf == d.pf && e.next == d.next && e.readFailed == d.readFailed && e.injected == d.injected
      && e.inbox == d.inbox && e.done == d.done && (e.pacing.Left? ==> d.done)
      && e.free >= d.free && (d.newDone ==> e.newDone)
      && (!st.PopRex? ==> e.rex == d.rex) && (!st.TakeNew? ==> e.ready == d.ready)
  {
    hide MinOf, Refill, DataPdu;
  }

  /** Prefetching changes nothing but what prefetch and the channels own. */
  lemma PrefetchFrame(c: Config, d: Sender, st: Step)
    requires PrefetchEnabled(c, d, st)
    ensures var e := PrefetchApply(c, d, st);
      && e == d.(pf := e.pf, free := e.free, ready := e.ready, next := e.next, readFailed := e.readFailed)
      && d.next <= e.next && !d.pf.Exited? && (d.ready != [] ==> e.ready != [])
      && (!st.PfReadFail? ==> e.readFailed == d.readFailed)
  {
    hide Total;
  }

  /** Putting datagrams on the wire changes nothing but the batch and the count of new
      blocks. */
  lemma WireFrame(c: Config, s: State, st: Step)
    requires SenderEnabled(c, s, st) && (st.FlushBatch? || st.AnnounceFin?)
    ensures var d, e := s.snd, SenderApply(c, s, st).snd;
      && e == d.(pacing := e.pacing, batch := e.batch, injected := e.injected, brandNew := e.brandNew)
      && e.injected + e.brandNew == d.injected + d.brandNew && d.injected <= e.injected
      && ((e.batch == d.batch && e.brandNew == d.brandNew) || (e.batch == [] && e.brandNew == 0))
  {
    hide Total;
  }

  /** Listening changes nothing but the inbox, the queue and the verdict. */
  lemma ListenFrame(c: Config, s: State, st: Step)
    requires SenderEnabled(c, s, st) && (st.InRecv? || st.InPush? || st.InDone?)
    ensures var d, e := s.snd, SenderApply(c, s, st).snd;
      && e == d.(inbox := e.inbox, rex := e.rex, done := e.done) && d.rex <= e.rex
      && (st.InRecv? ==> d.inbox.Waiting?)
  {
    hide Total, Audible;
  }

  /** Where the sender's steps go. */
  lemma SenderClasses(c: Config, s: State, st: Step)
    requires SenderEnabled(c, s, st)
    ensures BuildStep(st) ==> BuildEnabled(s.snd, st) && SenderApply(c, s, st) == s.(snd := BuildApply(c, s.snd, st))
    ensures PrefetchStep(st) ==>
      PrefetchEnabled(c, s.snd, st) && SenderApply(c, s, st) == s.(snd := PrefetchApply(c, s.snd, st))
    ensures !BuildStep(st) && !PrefetchStep(st) ==>
      st.FlushBatch? || st.AnnounceFin? || st.InRecv? || st.InPush? || st.InDone?
  {
    hide BuildApply, PrefetchApply, Total, Audible;
  }

  /** The fields that a step of the sender leaves alone or only raises. */
  lemma SenderFrames(c: Config, s: State, st: Step)
    requires SenderEnabled(c, s, st)
    ensures var d, e := s.snd, SenderApply(c, s, st).snd;
      && (!PrefetchStep(st) ==> e.pf == d.pf && e.next == d.next && e.free >= d.free && e.readFailed == d.readFailed)
      && (!BuildStep(st) && !st.FlushBatch? && !st.AnnounceFin? ==>
            && e.pacing == d.pacing && e.toSend == d.toSend && e.built == d.built && e.batch == d.batch
            && e.brandNew == d.brandNew && e.used == d.used && e.injected == d.injected && e.newDone == d.newDone)
      && (!st.InRecv? && !st.InPush? && !st.InDone? ==> e.inbox == d.inbox && e.done == d.done)
      && (!st.PopRex? ==> d.rex <= e.rex) && (!st.TakeNew? && d.ready != [] ==> e.ready != [])
      && (st.InRecv? ==> d.inbox.Waiting?) && (!st.PfReadFail? ==> e.readFailed == d.readFailed)
      && d.next <= e.next && d.injected <= e.injected && (d.newDone ==> e.newDone) && (d.pf.Exited? ==> e.pf.Exited?)
      && (d.pf.Exited? ==> !PrefetchStep(st))
  {
    hide SenderApply, SenderEnabled, PrefetchApply, BuildApply, BuildEnabled, PrefetchEnabled;
    SenderClasses(c, s, st);
    if BuildStep(st) {
      BuildFrame(c, s.snd, st);
    } else if PrefetchStep(st) {
      PrefetchFrame(c, s.snd, st);
    } else if st.FlushBatch? || st.AnnounceFin? {
      WireFrame(c, s, st);
    } else {
      ListenFrame(c, s, st);
    }
  }

  lemma DoneNow(c: Config, s: State)
    requires Inv(c, s)
    ensures DoneInv(c, s) && Limit(c, s.snd) <= Total(c)
  {
    hide OwnInv, FrontInv, StageInv, SinkInv, PoolInv, CountInv, ScanInv, FinishInv, NetInv, SendInv, AskedInv, DoneInv;
    Parts(c, s);
  }

  /** Prefetch only ever stops early for a read error: by the time DONE makes it
      quit, it has nothing left to read. */
  lemma PrefetchKeeps(c: Config, s: State, st: Step)
    requires Inv(c, s) && SenderEnabled(c, s, st)
    requires st.PfBorrow? || st.PfPublish? || st.PfReadFail? || st.PfEnd? || st.PfQuit?
    ensures Inv(c, SenderApply(c, s, st))
  {
    hide HeardInv, OwnInv, FrontInv, StageInv, SinkInv, PoolInv, CountInv, ScanInv, FinishInv;
    Parts(c, s);
    if st.PfQuit? {
      CompleteMeansAll(c, s);
    }
    SenderFrame(c, s, SenderApply(c, s, st));
  }

  lemma FlushKeeps(c: Config, s: State)
    requires Inv(c, s) && SenderEnabled(c, s, FlushBatch)
    ensures Inv(c, SenderApply(c, s, FlushBatch))
  {
    hide HeardInv, OwnInv, FrontInv, StageInv, SinkInv, PoolInv, CountInv, ScanInv, FinishInv;
    Parts(c, s);
    var t := SenderApply(c, s, FlushBatch);
    assert forall p :: p in t.net ==> p in s.net || p in s.snd.batch;
    SenderFrame(c, s, t);
  }

  lemma FinIsTrue(c: Config, limit: nat, complete: bool)
    ensures limit == Total(c) ==> TruePacket(c, limit, complete, Fin(c.sender, c.session, Total(c)))
  {
  }

  /** FIN leaves only when every block has been on the wire (or prefetch failed). */
  lemma FinKeeps(c: Config, s: State)
    requires Inv(c, s) && SenderEnabled(c, s, AnnounceFin)
    ensures Inv(c, SenderApply(c, s, AnnounceFin))
  {
    hide Inv, Total, TruePacket;
    InboxFacts(c, s);
    var t := SenderApply(c, s, AnnounceFin);
    assert s.snd.newDone ==> Limit(c, s.snd) == Total(c);
    FinIsTrue(c, Limit(c, s.snd), Complete(c, s));
    SenderFrame(c, s, t);
  }

  lemma SendSame(c: Config, d: Sender, e: Sender)
    requires SendInv(c, d) && e == d.(inbox := e.inbox, rex := e.rex, done := e.done)
    ensures SendInv(c, e) && Limit(c, e) == Limit(c, d)
  {
    hide IsOwnData, Total;
  }

  lemma InboxFacts(c: Config, s: State)
    requires Inv(c, s)
    ensures SendInv(c, s.snd) && AskedInv(c, s.snd) && DoneInv(c, s) && Limit(c, s.snd) <= Total(c)
    ensures forall p :: p in s.net ==> TruePacket(c, Limit(c, s.snd), Complete(c, s), p)
  {
    hide OwnInv, FrontInv, StageInv, SinkInv, PoolInv, CountInv, ScanInv, FinishInv, SendInv, AskedInv, DoneInv, TruePacket;
    Parts(c, s);
  }

  lemma InRecvKeeps(c: Config, s: State, p: Packet)
    requires Inv(c, s) && SenderEnabled(c, s, InRecv(p))
    ensures Inv(c, SenderApply(c, s, InRecv(p)))
  {
    hide Inv, SendInv, Total;
    InboxFacts(c, s);
    assert TruePacket(c, Limit(c, s.snd), Complete(c, s), p);
    var t := SenderApply(c, s, InRecv(p));
    SendSame(c, s.snd, t.snd);
    SenderFrame(c, s, t);
  }

  lemma InboxKeeps(c: Config, s: State, st: Step)
    requires Inv(c, s) && SenderEnabled(c, s, st) && (st.InPush? || st.InDone?)
    ensures Inv(c, SenderApply(c, s, st))
  {
    hide Inv, SendInv, Total, TruePacket;
    InboxFacts(c, s);
    var t := SenderApply(c, s, st);
    SendSame(c, s.snd, t.snd);
    SenderFrame(c, s, t);
  }

  lemma NetKeeps(c: Config, s: State, st: Step)
    requires Inv(c, s) && NetEnabled(c, s, st)
    ensures Inv(c, NetApply(s, st))
  {
    Parts(c, s);
    var t := NetApply(s, st);
    forall p | p in t.net
      ensures TruePacket(c, Limit(c, t.snd), Complete(c, t), p)
    {
      assert p in s.net || p == st.p;
    }
    Whole(c, NetApply(s, st));
  }

  // ---- ingest ----

  /** The parts of the invariant that look at what is stored see nothing of the marks, the
      peer and what the feedback thread writes. */
  predicate SameStores(r: Receiver, q: Receiver) {
    && q.bm == r.bm && q.ready == r.ready && q.stage == r.stage && q.free == r.free
    && q.payloadRecv == r.payloadRecv && q.blocksWritten == r.blocksWritten
  }

  lemma StoresKept(c: Config, s: State, q: Receiver)
    requires SameStores(s.rcv, q)
    requires OwnInv(s.rcv, s.wk, s.stuck) && FrontInv(c, s.rcv, s.fl) && StageInv(c, s.rcv, s.wk, s.fl)
    requires SinkInv(c, s.rcv, s.wk, s.fl, s.sink, s.lost) && PoolInv(c, s.rcv, s.wk, s.fl) && CountInv(c, s.rcv, s.wk)
    ensures OwnInv(q, s.wk, s.stuck) && FrontInv(c, q, s.fl) && StageInv(c, q, s.wk, s.fl)
    ensures SinkInv(c, q, s.wk, s.fl, s.sink, s.lost) && PoolInv(c, q, s.wk, s.fl) && CountInv(c, q, s.wk)
  {
    hide Owns, SomeOwner, Landed, SumOf, BytesIn, Block, Total, StageDepth;
  }

  lemma StoreFacts(c: Config, s: State)
    requires Inv(c, s)
    ensures OwnInv(s.rcv, s.wk, s.stuck) && FrontInv(c, s.rcv, s.fl) && StageInv(c, s.rcv, s.wk, s.fl)
    ensures SinkInv(c, s.rcv, s.wk, s.fl, s.sink, s.lost) && PoolInv(c, s.rcv, s.wk, s.fl) && CountInv(c, s.rcv, s.wk)
    ensures HeardInv(c, Limit(c, s.snd), s.rcv, s.wk)
  {
    hide OwnInv, FrontInv, StageInv, SinkInv, PoolInv, CountInv, ScanInv, FinishInv, NetInv, SendInv, AskedInv, DoneInv;
    hide HeardInv;
    Parts(c, s);
  }

  /** Replacing a worker leaves the stage in order if it is staged exactly when its block is. */
  lemma StageWorker(c: Config, r: Receiver, wk: seq<Worker>, fl: Flusher, w: nat, now: Worker)
    requires StageInv(c, r, wk, fl) && w < |wk|
    requires Owns(now) ==> (now.Staged? <==> now.sn in r.stage)
    ensures StageInv(c, r, wk[w := now], fl)
  {
    hide Block, Total;
  }

  lemma SinkWorker(c: Config, r: Receiver, wk: seq<Worker>, fl: Flusher, sink: seq<byte>, lost: map<nat, nat>,
                   w: nat, now: Worker)
    requires SinkInv(c, r, wk, fl, sink, lost) && w < |wk|
    requires now.Wrote? ==> now.sn < Total(c) && Landed(c, sink, now.sn)
    ensures SinkInv(c, r, wk[w := now], fl, sink, lost)
  {
    hide Landed, Total, Unwritten;
  }

  lemma OwnWorker(r: Receiver, wk: seq<Worker>, stuck: set<nat>, w: nat, now: Worker)
    requires OwnInv(r, wk, stuck) && w < |wk| && !Owns(wk[w]) && !Owns(now)
    ensures OwnInv(r, wk[w := now], stuck)
  {
    OwnersStay(wk, w, now);
  }

  lemma SumsWorker(c: Config, r: Receiver, wk: seq<Worker>, fl: Flusher, w: nat, now: Worker)
    requires PoolInv(c, r, wk, fl) && CountInv(c, r, wk) && w < |wk|
    requires HoldsBuf(now) == HoldsBuf(wk[w]) && OwesBlock(now) == OwesBlock(wk[w]) && OwesBytes(now) == OwesBytes(wk[w])
    ensures PoolInv(c, r, wk[w := now], fl) && CountInv(c, r, wk[w := now])
  {
    hide BytesIn, StageDepth, Total, SumOf, HoldsBuf, OwesBlock, OwesBytes;
    SumsAfter(wk, w, now);
  }

  /** A change of one worker's state that moves no block, buffer or counter. */
  lemma WorkerOnly(c: Config, s: State, w: nat, now: Worker)
    requires Inv(c, s) && w < |s.wk|
    requires !Owns(s.wk[w]) && !Owns(now)
    requires WorkerInv(c, Limit(c, s.snd), s.rcv, now)
    ensures Inv(c, s.(wk := s.wk[w := now]))
  {
    hide Inv, OwnInv, FrontInv, StageInv, SinkInv, PoolInv, CountInv, HeardInv, WorkerInv;
    StoreFacts(c, s);
    OwnWorker(s.rcv, s.wk, s.stuck, w, now);
    StageWorker(c, s.rcv, s.wk, s.fl, w, now);
    SinkWorker(c, s.rcv, s.wk, s.fl, s.sink, s.lost, w, now);
    SumsWorker(c, s.rcv, s.wk, s.fl, w, now);
    HeardPass(c, Limit(c, s.snd), s.rcv, s.wk, w, now);
    ReceiverFrame(c, s, s.(wk := s.wk[w := now]));
  }

  lemma OwnersStay(wk: seq<Worker>, w: nat, now: Worker)
    requires w < |wk|
    ensures forall sn :: SomeOwner(wk, sn) && !(Owns(wk[w]) && wk[w].sn == sn) ==> SomeOwner(wk[w := now], sn)
    ensures Owns(now) ==> SomeOwner(wk[w := now], now.sn)
  {
    forall sn | SomeOwner(wk, sn) && !(Owns(wk[w]) && wk[w].sn == sn)
      ensures SomeOwner(wk[w := now], sn)
    {
      var i :| 0 <= i < |wk| && Owns(wk[i]) && wk[i].sn == sn;
      assert wk[w := now][i] == wk[i];
    }
    if Owns(now) {
      assert wk[w := now][w] == now;
    }
  }

  /** Only a genuine packet gets past the gates of `handle_packet`; it leaves the
      peer known and the worker holding what the sender meant. */
  lemma DeliverGate(c: Config, s: State, w: nat, p: Packet, parsed: bool)
    requires IngestEnabled(c, s, Deliver(w, p, parsed))
    requires TruePacket(c, Limit(c, s.snd), Complete(c, s), p)
    requires s.rcv.peer.Some? ==> s.rcv.peer.value == c.sender
    requires Limit(c, s.snd) <= Total(c)
    ensures var t := DeliverApply(c, s, w, p, parsed);
      var gone := s.(net := s.net - multiset{p});
      t == gone
      || (&& Genuine(c, p)
          && t == gone.(rcv := s.rcv.(peer := Some(c.sender)), wk := s.wk[w := t.wk[w]])
          && (t.wk[w].FinSeen? || t.wk[w].Fresh?)
          && WorkerInv(c, Limit(c, s.snd), t.rcv, t.wk[w]))
  {
  }

  lemma PeerLearned(c: Config, s: State)
    requires Inv(c, s)
    ensures Inv(c, s.(rcv := s.rcv.(peer := Some(c.sender))))
  {
    hide Inv, OwnInv, FrontInv, StageInv, SinkInv, PoolInv, CountInv;
    StoreFacts(c, s);
    var t := s.(rcv := s.rcv.(peer := Some(c.sender)));
    StoresKept(c, s, t.rcv);
    forall i | 0 <= i < |t.wk|
      ensures WorkerInv(c, Limit(c, t.snd), t.rcv, t.wk[i])
    {
      assert WorkerInv(c, Limit(c, s.snd), s.rcv, s.wk[i]);
    }
    ReceiverFrame(c, s, t);
  }

  lemma GateFacts(c: Config, s: State, p: Packet)
    requires Inv(c, s) && p in s.net
    ensures TruePacket(c, Limit(c, s.snd), Complete(c, s), p)
    ensures s.rcv.peer.Some? ==> s.rcv.peer.value == c.sender
    ensures Limit(c, s.snd) <= Total(c)
  {
    hide OwnInv, FrontInv, StageInv, SinkInv, PoolInv, CountInv, SendInv, AskedInv, DoneInv, ScanInv, FinishInv, TruePacket;
    Parts(c, s);
  }

  lemma DeliverKeeps(c: Config, s: State, w: nat, p: Packet, parsed: bool)
    requires Inv(c, s) && IngestEnabled(c, s, Deliver(w, p, parsed))
    ensures Inv(c, DeliverApply(c, s, w, p, parsed))
  {
    hide Inv, DeliverApply, TruePacket, WorkerInv;
    GateFacts(c, s, p);
    DeliverGate(c, s, w, p, parsed);
    NetKeeps(c, s, Drop(p));
    var gone := s.(net := s.net - multiset{p});
    var t := DeliverApply(c, s, w, p, parsed);
    if t != gone {
      PeerLearned(c, gone);
      WorkerOnly(c, gone.(rcv := t.rcv), w, t.wk[w]);
    }
  }

  /** What a change confined to the receiver's shared state, workers, flusher and sink
      has to preserve. */
  lemma ReceiverFrame(c: Config, s: State, t: State)
    requires Inv(c, s)
    requires t == s.(rcv := t.rcv, wk := t.wk, fl := t.fl, sink := t.sink, lost := t.lost, stuck := t.stuck)
    requires |t.wk| == |s.wk| && s.rcv.bm <= t.rcv.bm
    requires t.rcv.statsHi == s.rcv.statsHi && t.rcv.done == s.rcv.done
    requires s.rcv.allSent ==> t.rcv.allSent
    requires Complete(c, s) ==> Complete(c, t)
    requires HeardInv(c, Limit(c, s.snd), t.rcv, t.wk)
    requires OwnInv(t.rcv, t.wk, t.stuck) && FrontInv(c, t.rcv, t.fl)
    requires StageInv(c, t.rcv, t.wk, t.fl) && SinkInv(c, t.rcv, t.wk, t.fl, t.sink, t.lost)
    requires PoolInv(c, t.rcv, t.wk, t.fl) && CountInv(c, t.rcv, t.wk)
    ensures Inv(c, t)
  {
    hide HeardInv, OwnInv, FrontInv, StageInv, SinkInv, PoolInv, CountInv;
    Parts(c, s);
    forall p | p in t.net
      ensures TruePacket(c, Limit(c, t.snd), Complete(c, t), p)
    {
      assert TruePacket(c, Limit(c, s.snd), Complete(c, s), p);
    }
    AgreesGrows(s.fb.sc, s.rcv.bm, t.rcv.bm, Scanned(s.fb));
    Whole(c, t);
  }

  lemma SumsAfter(wk: seq<Worker>, w: nat, now: Worker)
    requires w < |wk|
    ensures SumOf(HoldsBuf, wk[w := now]) + HoldsBuf(wk[w]) == SumOf(HoldsBuf, wk) + HoldsBuf(now)
    ensures SumOf(OwesBlock, wk[w := now]) + OwesBlock(wk[w]) == SumOf(OwesBlock, wk) + OwesBlock(now)
    ensures SumOf(OwesBytes, wk[w := now]) + OwesBytes(wk[w]) == SumOf(OwesBytes, wk) + OwesBytes(now)
  {
    SumUpdate(HoldsBuf, wk, w, now);
    SumUpdate(OwesBlock, wk, w, now);
    SumUpdate(OwesBytes, wk, w, now);
  }

  /** The marks `seen_any`, `max_seen` and `all_sent` are raised only by a worker that
      has heard the corresponding packet. */
  lemma MarksRaised(c: Config, s: State, seenAny: bool, maxSeen: nat, allSent: bool)
    requires Inv(c, s)
    requires seenAny || maxSeen > 0 || allSent ==> s.rcv.peer.Some?
    requires seenAny ==> Limit(c, s.snd) > 0
    requires maxSeen == 0 || maxSeen < Limit(c, s.snd)
    requires allSent ==> Limit(c, s.snd) == Total(c)
    requires s.rcv.allSent ==> allSent
    ensures Inv(c, s.(rcv := s.rcv.(seenAny := seenAny, maxSeen := maxSeen, allSent := allSent)))
  {
    hide Inv, OwnInv, FrontInv, StageInv, SinkInv, PoolInv, CountInv;
    StoreFacts(c, s);
    var t := s.(rcv := s.rcv.(seenAny := seenAny, maxSeen := maxSeen, allSent := allSent));
    StoresKept(c, s, t.rcv);
    forall i | 0 <= i < |t.wk|
      ensures WorkerInv(c, Limit(c, t.snd), t.rcv, t.wk[i])
    {
      assert WorkerInv(c, Limit(c, s.snd), s.rcv, s.wk[i]);
    }
    ReceiverFrame(c, s, t);
  }

  lemma HeldFacts(c: Config, s: State, w: nat)
    requires Inv(c, s) && w < |s.wk|
    ensures WorkerInv(c, Limit(c, s.snd), s.rcv, s.wk[w])
    ensures s.rcv.maxSeen == 0 || s.rcv.maxSeen < Limit(c, s.snd)
    ensures s.rcv.seenAny ==> s.rcv.peer.Some? && Limit(c, s.snd) > 0
    ensures s.rcv.allSent ==> s.rcv.peer.Some? && Limit(c, s.snd) == Total(c)
  {
    Parts(c, s);
  }

  lemma MarkKeeps(c: Config, s: State, w: nat)
    requires Inv(c, s) && IngestEnabled(c, s, Work(w))
    requires s.wk[w].FinSeen? || s.wk[w].Fresh? || s.wk[w].Seen?
    ensures Inv(c, WorkApply(c, s, w))
  {
    hide Inv;
    HeldFacts(c, s, w);
    var t := WorkApply(c, s, w);
    var mid := s.(rcv := s.rcv.(seenAny := t.rcv.seenAny, maxSeen := t.rcv.maxSeen, allSent := t.rcv.allSent));
    assert mid.rcv == t.rcv;
    MarksRaised(c, s, t.rcv.seenAny, t.rcv.maxSeen, t.rcv.allSent);
    WorkerOnly(c, mid, w, t.wk[w]);
    assert t == mid.(wk := mid.wk[w := t.wk[w]]);
  }

  // A block won in the bitmap.

  lemma WinOwn(r: Receiver, wk: seq<Worker>, stuck: set<nat>, w: nat)
    requires OwnInv(r, wk, stuck) && w < |wk| && wk[w].Raised? && wk[w].sn !in r.bm
    ensures OwnInv(r.(bm := r.bm + {wk[w].sn}), wk[w := Won(wk[w].sn, wk[w].data)], stuck)
  {
    OwnersStay(wk, w, Won(wk[w].sn, wk[w].data));
  }

  lemma WinCount(c: Config, r: Receiver, wk: seq<Worker>, w: nat)
    requires CountInv(c, r, wk) && w < |wk| && wk[w].Raised? && wk[w].sn !in r.bm
    requires wk[w].sn < Total(c) && wk[w].data == Block(c.src, c.bs, wk[w].sn)
    ensures CountInv(c, r.(bm := r.bm + {wk[w].sn}), wk[w := Won(wk[w].sn, wk[w].data)])
  {
    SumsAfter(wk, w, Won(wk[w].sn, wk[w].data));
    BytesInInsert(c.src, c.bs, r.bm, Total(c), wk[w].sn);
  }

  lemma WinKeeps(c: Config, s: State, w: nat)
    requires Inv(c, s) && IngestEnabled(c, s, Work(w)) && s.wk[w].Raised?
    ensures Inv(c, WorkApply(c, s, w))
  {
    hide SendInv, AskedInv, DoneInv, NetInv, FrontInv, SinkInv, PoolInv, CountInv, OwnInv, ScanInv, FinishInv;
    Parts(c, s);
    assert WorkerInv(c, Limit(c, s.snd), s.rcv, s.wk[w]);
    if s.wk[w].sn in s.rcv.bm {
      WorkerOnly(c, s, w, Idle);
    } else {
      WinOwn(s.rcv, s.wk, s.stuck, w);
      WinCount(c, s.rcv, s.wk, w);
      WinRest(c, s, w);
      ReceiverFrame(c, s, WorkApply(c, s, w));
    }
  }

  lemma WinRest(c: Config, s: State, w: nat)
    requires w < |s.wk| && s.wk[w].Raised? && s.wk[w].sn !in s.rcv.bm
    requires FrontInv(c, s.rcv, s.fl) && StageInv(c, s.rcv, s.wk, s.fl)
    requires SinkInv(c, s.rcv, s.wk, s.fl, s.sink, s.lost) && PoolInv(c, s.rcv, s.wk, s.fl)
    ensures var t := WorkApply(c, s, w);
      && FrontInv(c, t.rcv, t.fl) && StageInv(c, t.rcv, t.wk, t.fl)
      && SinkInv(c, t.rcv, t.wk, t.fl, t.sink, t.lost) && PoolInv(c, t.rcv, t.wk, t.fl)
  {
    SumsAfter(s.wk, w, Won(s.wk[w].sn, s.wk[w].data));
  }

  // A won block on its way to the flusher or to the sink.

  lemma OwnPass(r: Receiver, wk: seq<Worker>, stuck: set<nat>, w: nat, now: Worker)
    requires OwnInv(r, wk, stuck) && w < |wk|
    requires Owns(wk[w]) && Owns(now) && now.sn == wk[w].sn
    ensures OwnInv(r, wk[w := now], stuck)
  {
    OwnersStay(wk, w, now);
    forall sn | sn in r.bm
      ensures sn in r.ready || sn in stuck || SomeOwner(wk[w := now], sn)
    {
      if SomeOwner(wk, sn) && sn == now.sn {
        assert SomeOwner(wk[w := now], now.sn);
      }
    }
  }

  lemma HeardPass(c: Config, limit: nat, r: Receiver, wk: seq<Worker>, w: nat, now: Worker)
    requires HeardInv(c, limit, r, wk) && w < |wk|
    requires WorkerInv(c, limit, r, now)
    ensures HeardInv(c, limit, r, wk[w := now])
  {
  }

  /** The counters and the pool follow a worker that counts its block or takes a buffer. */
  lemma PassCounts(c: Config, s: State, w: nat)
    requires w < |s.wk|
    requires s.wk[w].Won? || s.wk[w].Counted? || s.wk[w].Tallied?
    requires PoolInv(c, s.rcv, s.wk, s.fl) && CountInv(c, s.rcv, s.wk)
    ensures var t := WorkApply(c, s, w); PoolInv(c, t.rcv, t.wk, t.fl) && CountInv(c, t.rcv, t.wk)
  {
    hide StageDepth, Block, Total, SumOf, BytesIn;
    var t := WorkApply(c, s, w);
    SumsAfter(s.wk, w, t.wk[w]);
    assert t.wk == s.wk[w := t.wk[w]] && t.rcv.bm == s.rcv.bm && t.rcv.stage == s.rcv.stage && t.fl == s.fl;
  }

  /** Frontier, stage and sink depend on the bitmaps and the stage alone. */
  lemma BytesKept(c: Config, s: State, q: Receiver)
    requires q.bm == s.rcv.bm && q.ready == s.rcv.ready && q.stage == s.rcv.stage
    requires FrontInv(c, s.rcv, s.fl) && StageInv(c, s.rcv, s.wk, s.fl)
    requires SinkInv(c, s.rcv, s.wk, s.fl, s.sink, s.lost)
    ensures FrontInv(c, q, s.fl) && StageInv(c, q, s.wk, s.fl)
    ensures SinkInv(c, q, s.wk, s.fl, s.sink, s.lost)
  {
    hide Owns, Landed, Block, Total;
  }

  lemma PassBytes(c: Config, s: State, w: nat)
    requires w < |s.wk|
    requires s.wk[w].Won? || s.wk[w].Counted? || s.wk[w].Tallied?
    requires FrontInv(c, s.rcv, s.fl) && StageInv(c, s.rcv, s.wk, s.fl)
    requires SinkInv(c, s.rcv, s.wk, s.fl, s.sink, s.lost)
    ensures var t := WorkApply(c, s, w);
      && FrontInv(c, t.rcv, t.fl) && StageInv(c, t.rcv, t.wk, t.fl)
      && SinkInv(c, t.rcv, t.wk, t.fl, t.sink, t.lost)
  {
    hide FrontInv, StageInv, SinkInv;
    var t := WorkApply(c, s, w);
    NotStaged(c, s.rcv, s.wk, s.fl, w);
    BytesKept(c, s, t.rcv);
    StageWorker(c, t.rcv, s.wk, s.fl, w, t.wk[w]);
    SinkWorker(c, t.rcv, s.wk, s.fl, s.sink, s.lost, w, t.wk[w]);
  }

  lemma NotStaged(c: Config, r: Receiver, wk: seq<Worker>, fl: Flusher, w: nat)
    requires StageInv(c, r, wk, fl) && w < |wk| && Owns(wk[w])
    ensures wk[w].Staged? <==> wk[w].sn in r.stage
  {
    hide Block;
  }

  lemma PassKeeps(c: Config, s: State, w: nat)
    requires Inv(c, s) && IngestEnabled(c, s, Work(w))
    requires s.wk[w].Won? || s.wk[w].Counted? || s.wk[w].Tallied?
    ensures Inv(c, WorkApply(c, s, w))
  {
    hide SendInv, AskedInv, DoneInv, NetInv, FrontInv, StageInv, SinkInv, PoolInv, CountInv, OwnInv, ScanInv, FinishInv;
    Parts(c, s);
    assert WorkerInv(c, Limit(c, s.snd), s.rcv, s.wk[w]);
    var t := WorkApply(c, s, w);
    HeardPass(c, Limit(c, s.snd), s.rcv, s.wk, w, t.wk[w]);
    OwnPass(s.rcv, s.wk, s.stuck, w, t.wk[w]);
    OwnSame(s.rcv, t.rcv, t.wk, s.stuck);
    PassCounts(c, s, w);
    PassBytes(c, s, w);
    ReceiverFrame(c, s, t);
  }

  lemma OwnSame(r: Receiver, q: Receiver, wk: seq<Worker>, stuck: set<nat>)
    requires OwnInv(r, wk, stuck) && q.bm == r.bm && q.ready == r.ready
    ensures OwnInv(q, wk, stuck)
  {
  }

  /** The block staged was not staged before, so no buffer is overwritten. */
  lemma StageCounts(c: Config, s: State, w: nat)
    requires w < |s.wk| && s.wk[w].Buffered? && s.wk[w].sn !in s.rcv.stage
    requires PoolInv(c, s.rcv, s.wk, s.fl) && CountInv(c, s.rcv, s.wk)
    ensures var t := WorkApply(c, s, w); PoolInv(c, t.rcv, t.wk, t.fl) && CountInv(c, t.rcv, t.wk)
  {
    hide StageDepth, Block, Total, SumOf, BytesIn;
    var t := WorkApply(c, s, w);
    SumsAfter(s.wk, w, t.wk[w]);
    assert t.wk == s.wk[w := t.wk[w]] && t.rcv.bm == s.rcv.bm && t.fl == s.fl;
    MapGrows(s.rcv.stage, s.wk[w].sn, s.wk[w].data);
  }

  lemma MapGrows(m: map<nat, seq<byte>>, k: nat, v: seq<byte>)
    requires k !in m
    ensures |m[k := v]| == |m| + 1
  {
    assert m[k := v].Keys == m.Keys + {k};
    assert |m[k := v]| == |m[k := v].Keys| && |m| == |m.Keys|;
  }

  lemma MapShrinks(m: map<nat, seq<byte>>, k: nat)
    requires k in m
    ensures |m - {k}| == |m| - 1
  {
    assert (m - {k}).Keys == m.Keys - {k};
    assert |m - {k}| == |(m - {k}).Keys| && |m| == |m.Keys|;
  }

  lemma StageBytes(c: Config, s: State, w: nat)
    requires w < |s.wk| && s.wk[w].Buffered? && s.wk[w].sn !in s.rcv.stage
    requires OwnInv(s.rcv, s.wk, s.stuck) && s.wk[w].sn < Total(c) && s.wk[w].data == Block(c.src, c.bs, s.wk[w].sn)
    requires FrontInv(c, s.rcv, s.fl) && StageInv(c, s.rcv, s.wk, s.fl)
    ensures var t := WorkApply(c, s, w); FrontInv(c, t.rcv, t.fl) && StageInv(c, t.rcv, t.wk, t.fl)
  {
    hide Block, Total, SomeOwner;
    var t, sn := WorkApply(c, s, w), s.wk[w].sn;
    assert sn in s.rcv.bm && sn !in s.rcv.ready;
    assert forall k :: 0 <= k < |s.wk| && k != w && Owns(s.wk[k]) ==> s.wk[k].sn != sn;
  }

  lemma StageSink(c: Config, s: State, w: nat)
    requires w < |s.wk| && s.wk[w].Buffered?
    requires SinkInv(c, s.rcv, s.wk, s.fl, s.sink, s.lost)
    ensures var t := WorkApply(c, s, w); SinkInv(c, t.rcv, t.wk, t.fl, t.sink, t.lost)
  {
    hide Landed, Total;
  }

  lemma StageParts(c: Config, s: State, w: nat)
    requires w < |s.wk| && s.wk[w].Buffered?
    requires OwnInv(s.rcv, s.wk, s.stuck) && s.wk[w].sn < Total(c) && s.wk[w].data == Block(c.src, c.bs, s.wk[w].sn)
    requires FrontInv(c, s.rcv, s.fl) && StageInv(c, s.rcv, s.wk, s.fl)
    requires SinkInv(c, s.rcv, s.wk, s.fl, s.sink, s.lost)
    requires PoolInv(c, s.rcv, s.wk, s.fl) && CountInv(c, s.rcv, s.wk)
    ensures var t := WorkApply(c, s, w);
      && FrontInv(c, t.rcv, t.fl) && StageInv(c, t.rcv, t.wk, t.fl)
      && SinkInv(c, t.rcv, t.wk, t.fl, t.sink, t.lost)
      && PoolInv(c, t.rcv, t.wk, t.fl) && CountInv(c, t.rcv, t.wk)
  {
    hide OwnInv, FrontInv, StageInv, SinkInv, PoolInv, CountInv, WorkApply;
    NotStaged(c, s.rcv, s.wk, s.fl, w);
    StageBytes(c, s, w);
    StageSink(c, s, w);
    StageCounts(c, s, w);
  }

  lemma StageKeeps(c: Config, s: State, w: nat)
    requires Inv(c, s) && IngestEnabled(c, s, Work(w)) && s.wk[w].Buffered?
    ensures Inv(c, WorkApply(c, s, w))
  {
    hide SendInv, AskedInv, DoneInv, NetInv, FrontInv, StageInv, SinkInv, PoolInv, CountInv, OwnInv, ScanInv, FinishInv;
    Parts(c, s);
    assert WorkerInv(c, Limit(c, s.snd), s.rcv, s.wk[w]);
    var t := WorkApply(c, s, w);
    HeardPass(c, Limit(c, s.snd), s.rcv, s.wk, w, t.wk[w]);
    OwnPass(s.rcv, s.wk, s.stuck, w, t.wk[w]);
    OwnSame(s.rcv, t.rcv, t.wk, s.stuck);
    StageParts(c, s, w);
    ReceiverFrame(c, s, t);
  }

  /** Writing a prefix of a block nobody has declared ready disturbs nothing landed. */
  lemma SinkWrite(c: Config, s: State, w: nat, k: nat)
    requires w < |s.wk| && s.wk[w].Direct? && k <= |s.wk[w].data|
    requires OwnInv(s.rcv, s.wk, s.stuck) && s.wk[w].sn < Total(c) && s.wk[w].data == Block(c.src, c.bs, s.wk[w].sn)
    requires SinkInv(c, s.rcv, s.wk, s.fl, s.sink, s.lost)
    ensures var sink := WriteAt(s.sink, s.wk[w].sn * c.bs, s.wk[w].data[..k]);
      && SinkInv(c, s.rcv, s.wk, s.fl, sink, s.lost)
      && (k == |s.wk[w].data| ==> Landed(c, sink, s.wk[w].sn))
  {
    var sn, data := s.wk[w].sn, s.wk[w].data[..k];
    var sink := WriteAt(s.sink, sn * c.bs, data);
    BlockBounds(|c.src|, c.bs, sn);
    assert |sink| == |s.sink|;
    forall i: nat | i < Total(c) && i != sn && Landed(c, s.sink, i)
      ensures Landed(c, sink, i)
    {
      WriteLeavesOthers(s.sink, c.bs, sn, data, i);
    }
    if k == |s.wk[w].data| {
      assert data == s.wk[w].data;
      WriteFillsBlock(s.sink, c.bs, sn, data);
    }
  }

  lemma DirectParts(c: Config, s: State, w: nat)
    requires w < |s.wk| && s.wk[w].Direct?
    requires OwnInv(s.rcv, s.wk, s.stuck) && s.wk[w].sn < Total(c) && s.wk[w].data == Block(c.src, c.bs, s.wk[w].sn)
    requires StageInv(c, s.rcv, s.wk, s.fl)
    requires SinkInv(c, s.rcv, s.wk, s.fl, s.sink, s.lost)
    requires PoolInv(c, s.rcv, s.wk, s.fl) && CountInv(c, s.rcv, s.wk)
    ensures var t := WorkApply(c, s, w);
      && StageInv(c, t.rcv, t.wk, t.fl)
      && SinkInv(c, t.rcv, t.wk, t.fl, t.sink, t.lost)
      && PoolInv(c, t.rcv, t.wk, t.fl) && CountInv(c, t.rcv, t.wk)
  {
    hide OwnInv, StageInv, SinkInv, PoolInv, CountInv, Landed, Block, WriteAt;
    var now, data := Wrote(s.wk[w].sn), s.wk[w].data;
    SinkWrite(c, s, w, |data|);
    assert data[..|data|] == data;
    NotStaged(c, s.rcv, s.wk, s.fl, w);
    StageWorker(c, s.rcv, s.wk, s.fl, w, now);
    SinkWorker(c, s.rcv, s.wk, s.fl, WriteAt(s.sink, s.wk[w].sn * c.bs, data), s.lost, w, now);
    SumsWorker(c, s.rcv, s.wk, s.fl, w, now);
  }

  lemma DirectKeeps(c: Config, s: State, w: nat)
    requires Inv(c, s) && IngestEnabled(c, s, Work(w)) && s.wk[w].Direct?
    ensures Inv(c, WorkApply(c, s, w))
  {
    hide SendInv, AskedInv, DoneInv, NetInv, FrontInv, StageInv, SinkInv, PoolInv, CountInv, OwnInv, ScanInv, FinishInv;
    Parts(c, s);
    assert WorkerInv(c, Limit(c, s.snd), s.rcv, s.wk[w]);
    var t := WorkApply(c, s, w);
    HeardPass(c, Limit(c, s.snd), s.rcv, s.wk, w, t.wk[w]);
    OwnPass(s.rcv, s.wk, s.stuck, w, t.wk[w]);
    DirectParts(c, s, w);
    ReceiverFrame(c, s, t);
  }

  lemma StuckOwn(r: Receiver, wk: seq<Worker>, stuck: set<nat>, w: nat)
    requires OwnInv(r, wk, stuck) && w < |wk| && Owns(wk[w])
    ensures OwnInv(r, wk[w := Idle], stuck + {wk[w].sn})
  {
    OwnersStay(wk, w, Idle);
  }

  lemma DirectFailParts(c: Config, s: State, w: nat, k: nat)
    requires IngestEnabled(c, s, DirectFail(w, k))
    requires OwnInv(s.rcv, s.wk, s.stuck) && s.wk[w].sn < Total(c) && s.wk[w].data == Block(c.src, c.bs, s.wk[w].sn)
    requires StageInv(c, s.rcv, s.wk, s.fl)
    requires SinkInv(c, s.rcv, s.wk, s.fl, s.sink, s.lost)
    requires PoolInv(c, s.rcv, s.wk, s.fl) && CountInv(c, s.rcv, s.wk)
    ensures var t := DirectFailApply(c, s, w, k);
      && OwnInv(t.rcv, t.wk, t.stuck) && StageInv(c, t.rcv, t.wk, t.fl)
      && SinkInv(c, t.rcv, t.wk, t.fl, t.sink, t.lost)
      && PoolInv(c, t.rcv, t.wk, t.fl) && CountInv(c, t.rcv, t.wk)
  {
    hide OwnInv, StageInv, SinkInv, PoolInv, CountInv, Landed, Block, WriteAt;
    StuckOwn(s.rcv, s.wk, s.stuck, w);
    SinkWrite(c, s, w, k);
    StageWorker(c, s.rcv, s.wk, s.fl, w, Idle);
    SinkWorker(c, s.rcv, s.wk, s.fl, DirectFailApply(c, s, w, k).sink, s.lost, w, Idle);
    SumsWorker(c, s.rcv, s.wk, s.fl, w, Idle);
  }

  lemma DirectFailKeeps(c: Config, s: State, w: nat, k: nat)
    requires Inv(c, s) && IngestEnabled(c, s, DirectFail(w, k))
    ensures Inv(c, DirectFailApply(c, s, w, k))
  {
    hide SendInv, AskedInv, DoneInv, NetInv, FrontInv, StageInv, SinkInv, PoolInv, CountInv, OwnInv, ScanInv, FinishInv;
    Parts(c, s);
    assert WorkerInv(c, Limit(c, s.snd), s.rcv, s.wk[w]);
    HeardPass(c, Limit(c, s.snd), s.rcv, s.wk, w, Idle);
    DirectFailParts(c, s, w, k);
    ReceiverFrame(c, s, DirectFailApply(c, s, w, k));
  }

  // Declaring a block ready.

  lemma ReadyOwn(r: Receiver, wk: seq<Worker>, stuck: set<nat>, w: nat)
    requires OwnInv(r, wk, stuck) && w < |wk| && Owns(wk[w])
    ensures OwnInv(r.(ready := r.ready + {wk[w].sn}), wk[w := Idle], stuck)
  {
    OwnersStay(wk, w, Idle);
  }

  lemma ReadyCounts(c: Config, s: State, w: nat)
    requires w < |s.wk| && (s.wk[w].Staged? || s.wk[w].Wrote?)
    requires PoolInv(c, s.rcv, s.wk, s.fl) && CountInv(c, s.rcv, s.wk)
    ensures var t := WorkApply(c, s, w); PoolInv(c, t.rcv, t.wk, t.fl) && CountInv(c, t.rcv, t.wk)
  {
    SumsAfter(s.wk, w, Idle);
  }

  lemma ReadyBytes(c: Config, s: State, w: nat)
    requires w < |s.wk| && (s.wk[w].Staged? || s.wk[w].Wrote?)
    requires FrontInv(c, s.rcv, s.fl) && StageInv(c, s.rcv, s.wk, s.fl)
    requires SinkInv(c, s.rcv, s.wk, s.fl, s.sink, s.lost)
    ensures var t := WorkApply(c, s, w);
      && FrontInv(c, t.rcv, t.fl) && StageInv(c, t.rcv, t.wk, t.fl)
      && SinkInv(c, t.rcv, t.wk, t.fl, t.sink, t.lost)
  {
    var t := WorkApply(c, s, w);
    var sn := s.wk[w].sn;
    assert sn < Total(c);
    assert Unwritten(t.rcv, t.fl, sn) || Landed(c, t.sink, sn);
  }

  lemma ReadyKeeps(c: Config, s: State, w: nat)
    requires Inv(c, s) && IngestEnabled(c, s, Work(w))
    requires s.wk[w].Staged? || s.wk[w].Wrote?
    ensures Inv(c, WorkApply(c, s, w))
  {
    hide SendInv, AskedInv, DoneInv, NetInv, FrontInv, StageInv, SinkInv, PoolInv, CountInv, OwnInv, ScanInv, FinishInv;
    Parts(c, s);
    HeardPass(c, Limit(c, s.snd), s.rcv, s.wk, w, Idle);
    ReadyOwn(s.rcv, s.wk, s.stuck, w);
    ReadyCounts(c, s, w);
    ReadyBytes(c, s, w);
    ReceiverFrame(c, s, WorkApply(c, s, w));
  }

  // ---- flusher ----

  lemma TakeBytes(c: Config, s: State)
    requires s.fl.pc.Confirmed?
    requires FrontInv(c, s.rcv, s.fl) && StageInv(c, s.rcv, s.wk, s.fl)
    requires SinkInv(c, s.rcv, s.wk, s.fl, s.sink, s.lost)
    requires forall k :: 0 <= k < |s.wk| && Owns(s.wk[k]) ==> s.wk[k].sn !in s.rcv.ready
    ensures var t := FlushApply(c, s);
      && FrontInv(c, t.rcv, t.fl) && StageInv(c, t.rcv, t.wk, t.fl)
      && SinkInv(c, t.rcv, t.wk, t.fl, t.sink, t.lost)
  {
    hide Landed, Block, Total;
  }

  lemma MoveBytes(c: Config, s: State)
    requires FlushEnabled(c, s, Flush) && !s.fl.pc.Writing? && !s.fl.pc.Confirmed?
    requires FrontInv(c, s.rcv, s.fl) && StageInv(c, s.rcv, s.wk, s.fl)
    requires SinkInv(c, s.rcv, s.wk, s.fl, s.sink, s.lost)
    ensures var t := FlushApply(c, s);
      && FrontInv(c, t.rcv, t.fl) && StageInv(c, t.rcv, t.wk, t.fl)
      && SinkInv(c, t.rcv, t.wk, t.fl, t.sink, t.lost)
  {
    hide Landed, Block, Total, StageDepth;
  }

  lemma FlusherBytes(c: Config, s: State)
    requires FlushEnabled(c, s, Flush) && !s.fl.pc.Writing?
    requires FrontInv(c, s.rcv, s.fl) && StageInv(c, s.rcv, s.wk, s.fl)
    requires SinkInv(c, s.rcv, s.wk, s.fl, s.sink, s.lost)
    requires forall k :: 0 <= k < |s.wk| && Owns(s.wk[k]) ==> s.wk[k].sn !in s.rcv.ready
    ensures var t := FlushApply(c, s);
      && FrontInv(c, t.rcv, t.fl) && StageInv(c, t.rcv, t.wk, t.fl)
      && SinkInv(c, t.rcv, t.wk, t.fl, t.sink, t.lost)
  {
    hide FrontInv, StageInv, SinkInv, FlushApply;
    if s.fl.pc.Confirmed? {
      TakeBytes(c, s);
    } else {
      MoveBytes(c, s);
    }
  }

  lemma FlusherPool(c: Config, s: State)
    requires FlushEnabled(c, s, Flush)
    requires PoolInv(c, s.rcv, s.wk, s.fl)
    ensures PoolInv(c, FlushApply(c, s).rcv, s.wk, FlushApply(c, s).fl)
  {
    hide StageDepth, SumOf, Total, WriteAt;
    if s.fl.pc.Confirmed? && s.fl.front in s.rcv.stage {
      MapShrinks(s.rcv.stage, s.fl.front);
    }
  }

  /** A flusher write, whole or cut short, touches the front block only. */
  lemma FlusherWrite(c: Config, s: State, k: nat)
    requires s.fl.pc.Writing? && k <= |s.fl.pc.buf|
    requires FrontInv(c, s.rcv, s.fl) && StageInv(c, s.rcv, s.wk, s.fl)
    requires SinkInv(c, s.rcv, s.wk, s.fl, s.sink, s.lost)
    requires forall k :: 0 <= k < |s.wk| && Owns(s.wk[k]) ==> s.wk[k].sn !in s.rcv.ready
    ensures var sink := FlushedSink(c, s, k);
      var fl := s.fl.(pc := ReturningBuf);
      && FrontInv(c, s.rcv, fl) && StageInv(c, s.rcv, s.wk, fl)
      && SinkInv(c, s.rcv, s.wk, fl, sink, s.lost[s.fl.front := k])
      && (k == |s.fl.pc.buf| ==> SinkInv(c, s.rcv, s.wk, fl, sink, s.lost))
  {
    var sn, data := s.fl.front, s.fl.pc.buf[..k];
    var sink := WriteAt(s.sink, sn * c.bs, data);
    BlockBounds(|c.src|, c.bs, sn);
    assert |sink| == |s.sink|;
    forall i: nat | i < Total(c) && i != sn && Landed(c, s.sink, i)
      ensures Landed(c, sink, i)
    {
      WriteLeavesOthers(s.sink, c.bs, sn, data, i);
    }
    if k == |s.fl.pc.buf| {
      assert data == s.fl.pc.buf;
      WriteFillsBlock(s.sink, c.bs, sn, data);
    }
  }

  /** Once complete, the flusher has left its loop. */
  lemma CompleteStops(c: Config, s: State)
    requires FrontInv(c, s.rcv, s.fl) && Complete(c, s)
    ensures !FlushEnabled(c, s, Flush)
    ensures forall k :: !FlushEnabled(c, s, FlushFail(k))
  {
  }

  lemma NobodyReady(r: Receiver, wk: seq<Worker>, stuck: set<nat>)
    requires OwnInv(r, wk, stuck)
    ensures forall k :: 0 <= k < |wk| && Owns(wk[k]) ==> wk[k].sn !in r.ready
  {
    hide SomeOwner;
  }

  lemma FlushShape(c: Config, s: State)
    ensures var t := FlushApply(c, s);
      t == s.(fl := t.fl, sink := t.sink, rcv := s.rcv.(stage := t.rcv.stage, free := t.rcv.free))
  {
    hide WriteAt;
  }

  /** The sink after the flusher has written `k` bytes of its block. */
  function FlushedSink(c: Config, s: State, k: nat): seq<byte>
    requires s.fl.pc.Writing? && k <= |s.fl.pc.buf|
  {
    WriteAt(s.sink, s.fl.front * c.bs, s.fl.pc.buf[..k])
  }

  lemma FlushWriteKeeps(c: Config, s: State, k: nat, lost: map<nat, nat>)
    requires s.fl.pc.Writing? && k <= |s.fl.pc.buf|
    requires lost == s.lost[s.fl.front := k] || (lost == s.lost && k == |s.fl.pc.buf|)
    requires Inv(c, s)
    ensures Inv(c, s.(fl := s.fl.(pc := ReturningBuf), lost := lost, sink := FlushedSink(c, s, k)))
  {
    hide Inv, OwnInv, FrontInv, StageInv, SinkInv, PoolInv, CountInv, HeardInv, FlushedSink;
    StoreFacts(c, s);
    NobodyReady(s.rcv, s.wk, s.stuck);
    NotStopped(c, s);
    FlusherWrite(c, s, k);
    WritePool(c, s.rcv, s.wk, s.fl);
    FlusherFrame(c, s, s.(fl := s.fl.(pc := ReturningBuf), lost := lost, sink := FlushedSink(c, s, k)));
  }

  lemma WritePool(c: Config, r: Receiver, wk: seq<Worker>, fl: Flusher)
    requires PoolInv(c, r, wk, fl) && fl.pc.Writing?
    ensures PoolInv(c, r, wk, fl.(pc := ReturningBuf))
  {
    hide SumOf, StageDepth;
  }

  lemma NotStopped(c: Config, s: State)
    requires FrontInv(c, s.rcv, s.fl) && !s.fl.pc.Probe?
    ensures !Complete(c, s)
  {
  }

  lemma FlushesKeep(c: Config, s: State, st: Step)
    requires Inv(c, s) && FlushEnabled(c, s, st)
    ensures Inv(c, FlusherApply(c, s, st))
  {
    hide Inv, OwnInv, FrontInv, StageInv, SinkInv, PoolInv, CountInv, HeardInv, WriteAt, StageDepth, Total;
    if st.FlushFail? {
      FlushWriteKeeps(c, s, st.k, s.lost[s.fl.front := st.k]);
    } else if s.fl.pc.Writing? {
      var n := |s.fl.pc.buf|;
      assert s.fl.pc.buf[..n] == s.fl.pc.buf;
      FlushWriteKeeps(c, s, n, s.lost);
    } else {
      FlushMoveKeeps(c, s);
    }
  }

  lemma FlushMoveKeeps(c: Config, s: State)
    requires Inv(c, s) && FlushEnabled(c, s, Flush) && !s.fl.pc.Writing?
    ensures Inv(c, FlushApply(c, s))
  {
    hide Inv, OwnInv, FrontInv, StageInv, SinkInv, PoolInv, CountInv, HeardInv, FlushApply, StageDepth;
    StoreFacts(c, s);
    NobodyReady(s.rcv, s.wk, s.stuck);
    if Complete(c, s) {
      CompleteStops(c, s);
    }
    FlushShape(c, s);
    FlusherBytes(c, s);
    FlusherPool(c, s);
    FlusherFrame(c, s, FlushApply(c, s));
  }

  lemma FlusherFrame(c: Config, s: State, t: State)
    requires Inv(c, s)
    requires t == s.(rcv := s.rcv.(stage := t.rcv.stage, free := t.rcv.free), fl := t.fl, sink := t.sink, lost := t.lost)
    requires !Complete(c, s)
    requires FrontInv(c, t.rcv, t.fl) && StageInv(c, t.rcv, t.wk, t.fl)
    requires SinkInv(c, t.rcv, t.wk, t.fl, t.sink, t.lost) && PoolInv(c, t.rcv, t.wk, t.fl)
    ensures Inv(c, t)
  {
    hide SendInv, AskedInv, DoneInv, NetInv, FrontInv, StageInv, SinkInv, PoolInv, ScanInv, FinishInv;
    Parts(c, s);
    forall i | 0 <= i < |t.wk|
      ensures WorkerInv(c, Limit(c, t.snd), t.rcv, t.wk[i])
    {
      assert WorkerInv(c, Limit(c, s.snd), s.rcv, s.wk[i]);
    }
    ReceiverFrame(c, s, t);
  }

  // ---- receiver's feedback thread ----

  lemma ScanningStep(c: Config, limit: nat, s: State)
    requires s.fb.pc.Scanning? && limit <= Total(c)
    requires ScanInv(c, limit, s.rcv, s.fb)
    ensures ScanInv(c, limit, s.rcv, FbApply(c, s, Fb).fb)
  {
    hide Agrees;
    var b := s.fb;
    if b.cursor <= b.ms {
      ScanAgrees(b.sc, s.rcv.bm, b.cursor, DueAt(b.now, b.rto));
    } else {
      NextApart(b.sc, ScanEnd(b.sc, b.ms), s.rcv.bm, b.cursor);
    }
  }

  lemma CollectingStep(c: Config, limit: nat, s: State)
    requires s.fb.pc.Collecting? && limit <= Total(c)
    requires ScanInv(c, limit, s.rcv, s.fb)
    ensures ScanInv(c, limit, s.rcv, FbApply(c, s, Fb).fb)
  {
    hide Agrees, PopOne, Top, DueAt, Total;
    var b := s.fb;
    if |b.out| < b.cap && CanPop(b.sc, b.now) {
      TopScanned(b.sc, s.rcv.bm, b.sc.next);
      PopAgrees(b.sc, s.rcv.bm, b.sc.next, DueAt(b.now, b.rto));
    }
    CollectFrame(b, s.rcv.bm);
  }

  lemma MarkStep(c: Config, limit: nat, s: State)
    requires s.fb.pc.AdvancingMark? && limit <= Total(c)
    requires ScanInv(c, limit, s.rcv, s.fb)
    ensures ScanInv(c, limit, s.rcv, FbApply(c, s, Fb).fb)
  {
    hide Agrees;
    if CanAdvance(s.fb.sc, s.rcv.bm) {
      AdvanceAgrees(s.fb.sc, s.rcv.bm, s.fb.sc.next);
    }
  }

  /** What the receiver's marks promise the feedback thread. */
  predicate Marks(c: Config, limit: nat, r: Receiver) {
    && limit <= Total(c) && (r.seenAny ==> limit > 0) && (r.maxSeen == 0 || r.maxSeen < limit)
    && (r.allSent ==> limit == Total(c))
  }

  lemma LoadSteps(c: Config, limit: nat, r: Receiver, b: Feedbacker)
    requires Marks(c, limit, r) && ScanInv(c, limit, r, b)
    requires b.pc.LoadMax? || b.pc.LoadAllSent? || b.pc.CheckSeen? || b.pc.LoadFin?
    ensures ScanInv(c, limit, r, Look(c, r, b))
  {
    hide Agrees, Total;
  }

  /** Past the scan only the scanner and the report matter. */
  lemma ScanSame(c: Config, limit: nat, r: Receiver, b: Feedbacker, e: Feedbacker)
    requires ScanInv(c, limit, r, b) && !b.pc.Scanning?
    requires e.sc == b.sc && (e.out == b.out || e.out == [])
    requires !e.pc.Scanning? && !e.pc.LoadAllSent? && !e.pc.CheckSeen?
    ensures ScanInv(c, limit, r, e)
  {
    hide Agrees, Total;
  }

  lemma ReportSteps(c: Config, limit: nat, s: State, st: Step)
    requires FbEnabled(c, s, st) && !(st.Fb? && Looking(s.fb.pc)) && !s.fb.pc.Collecting?
    requires ScanInv(c, limit, s.rcv, s.fb)
    ensures ScanInv(c, limit, s.rcv, FbApply(c, s, st).fb)
  {
    hide ScanInv, Look, Total;
    ScanSame(c, limit, s.rcv, s.fb, FbApply(c, s, st).fb);
  }

  lemma ScanSteps(c: Config, limit: nat, s: State, st: Step)
    requires FbEnabled(c, s, st) && Marks(c, limit, s.rcv)
    requires ScanInv(c, limit, s.rcv, s.fb)
    ensures ScanInv(c, limit, s.rcv, FbApply(c, s, st).fb)
  {
    hide ScanInv, Look;
    if s.fb.pc.Scanning? {
      ScanningStep(c, limit, s);
    } else if s.fb.pc.Collecting? {
      CollectingStep(c, limit, s);
    } else if s.fb.pc.AdvancingMark? {
      MarkStep(c, limit, s);
    } else if Looking(s.fb.pc) {
      LoadSteps(c, limit, s.rcv, s.fb);
    } else {
      ReportSteps(c, limit, s, st);
    }
  }

  lemma LookFinish(c: Config, s: State)
    requires Looking(s.fb.pc) && FinishInv(c, s)
    requires s.fb.sc.total == Total(c) && s.fb.sc.hi <= Total(c)
    requires Complete(c, s) ==> forall i: nat :: i < Total(c) ==> i in s.rcv.bm
    ensures FinishInv(c, s.(fb := Look(c, s.rcv, s.fb)))
  {
    hide DueAt, Total;
  }

  lemma FinishSteps(c: Config, s: State, st: Step)
    requires FbEnabled(c, s, st) && FinishInv(c, s)
    requires s.fb.sc.total == Total(c) && s.fb.sc.hi <= Total(c)
    requires Complete(c, s) ==> forall i: nat :: i < Total(c) ==> i in s.rcv.bm
    requires forall a :: a in s.fb.sc.heap ==> a.sn < Total(c)
    ensures FinishInv(c, FbApply(c, s, st))
  {
    hide Look, Collect, Total;
    if st.Fb? && Looking(s.fb.pc) {
      LookFinish(c, s);
    } else if st.Fb? && s.fb.pc.Collecting? {
      CollectFrame(s.fb, s.rcv.bm);
      if s.fb.complete {
        NothingToReport(s.fb, s.rcv.bm);
      }
    }
  }

  lemma NothingToReport(b: Feedbacker, bm: set<nat>)
    requires b.pc.Collecting? && forall a :: a in b.sc.heap ==> a.sn in bm
    ensures Collect(b, bm).out == b.out
  {
    hide PopOne, DueAt;
  }

  lemma CollectFrame(b: Feedbacker, bm: set<nat>)
    requires b.pc.Collecting?
    ensures var e := Collect(b, bm);
      && (e.pc.Collecting? || e.pc.Sending?) && e.sc.hi == b.sc.hi && e.sc.next == b.sc.next && e.sc.total == b.sc.total
      && e == b.(pc := e.pc, sc := e.sc, out := e.out)
  {
    hide Top, DueAt;
  }

  /** What looking for holes leaves alone. */
  lemma LookFrame(c: Config, r: Receiver, b: Feedbacker)
    requires Looking(b.pc)
    ensures var e := Look(c, r, b);
      && e.now == b.now && e.rto == b.rto && e.doneSends == b.doneSends && !e.pc.Collecting? && !e.pc.Sending?
      && (!b.pc.AdvancingMark? ==> e.sc.hi == b.sc.hi && !e.pc.AdvancingMark?)
  {
    hide DueAt, Total;
  }

  /** Only a tick moves the clock, only the `advance` loop the contiguous mark, and only its
      own step sends or counts. */
  lemma FbFrame(c: Config, s: State, st: Step)
    requires FbEnabled(c, s, st)
    ensures var t := FbApply(c, s, st);
      && t.fb.now == (if st.Tick? then st.now else s.fb.now) && (s.fb.pc.Sleeping? ==> st.Tick?)
      && (!s.fb.pc.AdvancingMark? ==> t.fb.sc.hi == s.fb.sc.hi && (!st.Tick? ==> !t.fb.pc.AdvancingMark?))
      && (!s.fb.pc.Sending? ==> t.net == s.net) && (!s.fb.pc.Counting? ==> t.fb.doneSends == s.fb.doneSends)
  {
    hide Look, Collect, Total;
    if st.Fb? && Looking(s.fb.pc) {
      LookFrame(c, s.rcv, s.fb);
    } else if st.Fb? && s.fb.pc.Collecting? {
      CollectFrame(s.fb, s.rcv.bm);
    }
  }

  lemma ReporterFacts(c: Config, s: State)
    requires Inv(c, s)
    ensures Marks(c, Limit(c, s.snd), s.rcv) && ScanInv(c, Limit(c, s.snd), s.rcv, s.fb) && FinishInv(c, s)
    ensures s.fb.sc.total == Total(c) && s.fb.sc.hi <= Total(c)
    ensures Complete(c, s) ==> forall i: nat :: i < Total(c) ==> i in s.rcv.bm
    ensures forall a :: a in s.fb.sc.heap ==> a.sn < Total(c)
  {
    hide SendInv, AskedInv, DoneInv, NetInv, OwnInv, StageInv, SinkInv, PoolInv, CountInv, FinishInv, Agrees, FrontInv;
    Parts(c, s);
    if Complete(c, s) {
      CompleteMeansAll(c, s);
    }
    HiBound(s.fb.sc, s.rcv.bm, Scanned(s.fb));
  }

  lemma FeedbackKeeps(c: Config, s: State, st: Step)
    requires Inv(c, s) && FbEnabled(c, s, st)
    ensures Inv(c, FbApply(c, s, st))
  {
    hide Inv, FbApply, ScanInv, FinishInv, Marks;
    ReporterFacts(c, s);
    ScanSteps(c, Limit(c, s.snd), s, st);
    FinishSteps(c, s, st);
    FeedbackShape(c, s, st);
    FeedbackFrame(c, s, FbApply(c, s, st));
  }

  /** What a step of the feedback thread may change. */
  ghost predicate ReporterOnly(c: Config, s: State, t: State) {
    && t == s.(fb := t.fb, net := t.net, rcv := s.rcv.(statsHi := t.rcv.statsHi, done := t.rcv.done))
    && (t.net == s.net || (s.fb.pc.Sending? && t.net == s.net + multiset{Report(c, s.fb)}))
  }

  lemma LookShape(c: Config, s: State)
    requires Looking(s.fb.pc)
    ensures FbEnabled(c, s, Fb) && FbApply(c, s, Fb) == s.(fb := Look(c, s.rcv, s.fb))
  {
    hide Look;
  }

  lemma ReportShape(c: Config, s: State)
    requires FbEnabled(c, s, Fb) && !Looking(s.fb.pc)
    ensures ReporterOnly(c, s, FbApply(c, s, Fb))
  {
    hide Look, Collect, Total;
  }

  lemma TickShape(c: Config, s: State, st: Step)
    requires FbEnabled(c, s, st) && !st.Fb?
    ensures FbApply(c, s, st) == s.(fb := FbApply(c, s, st).fb)
  {
    hide Look, Collect, Total;
  }

  lemma FeedbackShape(c: Config, s: State, st: Step)
    requires FbEnabled(c, s, st)
    ensures ReporterOnly(c, s, FbApply(c, s, st))
  {
    hide FbApply, Look;
    if !st.Fb? {
      TickShape(c, s, st);
    } else if Looking(s.fb.pc) {
      LookShape(c, s);
    } else {
      ReportShape(c, s);
    }
  }

  lemma HiBound(sc: Scanner, bm: set<nat>, scanned: nat)
    requires Agrees(sc, bm, scanned)
    ensures sc.hi <= sc.total && forall a :: a in sc.heap ==> a.sn < sc.total
  {
  }

  lemma FeedbackFrame(c: Config, s: State, t: State)
    requires Inv(c, s)
    requires ReporterOnly(c, s, t) && ScanInv(c, Limit(c, s.snd), s.rcv, t.fb) && FinishInv(c, t)
    ensures Inv(c, t)
  {
    hide OwnInv, FrontInv, StageInv, SinkInv, PoolInv, CountInv, Agrees, SendInv, AskedInv;
    Parts(c, s);
    StoresKept(c, s, t.rcv);
    forall p | p in t.net
      ensures TruePacket(c, Limit(c, t.snd), Complete(c, t), p)
    {
      if p in s.net {
        assert TruePacket(c, Limit(c, s.snd), Complete(c, s), p);
      }
    }
    forall i | 0 <= i < |t.wk|
      ensures WorkerInv(c, Limit(c, t.snd), t.rcv, t.wk[i])
    {
      assert WorkerInv(c, Limit(c, s.snd), s.rcv, s.wk[i]);
    }
    Whole(c, t);
  }

  // ---- every step, every run ----

  lemma WorkKeeps(c: Config, s: State, w: nat)
    requires Inv(c, s) && IngestEnabled(c, s, Work(w))
    ensures Inv(c, WorkApply(c, s, w))
  {
    hide Inv, WorkApply;
    match s.wk[w]
    case Idle =>
    case FinSeen => MarkKeeps(c, s, w);
    case Fresh(_, _) => MarkKeeps(c, s, w);
    case Seen(_, _) => MarkKeeps(c, s, w);
    case Raised(_, _) => WinKeeps(c, s, w);
    case Won(_, _) => PassKeeps(c, s, w);
    case Counted(_, _) => PassKeeps(c, s, w);
    case Tallied(_, _) => PassKeeps(c, s, w);
    case Buffered(_, _) => StageKeeps(c, s, w);
    case Staged(_) => ReadyKeeps(c, s, w);
    case Direct(_, _) => DirectKeeps(c, s, w);
    case Wrote(_) => ReadyKeeps(c, s, w);
  }

  lemma SenderKeeps(c: Config, s: State, st: Step)
    requires Inv(c, s) && SenderEnabled(c, s, st)
    ensures Inv(c, SenderApply(c, s, st))
  {
    hide Inv, SenderApply, PrefetchEnabled, BuildEnabled;
    if PrefetchStep(st) {
      PrefetchKeeps(c, s, st);
    } else if BuildStep(st) {
      BuildKeeps(c, s, st);
    } else if st.FlushBatch? {
      FlushKeeps(c, s);
    } else if st.AnnounceFin? {
      FinKeeps(c, s);
    } else if st.InRecv? {
      InRecvKeeps(c, s, st.p);
    } else {
      InboxKeeps(c, s, st);
    }
  }

  lemma IngestKeeps(c: Config, s: State, st: Step)
    requires Inv(c, s) && IngestEnabled(c, s, st)
    ensures Inv(c, IngestApply(c, s, st))
  {
    hide Inv, WorkApply, DeliverApply, DirectFailApply;
    match st
    case Deliver(w, p, parsed) => DeliverKeeps(c, s, w, p, parsed);
    case Work(w) => WorkKeeps(c, s, w);
    case DirectFail(w, k) => DirectFailKeeps(c, s, w, k);
  }

  /** The invariant survives every step of every thread and of the network. */
  lemma StepKeeps(c: Config, s: State, st: Step)
    requires Inv(c, s) && Enabled(c, s, st)
    ensures Inv(c, Apply(c, s, st))
  {
    hide Inv, SenderApply, SenderEnabled, IngestApply, IngestEnabled, FlusherApply, FlushEnabled, FbApply, FbEnabled;
    hide NetApply, NetEnabled, ActorOf;
    match ActorOf(st)
    case TheSender => SenderKeeps(c, s, st);
    case TheNetwork => NetKeeps(c, s, st);
    case TheWorkers => IngestKeeps(c, s, st);
    case TheFlusher => FlushesKeep(c, s, st);
    case TheReporter => FeedbackKeeps(c, s, st);
  }

  lemma {:induction false} RunKeeps(c: Config, s: State, steps: seq<Step>, t: State)
    requires Inv(c, s) && Runs(c, s, steps, t)
    ensures Inv(c, t)
    decreases |steps|
  {
    hide Inv, Enabled, Apply;
    if steps != [] {
      StepKeeps(c, s, steps[0]);
      RunKeeps(c, Apply(c, s, steps[0]), steps[1..], t);
    }
  }

  lemma ReachableInv(c: Config, s: State, steps: seq<Step>, t: State)
    requires Init(c, s) && Runs(c, s, steps, t)
    ensures Inv(c, t)
  {
    hide Inv, Runs;
    InitInv(c, s);
    RunKeeps(c, s, steps, t);
  }
}
