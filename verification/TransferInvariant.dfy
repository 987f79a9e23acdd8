/** The inductive invariant of the step system, one predicate per concern. */
module TransferInvariant {
  import opened Blocks
  import opened LossTracker
  import opened TransferModel

  /** Blocks the receiver may ever have heard of: those injected so far, or, once
      prefetch has given up on a read error, any block of the file. */
  function Limit(c: Config, d: Sender): nat {
    if d.readFailed then Total(c) else d.injected
  }

  predicate IsOwnData(c: Config, p: Packet) {
    p.Data? && p.sn < Total(c) && p == DataPdu(c, p.sn)
  }

  // ---- sender ----

  predicate InBatch(p: Pacing) {
    p.Building? || p.TryNew? || p.Flushing?
  }

  /** Prefetched blocks are numbered on from those in the batch and on the wire; the
      4096 buffers are free, ready, in the batch or with prefetch, save one that a read
      error takes with it. */
  predicate SendInv(c: Config, d: Sender) {
    && d.next <= Total(c)
    && d.injected + d.brandNew + |d.ready| == d.next
    && (forall k :: 0 <= k < |d.ready| ==> d.ready[k] == d.injected + d.brandNew + k)
    && d.free + |d.ready| + d.used + (if d.pf.Holding? then 1 else 0) + (if d.readFailed then 1 else 0) == SEND_POOL
    && (d.readFailed ==> d.pf.Exited?)
    && (!InBatch(d.pacing) && !d.pacing.Returning? ==> d.used == 0)
    && (d.pf.Holding? ==> d.next < Total(c))
    && (d.pf.Exited? ==> d.next == Total(c) || d.readFailed)
    && (d.newDone ==> d.pf.Exited? && d.ready == [])
    && (d.pacing.TryNew? ==> d.built < d.toSend)
    && (!InBatch(d.pacing) ==> d.batch == [] && d.brandNew == 0)
    && (forall p :: p in d.batch ==> IsOwnData(c, p) && (d.readFailed || p.sn < d.injected + d.brandNew))
  }

  /** Everything the sender has been asked to resend was sent before. */
  predicate AskedInv(c: Config, d: Sender) {
    && (forall x :: x in d.rex ==> x < Limit(c, d))
    && (d.inbox.Got? ==> forall x :: x in d.inbox.nacks ==> x < Limit(c, d))
  }

  /** The sender believes in completion only when it is so. */
  predicate DoneInv(c: Config, s: State) {
    && (s.snd.inbox.Got? && s.snd.inbox.done ==> Complete(c, s))
    && (s.snd.inbox.Pushed? && s.snd.inbox.done ==> Complete(c, s))
    && (s.snd.done ==> Complete(c, s))
    && (s.snd.pacing.Left? ==> s.snd.done)
  }

  // ---- network ----

  predicate TruePacket(c: Config, limit: nat, complete: bool, p: Packet) {
    Genuine(c, p) ==>
      match p
      case Data(_, _, sn, _, _) => p == DataPdu(c, sn) && sn < limit
      case Fin(from, _, _) => from == c.sender && limit == Total(c)
      case Feedback(_, _, nacks, _, done) => (forall x :: x in nacks ==> x < limit) && (done ==> complete)
  }

  predicate NetInv(c: Config, s: State) {
    forall p :: p in s.net ==> TruePacket(c, Limit(c, s.snd), Complete(c, s), p)
  }

  // ---- receiver: what it has heard ----

  predicate HoldsData(w: Worker) {
    w.Fresh? || w.Seen? || w.Raised? || w.Won? || w.Counted? || w.Tallied? || w.Buffered? || w.Direct?
  }

  predicate WorkerInv(c: Config, limit: nat, r: Receiver, w: Worker) {
    && (!w.Idle? ==> r.peer.Some?)
    && (w.FinSeen? ==> limit == Total(c))
    && (HoldsData(w) ==> w.sn < limit && w.sn < Total(c) && w.data == Block(c.src, c.bs, w.sn))
  }

  predicate HeardInv(c: Config, limit: nat, r: Receiver, wk: seq<Worker>) {
    && limit <= Total(c)
    && (r.peer.Some? ==> r.peer.value == c.sender)
    && (forall i :: i in r.bm ==> i < limit)
    && (r.bm != {} || r.seenAny || r.allSent ==> r.peer.Some?)
    && (r.seenAny ==> limit > 0)
    && (r.maxSeen == 0 || r.maxSeen < limit)
    && (r.allSent ==> limit == Total(c))
    && (forall i :: 0 <= i < |wk| ==> WorkerInv(c, limit, r, wk[i]))
  }

  // ---- receiver: who owns a block ----

  predicate Owns(w: Worker) {
    w.Won? || w.Counted? || w.Tallied? || w.Buffered? || w.Staged? || w.Direct? || w.Wrote?
  }

  predicate SomeOwner(wk: seq<Worker>, sn: nat) {
    exists i :: 0 <= i < |wk| && Owns(wk[i]) && wk[i].sn == sn
  }

  /** A block that won the bitmap is with exactly one worker, or ready, or stuck. */
  predicate OwnInv(r: Receiver, wk: seq<Worker>, stuck: set<nat>) {
    && (forall i :: 0 <= i < |wk| && Owns(wk[i]) ==>
          wk[i].sn in r.bm && wk[i].sn !in r.ready && wk[i].sn !in stuck)
    && (forall i, j :: 0 <= i < j < |wk| && Owns(wk[i]) && Owns(wk[j]) ==> wk[i].sn != wk[j].sn)
    && r.ready <= r.bm && stuck <= r.bm && r.ready !! stuck
    && (forall sn :: sn in r.bm ==> sn in r.ready || sn in stuck || SomeOwner(wk, sn))
  }

  // ---- receiver: staged, held and written bytes ----

  /** Block `i` of the sink holds the source's bytes. */
  predicate Landed(c: Config, sink: seq<byte>, i: nat)
    requires |sink| == |c.src| && i < Total(c)
  {
    Block(sink, c.bs, i) == Block(c.src, c.bs, i)
  }

  predicate AtFront(pc: FlushPc) {
    pc.Confirmed? || pc.Writing? || pc.ReturningBuf? || pc.Advancing?
  }

  predicate TookFront(pc: FlushPc) {
    pc.Writing? || pc.ReturningBuf? || pc.Advancing?
  }

  predicate FrontInv(c: Config, r: Receiver, fl: Flusher) {
    && fl.front <= Total(c)
    && (forall i: nat :: i < fl.front ==> i in r.ready)
    && (AtFront(fl.pc) ==> fl.front < Total(c) && fl.front in r.ready)
    && fl.flushed + (if fl.pc.Storing? then 1 else 0) == fl.front
  }

  predicate StageInv(c: Config, r: Receiver, wk: seq<Worker>, fl: Flusher) {
    && (forall i :: i in r.stage ==>
          && i in r.bm && i < Total(c) && r.stage[i] == Block(c.src, c.bs, i)
          && i >= fl.front && (TookFront(fl.pc) ==> i != fl.front))
    && (forall k :: 0 <= k < |wk| && Owns(wk[k]) ==> (wk[k].Staged? <==> wk[k].sn in r.stage))
    && (fl.pc.Writing? ==> fl.front < Total(c) && fl.pc.buf == Block(c.src, c.bs, fl.front))
  }

  /** Is block `i`, which is ready, still to be written by the flusher? */
  predicate Unwritten(r: Receiver, fl: Flusher, i: nat) {
    i in r.stage || (fl.pc.Writing? && i == fl.front)
  }

  predicate SinkInv(c: Config, r: Receiver, wk: seq<Worker>, fl: Flusher, sink: seq<byte>, lost: map<nat, nat>) {
    && |sink| == |c.src|
    && (forall i :: i in r.ready ==> i < Total(c))
    && (forall i :: i in r.ready && i !in lost && !Unwritten(r, fl, i) ==> Landed(c, sink, i))
    && (forall k :: 0 <= k < |wk| && wk[k].Wrote? ==> wk[k].sn < Total(c) && Landed(c, sink, wk[k].sn))
    && (forall i :: i in lost ==> i in r.ready)
  }

  // ---- receiver: pool and counters ----

  function SumOf(f: Worker -> nat, wk: seq<Worker>): nat {
    if wk == [] then 0 else f(wk[0]) + SumOf(f, wk[1..])
  }

  function HoldsBuf(w: Worker): nat { if w.Buffered? then 1 else 0 }
  function OwesBlock(w: Worker): nat { if w.Won? || w.Counted? then 1 else 0 }
  function OwesBytes(w: Worker): nat { if w.Won? then |w.data| else 0 }

  /** Free, staged, held by a worker, held by the flusher: always the whole pool. */
  predicate PoolInv(c: Config, r: Receiver, wk: seq<Worker>, fl: Flusher) {
    r.free + |r.stage| + SumOf(HoldsBuf, wk) + (if fl.pc.Writing? || fl.pc.ReturningBuf? then 1 else 0)
    == StageDepth(c)
  }

  predicate CountInv(c: Config, r: Receiver, wk: seq<Worker>) {
    && r.blocksWritten + SumOf(OwesBlock, wk) == |r.bm|
    && r.payloadRecv + SumOf(OwesBytes, wk) == BytesIn(c.src, c.bs, r.bm, Total(c))
  }

  // ---- receiver's feedback thread ----

  function Scanned(b: Feedbacker): nat {
    if b.pc.Scanning? then b.cursor else b.sc.next
  }

  predicate PastAdvance(pc: FbPc) { !pc.Sleeping? && !pc.AdvancingMark? && !pc.Gone? }

  predicate PastStore(pc: FbPc) {
    pc.CheckPeer? || pc.Collecting? || pc.Sending? || pc.Counting?
  }

  ghost predicate ScanInv(c: Config, limit: nat, r: Receiver, b: Feedbacker) {
    && b.sc.total == Total(c)
    && Agrees(b.sc, r.bm, Scanned(b))
    && b.sc.next <= Scanned(b) <= limit
    && (b.pc.LoadAllSent? || b.pc.CheckSeen? ==> b.ms == 0 || b.ms < limit)
    && (b.pc.Scanning? ==> b.ms < limit && (b.cursor <= b.ms + 1 || b.cursor == b.sc.next))
    && (forall x :: x in b.out ==> x < limit)
  }

  predicate FinishInv(c: Config, s: State) {
    var b := s.fb;
    && (b.pc.LoadFlushed? && b.fin ==> s.rcv.allSent)
    && (b.pc.StoreHi? || PastStore(b.pc) ==> (b.complete ==> Complete(c, s)))
    && ((b.pc.Collecting? || b.pc.Sending?) && b.complete ==> b.out == [])
    && b.doneSends <= DONE_SENDS
    && (b.doneSends >= 1 ==> Complete(c, s))
    && (b.doneSends >= 1 && PastAdvance(b.pc) ==> b.sc.hi == Total(c))
    && (b.doneSends >= 1 && PastStore(b.pc) ==> s.rcv.statsHi == Total(c))
    && (b.doneSends >= 2 ==> s.rcv.statsHi == Total(c))
    && (s.rcv.done <==> b.pc.Gone?)
    && (b.pc.Gone? ==> b.doneSends == DONE_SENDS)
    && (!b.pc.Gone? ==> b.doneSends < DONE_SENDS)
  }

  /** The concerns of the invariant, each with its own predicate. */
  datatype Concern =
    Sends | Asks | Dones | Packets | Hears | Owners | Fronts | Stages | Sinks | Pools | Counts | Scans | Finishes

  ghost predicate Kept(c: Config, s: State, k: Concern) {
    match k
    case Sends => SendInv(c, s.snd)
    case Asks => AskedInv(c, s.snd)
    case Dones => DoneInv(c, s)
    case Packets => NetInv(c, s)
    case Hears => HeardInv(c, Limit(c, s.snd), s.rcv, s.wk)
    case Owners => OwnInv(s.rcv, s.wk, s.stuck)
    case Fronts => FrontInv(c, s.rcv, s.fl)
    case Stages => StageInv(c, s.rcv, s.wk, s.fl)
    case Sinks => SinkInv(c, s.rcv, s.wk, s.fl, s.sink, s.lost)
    case Pools => PoolInv(c, s.rcv, s.wk, s.fl)
    case Counts => CountInv(c, s.rcv, s.wk)
    case Scans => ScanInv(c, Limit(c, s.snd), s.rcv, s.fb)
    case Finishes => FinishInv(c, s)
  }

  ghost predicate Inv(c: Config, s: State) {
    |s.wk| == c.workers && forall k: Concern :: Kept(c, s, k)
  }

  /** The invariant taken apart, */
  lemma Parts(c: Config, s: State)
    requires Inv(c, s)
    ensures |s.wk| == c.workers
    ensures SendInv(c, s.snd) && AskedInv(c, s.snd) && DoneInv(c, s) && NetInv(c, s)
    ensures HeardInv(c, Limit(c, s.snd), s.rcv, s.wk) && OwnInv(s.rcv, s.wk, s.stuck)
    ensures FrontInv(c, s.rcv, s.fl) && StageInv(c, s.rcv, s.wk, s.fl)
    ensures SinkInv(c, s.rcv, s.wk, s.fl, s.sink, s.lost)
    ensures PoolInv(c, s.rcv, s.wk, s.fl) && CountInv(c, s.rcv, s.wk)
    ensures ScanInv(c, Limit(c, s.snd), s.rcv, s.fb) && FinishInv(c, s)
  {
    hide SendInv, AskedInv, DoneInv, NetInv, HeardInv, OwnInv, FrontInv, StageInv, SinkInv, PoolInv, CountInv;
    hide ScanInv, FinishInv;
    assert Kept(c, s, Sends) && Kept(c, s, Asks) && Kept(c, s, Dones) && Kept(c, s, Packets) && Kept(c, s, Hears);
    assert Kept(c, s, Owners) && Kept(c, s, Fronts) && Kept(c, s, Stages) && Kept(c, s, Sinks);
    assert Kept(c, s, Pools) && Kept(c, s, Counts) && Kept(c, s, Scans) && Kept(c, s, Finishes);
  }

  /** and put together. */
  lemma Whole(c: Config, s: State)
    requires |s.wk| == c.workers
    requires SendInv(c, s.snd) && AskedInv(c, s.snd) && DoneInv(c, s) && NetInv(c, s)
    requires HeardInv(c, Limit(c, s.snd), s.rcv, s.wk) && OwnInv(s.rcv, s.wk, s.stuck)
    requires FrontInv(c, s.rcv, s.fl) && StageInv(c, s.rcv, s.wk, s.fl)
    requires SinkInv(c, s.rcv, s.wk, s.fl, s.sink, s.lost)
    requires PoolInv(c, s.rcv, s.wk, s.fl) && CountInv(c, s.rcv, s.wk)
    requires ScanInv(c, Limit(c, s.snd), s.rcv, s.fb) && FinishInv(c, s)
    ensures Inv(c, s)
  {
    hide SendInv, AskedInv, DoneInv, NetInv, HeardInv, OwnInv, FrontInv, StageInv, SinkInv, PoolInv, CountInv;
    hide ScanInv, FinishInv;
  }

  // ---- small facts ----

  lemma {:induction false} SumUpdate(f: Worker -> nat, wk: seq<Worker>, i: nat, w: Worker)
    requires i < |wk|
    ensures SumOf(f, wk[i := w]) + f(wk[i]) == SumOf(f, wk) + f(w)
  {
    if i == 0 {
      assert wk[i := w][1..] == wk[1..];
    } else {
      assert wk[i := w][1..] == wk[1..][i - 1 := w];
      SumUpdate(f, wk[1..], i - 1, w);
    }
  }

  lemma {:induction false} SumIdle(f: Worker -> nat, wk: seq<Worker>)
    requires forall k :: 0 <= k < |wk| ==> f(wk[k]) == 0
    ensures SumOf(f, wk) == 0
  {
    if wk != [] {
      assert f(wk[0]) == 0;
      forall k | 0 <= k < |wk[1..]|
        ensures f(wk[1..][k]) == 0
      {
        assert wk[1..][k] == wk[k + 1];
      }
      SumIdle(f, wk[1..]);
    }
  }

  lemma InitInv(c: Config, s: State)
    requires Init(c, s)
    ensures Inv(c, s)
  {
    hide StageDepth, Block, NumBlocks, BytesIn, SumOf;
    SumIdle(HoldsBuf, s.wk);
    SumIdle(OwesBlock, s.wk);
    SumIdle(OwesBytes, s.wk);
    EmptyBytes(c, Total(c));
    InitReceiver(c, s);
    InitScan(c, s);
    Whole(c, s);
  }

  lemma InitReceiver(c: Config, s: State)
    requires Init(c, s)
    ensures HeardInv(c, 0, s.rcv, s.wk) && OwnInv(s.rcv, s.wk, s.stuck)
    ensures FrontInv(c, s.rcv, s.fl) && StageInv(c, s.rcv, s.wk, s.fl)
    ensures SinkInv(c, s.rcv, s.wk, s.fl, s.sink, s.lost)
  {
    hide StageDepth, Block, NumBlocks;
  }

  lemma InitScan(c: Config, s: State)
    requires Init(c, s)
    ensures ScanInv(c, 0, s.rcv, s.fb) && FinishInv(c, s)
  {
    hide StageDepth, Block, NumBlocks;
  }

  lemma {:induction false} EmptyBytes(c: Config, n: nat)
    requires n <= Total(c)
    ensures BytesIn(c.src, c.bs, {}, n) == 0
  {
    if n > 0 {
      EmptyBytes(c, n - 1);
    }
  }

  /** Completion means every block is in: nothing is left to win, to own or to scan. */
  lemma CompleteMeansAll(c: Config, s: State)
    requires Inv(c, s) && Complete(c, s)
    ensures s.fl.front == Total(c) && s.fl.pc.Probe?
    ensures forall i: nat :: i < Total(c) ==> i in s.rcv.ready && i in s.rcv.bm
    ensures Limit(c, s.snd) == Total(c)
  {
    Parts(c, s);
  }
}
