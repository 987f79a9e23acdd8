/** The data plane as one step system: the sender's prefetch, pacing and feedback
    threads, an unreliable network, the receiver's ingest workers, its flusher and
    its feedback thread. Each step is one access to shared state, so any
    interleaving of the threads is a sequence of steps. Failing reads and writes
    are steps of their own. */
module TransferModel {
  import opened Blocks
  import opened LossTracker
  import opened Prelude

  datatype Addr = Addr(ip: nat, port: nat)

  datatype Setup = Setup(
    src: seq<byte>, bs: nat, session: nat,
    sender: Addr, receiver: Addr, expectedIp: Option<nat>,
    workers: nat, maxNacks: nat)

  predicate ValidSetup(c: Setup) {
    && c.bs > 0 && c.workers > 0 && c.maxNacks > 0
    && (c.expectedIp.Some? ==> c.sender.ip == c.expectedIp.value)
  }

  /** What the control channel has settled before the first datagram. */
  type Config = c: Setup | ValidSetup(c) witness Setup([], 1, 0, Addr(0, 0), Addr(0, 0), None, 1, 1)

  function Total(c: Config): nat {
    NumBlocks(|c.src|, c.bs)
  }

  /** Size of the receiver's staging pool: about 96 MiB, but no more buffers than
      blocks, and at least one. */
  function StageDepth(c: Config): (d: nat)
    ensures d >= 1 && (Total(c) > 0 ==> d <= Total(c))
  {
    var d := (96 * 1048576) / c.bs;
    var d := if Total(c) > 0 && d > Total(c) then Total(c) else d;
    if d < 1 then 1 else d
  }

  const SEND_POOL: nat := 4096
  const DONE_SENDS: nat := 8

  datatype Packet =
    | Data(from: Addr, session: nat, sn: nat, payload: seq<byte>, intact: bool)
    | Fin(from: Addr, session: nat, total: nat)
    | Feedback(from: Addr, session: nat, nacks: seq<nat>, hi: nat, done: bool)

  predicate IpAllowed(c: Config, a: Addr) {
    c.expectedIp.Some? ==> a.ip == c.expectedIp.value
  }

  /** The packets the gates of `handle_packet` and of the sender's feedback loop let
      through. `intact` is the verdict of the CRC or of the AEAD tag. */
  predicate Genuine(c: Config, p: Packet) {
    match p
    case Data(from, session, sn, payload, intact) =>
      session == c.session && sn < Total(c) && |payload| <= c.bs && IpAllowed(c, from) && intact
    case Fin(from, session, total) =>
      session == c.session && total == Total(c) && IpAllowed(c, from)
    case Feedback(from, session, _, _, _) =>
      from == c.receiver && session == c.session
  }

  /** The reports that reach the sender's queue: longer ones are cut by its receive buffer,
      and the decoder drops what is left of them. */
  predicate Audible(c: Config, p: Packet) {
    p.Feedback? && Genuine(c, p) && |p.nacks| <= HEARD_NACKS
  }

  /** Can no report be too long to be heard? */
  predicate ReportsFit(c: Config) {
    c.maxNacks <= HEARD_NACKS || Total(c) <= HEARD_NACKS
  }

  // ---- state ----

  datatype Prefetch = Borrowing | Holding | Exited

  datatype Pacing = AtTop | Building | TryNew | Flushing | Returning | FinCheck | Left

  datatype Inbox = Waiting | Got(nacks: seq<nat>, done: bool) | Pushed(done: bool)

  datatype Sender = Sender(
    pf: Prefetch, next: nat, free: nat, ready: seq<nat>,
    pacing: Pacing, toSend: nat, built: nat, batch: seq<Packet>,
    brandNew: nat,   // new blocks in the batch, not yet on the wire
    used: nat,       // pooled buffers in `new_bufs`
    injected: nat,   // new blocks put on the wire so far
    newDone: bool, rex: set<nat>, inbox: Inbox, done: bool,
    readFailed: bool)  // prefetch gave up on a read error

  /** One ingest worker, by what it will do next with the packet it holds. */
  datatype Worker =
    | Idle
    | FinSeen
    | Fresh(sn: nat, data: seq<byte>)
    | Seen(sn: nat, data: seq<byte>)
    | Raised(sn: nat, data: seq<byte>)
    | Won(sn: nat, data: seq<byte>)
    | Counted(sn: nat, data: seq<byte>)
    | Tallied(sn: nat, data: seq<byte>)
    | Buffered(sn: nat, data: seq<byte>)
    | Staged(sn: nat)
    | Direct(sn: nat, data: seq<byte>)
    | Wrote(sn: nat)

  datatype Receiver = Receiver(
    peer: Option<Addr>, seenAny: bool, maxSeen: nat, allSent: bool,
    bm: set<nat>, ready: set<nat>, stage: map<nat, seq<byte>>, free: nat,
    payloadRecv: nat, blocksWritten: nat, statsHi: nat, done: bool)

  datatype FlushPc = Probe | Confirmed | Writing(buf: seq<byte>) | ReturningBuf | Advancing | Storing

  datatype Flusher = Flusher(pc: FlushPc, front: nat, flushed: nat)

  datatype FbPc =
    Sleeping | AdvancingMark | LoadMax | LoadAllSent | CheckSeen | Scanning
    | LoadFin | LoadFlushed | StoreHi | CheckPeer | Collecting | Sending | Counting | Gone

  /** The feedback thread with its local variables for the current tick. */
  datatype Feedbacker = Feedbacker(
    pc: FbPc, sc: Scanner, now: nat, rto: real, ms: nat, cursor: nat,
    fin: bool, complete: bool, cap: nat, out: seq<nat>, doneSends: nat)

  datatype State = State(
    snd: Sender, net: multiset<Packet>, rcv: Receiver, wk: seq<Worker>,
    fl: Flusher, fb: Feedbacker, sink: seq<byte>,
    lost: map<nat, nat>,   // blocks whose flusher write failed, and how many bytes it wrote
    stuck: set<nat>)       // blocks whose direct write failed

  // ---- steps ----

  datatype Step =
    // prefetch
    | PfBorrow | PfPublish | PfReadFail | PfEnd | PfQuit
    // pacing loop
    | PaceTop(n: nat) | PaceLeave | BatchFull | PopRex(readOk: bool) | RexEmpty
    | TakeNew | NoneReady | Disconnected | NewBreak | FlushBatch | ReturnBufs | AnnounceFin
    // sender's feedback loop
    | InRecv(p: Packet) | InPush | InDone
    // network
    | Drop(p: Packet) | Dup(p: Packet) | Forge(p: Packet)
    // ingest
    | Deliver(w: nat, p: Packet, parsed: bool) | Work(w: nat) | DirectFail(w: nat, k: nat)
    // flusher
    | Flush | FlushFail(k: nat)
    // receiver's feedback loop
    | Tick(now: nat, rto: real) | Fb | FbPeer(cap: nat)

  /** Steps in which nothing goes wrong: no loss, no forgery, no failing read or write. */
  predicate Smooth(st: Step) {
    !st.PfReadFail? && !st.Drop? && !st.Dup? && !st.Forge? && !st.DirectFail? && !st.FlushFail?
    && (st.PopRex? ==> st.readOk)
  }

  function DataPdu(c: Config, sn: nat): Packet {
    Data(c.sender, c.session, sn, if sn < Total(c) then Block(c.src, c.bs, sn) else [], true)
  }

  // ---- sender ----

  predicate PrefetchStep(st: Step) {
    st.PfBorrow? || st.PfPublish? || st.PfReadFail? || st.PfEnd? || st.PfQuit?
  }

  predicate PrefetchEnabled(c: Config, d: Sender, st: Step) {
    match st
    case PfBorrow => d.pf.Borrowing? && d.next < Total(c) && d.free > 0
    case PfPublish => d.pf.Holding? && |d.ready| < SEND_POOL
    case PfReadFail => d.pf.Holding?
    case PfEnd => d.pf.Borrowing? && d.next >= Total(c)
    case PfQuit => d.pf.Borrowing? && d.next < Total(c) && d.done
    case _ => false
  }

  function PrefetchApply(c: Config, d: Sender, st: Step): Sender
    requires PrefetchEnabled(c, d, st)
  {
    match st
    case PfBorrow => d.(pf := Holding, free := d.free - 1)
    case PfPublish => d.(pf := Borrowing, ready := d.ready + [d.next], next := d.next + 1)
    case PfReadFail => d.(pf := Exited, readFailed := true)
    case PfEnd => d.(pf := Exited)
    case PfQuit => d.(pf := Exited)
  }

  /** The steps of the pacing loop that put nothing on the wire. */
  predicate BuildStep(st: Step) {
    st.PaceTop? || st.PaceLeave? || st.BatchFull? || st.PopRex? || st.RexEmpty? || st.TakeNew?
    || st.NoneReady? || st.Disconnected? || st.NewBreak? || st.ReturnBufs?
  }

  predicate BuildEnabled(d: Sender, st: Step) {
    match st
    case PaceTop(n) => d.pacing.AtTop? && !d.done && 1 <= n <= MAX_BATCH
    case PaceLeave => d.pacing.AtTop? && d.done
    case BatchFull => d.pacing.Building? && d.built >= d.toSend
    case PopRex(_) => d.pacing.Building? && d.built < d.toSend && d.rex != {}
    case RexEmpty => d.pacing.Building? && d.built < d.toSend && d.rex == {}
    case NewBreak => d.pacing.TryNew? && d.newDone
    case TakeNew => d.pacing.TryNew? && !d.newDone && d.ready != []
    case NoneReady => d.pacing.TryNew? && !d.newDone && d.ready == [] && !d.pf.Exited?
    case Disconnected => d.pacing.TryNew? && !d.newDone && d.ready == [] && d.pf.Exited?
    case ReturnBufs => d.pacing.Returning? && d.free + d.used <= SEND_POOL
    case _ => false
  }

  /** `fill_retransmit`: nothing to send past the end of the file or on a read error. */
  function Refill(c: Config, sn: nat, readOk: bool): seq<Packet> {
    if sn < Total(c) && readOk then [DataPdu(c, sn)] else []
  }

  function BuildApply(c: Config, d: Sender, st: Step): Sender
    requires BuildEnabled(d, st)
  {
    match st
    case PaceTop(n) => d.(pacing := Building, toSend := n, built := 0)
    case PaceLeave => d.(pacing := Left)
    case BatchFull => d.(pacing := Flushing)
    case PopRex(ok) =>
      var sn := MinOf(d.rex);
      var pdus := Refill(c, sn, ok);
      d.(rex := d.rex - {sn}, batch := d.batch + pdus, built := d.built + |pdus|)
    case RexEmpty => d.(pacing := TryNew)
    case NewBreak => d.(pacing := Flushing)
    case TakeNew =>
      d.(pacing := Building, ready := d.ready[1..], batch := d.batch + [DataPdu(c, d.ready[0])],
         brandNew := d.brandNew + 1, used := d.used + 1, built := d.built + 1)
    case NoneReady => d.(pacing := Flushing, built := d.toSend)
    case Disconnected => d.(pacing := Building, newDone := true)
    case ReturnBufs => d.(pacing := FinCheck, free := d.free + d.used, used := 0)
  }

  predicate SenderEnabled(c: Config, s: State, st: Step) {
    var d := s.snd;
    if PrefetchStep(st) then PrefetchEnabled(c, d, st)
    else if BuildStep(st) then BuildEnabled(d, st)
    else match st
      case FlushBatch => d.pacing.Flushing?
      case AnnounceFin => d.pacing.FinCheck?
      case InRecv(p) => d.inbox.Waiting? && p.Feedback? && p in s.net && !d.done
      case InPush => d.inbox.Got?
      case InDone => d.inbox.Pushed?
      case _ => false
  }

  function SenderApply(c: Config, s: State, st: Step): State
    requires SenderEnabled(c, s, st)
  {
    var d := s.snd;
    if PrefetchStep(st) then s.(snd := PrefetchApply(c, d, st))
    else if BuildStep(st) then s.(snd := BuildApply(c, d, st))
    else match st
      case FlushBatch =>
        s.(net := s.net + multiset(d.batch),
           snd := d.(pacing := Returning, batch := [], injected := d.injected + d.brandNew, brandNew := 0))
      case AnnounceFin =>
        var back := s.(snd := d.(pacing := AtTop));
        if d.newDone && d.rex == {} then
          back.(net := s.net + multiset{Fin(c.sender, c.session, Total(c))})
        else back
      case InRecv(p) =>
        if Audible(c, p) then
          s.(net := s.net - multiset{p}, snd := d.(inbox := Got(p.nacks, p.done)))
        else s.(net := s.net - multiset{p})
      case InPush =>
        s.(snd := d.(rex := d.rex + (set n | n in d.inbox.nacks), inbox := Pushed(d.inbox.done)))
      case InDone => s.(snd := d.(done := d.done || d.inbox.done, inbox := Waiting))
  }

  // ---- network ----

  predicate NetEnabled(c: Config, s: State, st: Step) {
    match st
    case Drop(p) => p in s.net
    case Dup(p) => p in s.net
    case Forge(p) => !Genuine(c, p)
    case _ => false
  }

  function NetApply(s: State, st: Step): State {
    match st
    case Drop(p) => s.(net := s.net - multiset{p})
    case Dup(p) => s.(net := s.net + multiset{p})
    case Forge(p) => s.(net := s.net + multiset{p})
    case _ => s
  }

  // ---- ingest ----

  /** `learn_peer`: the new peer and whether the packet may proceed. */
  function LearnPeer(c: Config, peer: Option<Addr>, addr: Option<Addr>): (Option<Addr>, bool) {
    match addr
    case None => (peer, peer.Some?)
    case Some(a) =>
      if !IpAllowed(c, a) then (peer, false)
      else match peer
        case Some(known) => (peer, known == a)
        case None => (Some(a), true)
  }

  predicate IngestEnabled(c: Config, s: State, st: Step) {
    match st
    // A datagram whose source address the backend cannot report is from an allowed host.
    case Deliver(w, p, parsed) =>
      w < |s.wk| && s.wk[w].Idle? && p in s.net && !p.Feedback? && (parsed || IpAllowed(c, p.from))
    case Work(w) => w < |s.wk| && !s.wk[w].Idle?
    case DirectFail(w, k) => w < |s.wk| && s.wk[w].Direct? && k <= |s.wk[w].data|
    case _ => false
  }

  /** `handle_packet` up to the point where it first writes shared receive state. */
  function DeliverApply(c: Config, s: State, w: nat, p: Packet, parsed: bool): State
    requires w < |s.wk| && !p.Feedback?
  {
    var addr := if parsed then Some(p.from) else None;
    var gone := s.(net := s.net - multiset{p});
    match p
    case Fin(_, session, total) =>
      if session != c.session || total != Total(c) then gone
      else
        var (peer, ok) := LearnPeer(c, s.rcv.peer, addr);
        if ok then gone.(rcv := s.rcv.(peer := peer), wk := s.wk[w := FinSeen]) else gone
    case Data(_, session, sn, payload, intact) =>
      if session != c.session || sn >= Total(c) || |payload| > c.bs then gone
      else if addr.Some? && !IpAllowed(c, addr.value) then gone
      else if !intact then gone
      else
        var (peer, ok) := LearnPeer(c, s.rcv.peer, addr);
        if ok then gone.(rcv := s.rcv.(peer := peer), wk := s.wk[w := Fresh(sn, payload)]) else gone
  }

  /** The rest of `handle_packet`, one shared access at a time: what a worker's next access
      does to the receiver's shared state, */
  function WorkShared(r: Receiver, w: Worker): Receiver {
    match w
    case Idle => r
    case FinSeen => r.(allSent := true)
    case Fresh(_, _) => r.(seenAny := true)
    case Seen(sn, _) => r.(maxSeen := if sn > r.maxSeen then sn else r.maxSeen)
    case Raised(sn, _) => if sn in r.bm then r else r.(bm := r.bm + {sn})
    case Won(_, data) => r.(payloadRecv := r.payloadRecv + |data|)
    case Counted(_, _) => r.(blocksWritten := r.blocksWritten + 1)
    case Tallied(_, _) => if r.free > 0 then r.(free := r.free - 1) else r
    case Buffered(sn, data) => r.(stage := r.stage[sn := data])
    case Staged(sn) => r.(ready := r.ready + {sn})
    case Direct(_, _) => r
    case Wrote(sn) => r.(ready := r.ready + {sn})
  }

  /** and what the worker does after it. */
  function WorkNext(r: Receiver, w: Worker): Worker {
    match w
    case Idle => Idle
    case FinSeen => Idle
    case Fresh(sn, data) => Seen(sn, data)
    case Seen(sn, data) => Raised(sn, data)
    case Raised(sn, data) => if sn in r.bm then Idle else Won(sn, data)
    case Won(sn, data) => Counted(sn, data)
    case Counted(sn, data) => Tallied(sn, data)
    case Tallied(sn, data) => if r.free > 0 then Buffered(sn, data) else Direct(sn, data)
    case Buffered(sn, _) => Staged(sn)
    case Staged(_) => Idle
    case Direct(sn, _) => Wrote(sn)
    case Wrote(_) => Idle
  }

  function WorkApply(c: Config, s: State, w: nat): State
    requires w < |s.wk|
  {
    var k := s.wk[w];
    s.(rcv := WorkShared(s.rcv, k), wk := s.wk[w := WorkNext(s.rcv, k)],
       sink := if k.Direct? then WriteAt(s.sink, k.sn * c.bs, k.data) else s.sink)
  }

  /** A direct write that errors, perhaps after writing some of its bytes. */
  function DirectFailApply(c: Config, s: State, w: nat, k: nat): State
    requires IngestEnabled(c, s, DirectFail(w, k))
  {
    var sn := s.wk[w].sn;
    s.(sink := WriteAt(s.sink, sn * c.bs, s.wk[w].data[..k]), wk := s.wk[w := Idle], stuck := s.stuck + {sn})
  }

  function IngestApply(c: Config, s: State, st: Step): State
    requires IngestEnabled(c, s, st)
  {
    match st
    case Deliver(w, p, parsed) => DeliverApply(c, s, w, p, parsed)
    case Work(w) => WorkApply(c, s, w)
    case DirectFail(w, k) => DirectFailApply(c, s, w, k)
  }

  // ---- flusher ----

  predicate FlushEnabled(c: Config, s: State, st: Step) {
    match st
    case Flush =>
      (match s.fl.pc
       case Probe => s.fl.front < Total(c) && s.fl.front in s.rcv.ready
       case ReturningBuf => s.rcv.free < StageDepth(c)
       case _ => true)
    case FlushFail(k) => s.fl.pc.Writing? && k <= |s.fl.pc.buf|
    case _ => false
  }

  function FlushApply(c: Config, s: State): State {
    var f, r := s.fl, s.rcv;
    match f.pc
    case Probe => s.(fl := f.(pc := Confirmed))
    case Confirmed =>
      if f.front in r.stage
      then s.(fl := f.(pc := Writing(r.stage[f.front])), rcv := r.(stage := r.stage - {f.front}))
      else s.(fl := f.(pc := Advancing))
    case Writing(buf) => s.(fl := f.(pc := ReturningBuf), sink := WriteAt(s.sink, f.front * c.bs, buf))
    case ReturningBuf => s.(fl := f.(pc := Advancing), rcv := r.(free := r.free + 1))
    case Advancing => s.(fl := f.(pc := Storing, front := f.front + 1))
    case Storing => s.(fl := f.(pc := Probe, flushed := f.front))
  }

  /** The flusher logs a failed write and still advances. */
  function FlushFailApply(c: Config, s: State, k: nat): State
    requires FlushEnabled(c, s, FlushFail(k))
  {
    s.(fl := s.fl.(pc := ReturningBuf), lost := s.lost[s.fl.front := k],
       sink := WriteAt(s.sink, s.fl.front * c.bs, s.fl.pc.buf[..k]))
  }

  function FlusherApply(c: Config, s: State, st: Step): State
    requires FlushEnabled(c, s, st)
  {
    match st
    case Flush => FlushApply(c, s)
    case FlushFail(k) => FlushFailApply(c, s, k)
  }

  // ---- receiver's feedback thread ----

  predicate FbEnabled(c: Config, s: State, st: Step) {
    var b := s.fb;
    match st
    case Tick(now, rto) => b.pc.Sleeping? && now >= b.now && 2000.0 <= rto <= 4000000.0
    case Fb => !b.pc.Sleeping? && !b.pc.CheckPeer? && !b.pc.Gone?
    case FbPeer(cap) => b.pc.CheckPeer? && 1 <= cap <= c.maxNacks
    case _ => false
  }

  /** The due time of a block found or asked for now, on a clock that never runs out. */
  function DueAt(now: nat, rto: real): (due: nat)
    ensures rto >= 0.0 ==> due > now
  {
    var t := now as real + rto + RTT_PREC_US;
    if t < 0.0 then 0 else t.Floor
  }

  predicate Looking(pc: FbPc) {
    pc.AdvancingMark? || pc.LoadMax? || pc.LoadAllSent? || pc.CheckSeen? || pc.Scanning? || pc.LoadFin?
  }

  /** The first half of a tick: advance the mark and scan for holes. */
  function Look(c: Config, r: Receiver, b: Feedbacker): Feedbacker
    requires Looking(b.pc)
  {
    match b.pc
    case AdvancingMark =>
      if CanAdvance(b.sc, r.bm) then b.(sc := AdvanceOne(b.sc)) else b.(pc := LoadMax)
    case LoadMax => b.(pc := LoadAllSent, ms := r.maxSeen)
    case LoadAllSent => b.(pc := CheckSeen, ms := if r.allSent && Total(c) > 0 then Total(c) - 1 else b.ms)
    case CheckSeen =>
      if (r.seenAny || r.allSent) && Total(c) > 0 then
        b.(pc := Scanning, cursor := b.sc.next, ms := if b.ms >= Total(c) then Total(c) - 1 else b.ms)
      else b.(pc := LoadFin)
    case Scanning =>
      if b.cursor <= b.ms then
        b.(sc := ScanOne(b.sc, r.bm, b.cursor, DueAt(b.now, b.rto)), cursor := b.cursor + 1)
      else b.(pc := LoadFin, sc := ScanEnd(b.sc, b.ms))
    case LoadFin => b.(pc := LoadFlushed, fin := r.allSent)
  }

  /** One round of `collect_due`. */
  function Collect(b: Feedbacker, bm: set<nat>): Feedbacker {
    if |b.out| < b.cap && CanPop(b.sc, b.now) then
      b.(sc := PopOne(b.sc, bm, DueAt(b.now, b.rto)),
         out := if Reports(b.sc, bm) then b.out + [Top(b.sc.heap).sn] else b.out)
    else b.(pc := Sending)
  }

  /** The report that the feedback thread is about to send. */
  function Report(c: Config, b: Feedbacker): Packet {
    Feedback(c.receiver, c.session, b.out, b.sc.hi, b.complete)
  }

  function FbApply(c: Config, s: State, st: Step): State
    requires FbEnabled(c, s, st)
  {
    var b, r := s.fb, s.rcv;
    match st
    case Tick(now, rto) => s.(fb := b.(pc := AdvancingMark, now := now, rto := rto))
    case FbPeer(cap) =>
      if r.peer.None? then s.(fb := b.(pc := Sleeping))
      else s.(fb := b.(pc := Collecting, cap := cap, out := []))
    case Fb =>
      if Looking(b.pc) then s.(fb := Look(c, r, b))
      else match b.pc
        case LoadFlushed => s.(fb := b.(pc := StoreHi, complete := b.fin && s.fl.flushed == Total(c)))
        case StoreHi => s.(fb := b.(pc := CheckPeer), rcv := r.(statsHi := b.sc.hi))
        case Collecting => s.(fb := Collect(b, r.bm))
        case Sending =>
          s.(fb := b.(pc := Counting),
             net := s.net + multiset{Report(c, b)})
        case Counting =>
          if !b.complete then s.(fb := b.(pc := Sleeping))
          else if b.doneSends + 1 >= DONE_SENDS then
            s.(fb := b.(pc := Gone, doneSends := b.doneSends + 1), rcv := r.(done := true))
          else s.(fb := b.(pc := Sleeping, doneSends := b.doneSends + 1))
  }

  // ---- the whole system ----

  datatype Actor = TheSender | TheNetwork | TheWorkers | TheFlusher | TheReporter

  function ActorOf(st: Step): Actor {
    match st
    case Drop(_) => TheNetwork
    case Dup(_) => TheNetwork
    case Forge(_) => TheNetwork
    case Deliver(_, _, _) => TheWorkers
    case Work(_) => TheWorkers
    case DirectFail(_, _) => TheWorkers
    case Flush => TheFlusher
    case FlushFail(_) => TheFlusher
    case Tick(_, _) => TheReporter
    case Fb => TheReporter
    case FbPeer(_) => TheReporter
    case _ => TheSender
  }

  predicate Enabled(c: Config, s: State, st: Step) {
    match ActorOf(st)
    case TheSender => SenderEnabled(c, s, st)
    case TheNetwork => NetEnabled(c, s, st)
    case TheWorkers => IngestEnabled(c, s, st)
    case TheFlusher => FlushEnabled(c, s, st)
    case TheReporter => FbEnabled(c, s, st)
  }

  function Apply(c: Config, s: State, st: Step): State
    requires Enabled(c, s, st)
  {
    match ActorOf(st)
    case TheSender => SenderApply(c, s, st)
    case TheNetwork => NetApply(s, st)
    case TheWorkers => IngestApply(c, s, st)
    case TheFlusher => FlusherApply(c, s, st)
    case TheReporter => FbApply(c, s, st)
  }

  predicate Init(c: Config, s: State) {
    && s.snd == Sender(if Total(c) > 0 then Borrowing else Exited, 0, SEND_POOL, [],
                       AtTop, 0, 0, [], 0, 0, 0, false, {}, Waiting, false, false)
    && s.net == multiset{}
    && s.rcv == Receiver(None, false, 0, false, {}, {}, map[], StageDepth(c), 0, 0, 0, false)
    && s.wk == seq(c.workers, _ => Idle)
    && s.fl == Flusher(Probe, 0, 0)
    && s.fb == Feedbacker(Sleeping, NewScanner(Total(c)), 0, 2000.0, 0, 0, false, false, 0, [], 0)
    && |s.sink| == |c.src|
    && s.lost == map[] && s.stuck == {}
  }

  /** `steps` leads from `s` to `t`. */
  predicate Runs(c: Config, s: State, steps: seq<Step>, t: State)
    decreases |steps|
  {
    if steps == [] then s == t
    else Enabled(c, s, steps[0]) && Runs(c, Apply(c, s, steps[0]), steps[1..], t)
  }

  /** What the receiver's feedback thread tests before it says DONE. */
  predicate Complete(c: Config, s: State) {
    s.rcv.allSent && s.fl.flushed == Total(c)
  }
}
