/** Reports too long for the sender's receive buffer. Where the receiver may put more than
    125 NACKs into a report and the file has more blocks than that, a transfer can come to
    a state from which it never completes, although nothing goes wrong any more. */
module TransferOversize {
  import opened Blocks
  import opened LossTracker
  import opened Prelude
  import opened TransferModel
  import opened TransferInvariant
  import opened TransferPolicy
  import opened TransferSafety
  import opened TransferTheorems
  import opened TransferProgress
  import opened TransferFinish
  import opened TransferWitness
  import opened TransferOverflow

  /** The policy always lets a report have more NACKs than can be heard. */
  ghost predicate Greedy(e: Policy) {
    forall past :: e.perInterval(past) > HEARD_NACKS
  }

  /** The blocks that will be lost: one more than a report that is heard can name. */
  predicate Hole(x: nat) { x <= HEARD_NACKS }

  predicate NoHoles(xs: seq<nat>) {
    forall x :: x in xs ==> !Hole(x)
  }

  // ---- none of them is on its way ----

  /** Nothing on the wire brings a lost block, or asks for one audibly. */
  predicate Barren(c: Config, p: Packet) {
    && (Genuine(c, p) && p.Data? ==> !Hole(p.sn))
    && (Audible(c, p) ==> NoHoles(p.nacks))
  }

  predicate HoldsHole(w: Worker) {
    !w.Idle? && !w.FinSeen? && Hole(w.sn)
  }

  /** The sender has sent everything once and was not asked for a lost block since. */
  predicate SenderCalm(c: Config, d: Sender) {
    && d.injected == Total(c)
    && (forall x :: x in d.rex ==> !Hole(x))
    && (forall p :: p in d.batch ==> p.Data? && !Hole(p.sn))
    && (d.inbox.Got? ==> NoHoles(d.inbox.nacks))
  }

  predicate Calm(c: Config, s: State) {
    && SenderCalm(c, s.snd)
    && (forall p :: p in s.net ==> Barren(c, p))
    && (forall k :: 0 <= k < |s.wk| ==> !HoldsHole(s.wk[k]))
    && (forall x :: x in s.rcv.bm ==> !Hole(x))
  }

  lemma CalmBuild(c: Config, d: Sender, st: Step)
    requires SendInv(c, d) && SenderCalm(c, d) && BuildEnabled(d, st)
    ensures SenderCalm(c, BuildApply(c, d, st))
  {
    hide Block, SendInv, Total;
    AllSent(c, d);
  }

  lemma AllSent(c: Config, d: Sender)
    requires SendInv(c, d) && d.injected == Total(c)
    ensures d.brandNew == 0 && d.ready == []
  {
    hide IsOwnData, Total;
  }

  lemma CalmSent(c: Config, d: Sender)
    requires SendInv(c, d) && SenderCalm(c, d)
    ensures d.brandNew == 0
  {
    hide SendInv, Total;
    AllSent(c, d);
  }

  lemma CalmSender(c: Config, s: State, st: Step)
    requires SendInv(c, s.snd) && SenderCalm(c, s.snd) && SenderEnabled(c, s, st)
    requires forall p :: p in s.net ==> Barren(c, p)
    ensures SenderCalm(c, SenderApply(c, s, st).snd)
  {
    hide SenderApply, SenderEnabled, BuildApply, PrefetchApply, SendInv, Barren, SenderCalm, Total;
    SenderClasses(c, s, st);
    if BuildStep(st) {
      CalmBuild(c, s.snd, st);
    } else if PrefetchStep(st) {
      PrefetchFrame(c, s.snd, st);
      CalmSame(c, s.snd, SenderApply(c, s, st).snd);
    } else if st.FlushBatch? || st.AnnounceFin? {
      CalmSent(c, s.snd);
      WireFrame(c, s, st);
      CalmSame(c, s.snd, SenderApply(c, s, st).snd);
    } else {
      CalmInbox(c, s, st);
    }
  }

  lemma CalmInbox(c: Config, s: State, st: Step)
    requires SenderCalm(c, s.snd) && SenderEnabled(c, s, st)
    requires st.InRecv? || st.InPush? || st.InDone?
    requires forall p :: p in s.net ==> Barren(c, p)
    ensures SenderCalm(c, SenderApply(c, s, st).snd)
  {
    hide Audible, Barren, Total;
    if st.InRecv? {
      Unasked(c, st.p);
    }
  }

  lemma CalmSame(c: Config, d: Sender, e: Sender)
    requires SenderCalm(c, d) && e.injected == d.injected && e.rex == d.rex && e.inbox == d.inbox
    requires e.batch == d.batch || e.batch == []
    ensures SenderCalm(c, e)
  {
    hide Total;
  }

  lemma Unasked(c: Config, p: Packet)
    requires Barren(c, p)
    ensures Audible(c, p) ==> NoHoles(p.nacks)
  {
  }

  lemma CalmWire(c: Config, s: State, st: Step)
    requires SenderCalm(c, s.snd) && SenderEnabled(c, s, st)
    requires forall p :: p in s.net ==> Barren(c, p)
    ensures forall p :: p in SenderApply(c, s, st).net ==> Barren(c, p)
  {
    hide BuildApply, Total;
    forall p | p in SenderApply(c, s, st).net
      ensures Barren(c, p)
    {
      assert p in s.net || p in s.snd.batch || p.Fin?;
    }
  }

  lemma CalmWork(c: Config, s: State, w: nat)
    requires Calm(c, s) && w < |s.wk| && !s.wk[w].Idle?
    ensures Calm(c, WorkApply(c, s, w))
  {
    hide SenderCalm, Barren, WriteAt;
    WorkMoves(c, s, w);
    WorkShape(c, s, w);
  }

  lemma WorkMoves(c: Config, s: State, w: nat)
    requires w < |s.wk| && !HoldsHole(s.wk[w]) && forall x :: x in s.rcv.bm ==> !Hole(x)
    ensures var t := WorkApply(c, s, w);
      |t.wk| == |s.wk| && !HoldsHole(t.wk[w]) && forall x :: x in t.rcv.bm ==> !Hole(x)
  {
    hide WriteAt;
  }

  lemma CalmDeliver(c: Config, s: State, w: nat, p: Packet, parsed: bool)
    requires Calm(c, s) && w < |s.wk| && s.wk[w].Idle? && p in s.net && !p.Feedback?
    requires parsed || IpAllowed(c, p.from)
    ensures Calm(c, DeliverApply(c, s, w, p, parsed))
  {
    hide SenderCalm, Total;
    var t := DeliverApply(c, s, w, p, parsed);
    assert forall q :: q in t.net ==> q in s.net;
    assert Barren(c, p);
  }

  /** Every step of every thread keeps the calm, as long as the receiver's report asks for
      none of the lost blocks or is too long. */
  lemma CalmStep(c: Config, s: State, st: Step)
    requires Inv(c, s) && Calm(c, s) && Enabled(c, s, st)
    requires s.fb.pc.Sending? ==> NoHoles(s.fb.out) || |s.fb.out| > HEARD_NACKS
    ensures Calm(c, Apply(c, s, st))
  {
    hide Inv, SenderApply, SenderEnabled, WorkApply, DeliverApply, FlushApply, FbApply, FbEnabled, SenderCalm;
    hide Barren, HoldsHole, Report, SendInv, AskedInv, DoneInv, TruePacket, Genuine, WriteAt;
    match ActorOf(st)
    case TheSender =>
      InboxFacts(c, s);
      CalmSender(c, s, st);
      CalmWire(c, s, st);
      SenderShape(c, s, st);
    case TheNetwork =>
      if st.Forge? {
        ForgedIsBarren(c, st.p);
      }
    case TheReporter =>
      FeedbackShape(c, s, st);
      if s.fb.pc.Sending? {
        ReportIsBarren(c, s.fb);
      }
    case TheFlusher => FlushShape(c, s);
    case TheWorkers =>
      if st.Work? {
        CalmWork(c, s, st.w);
      } else if st.Deliver? {
        CalmDeliver(c, s, st.w, st.p, st.parsed);
      } else {
        CalmFail(c, s, st);
      }
  }

  lemma ForgedIsBarren(c: Config, p: Packet)
    requires !Genuine(c, p)
    ensures Barren(c, p)
  {
  }

  lemma ReportIsBarren(c: Config, b: Feedbacker)
    requires (NoHoles(b.out) || |b.out| > HEARD_NACKS)
    ensures Barren(c, Report(c, b))
  {
  }

  lemma CalmFail(c: Config, s: State, st: Step)
    requires Calm(c, s) && st.DirectFail? && IngestEnabled(c, s, st)
    ensures Calm(c, IngestApply(c, s, st))
  {
    hide Barren, SenderCalm, WriteAt;
  }

  // ---- the reporter asks for all of them at once, or for none ----

  /** Entry `a` of a lost block is due at `due`, or was put off in this very collection. */
  predicate InStep(b: Feedbacker, due: nat, a: Item) {
    if b.pc.Collecting? && a.sn in b.out then a.due == DueAt(b.now, b.rto) else a.due == due
  }

  predicate Report125(b: Feedbacker, due: nat) {
    && (b.pc.Collecting? ==>
          && b.cap > HEARD_NACKS && Once(b) && (forall x :: x in b.out ==> Hole(x))
          && (due > b.now ==> b.out == []))
    && (b.pc.Sending? ==> b.out == [] || |b.out| > HEARD_NACKS)
  }

  /** The whole file is scanned, only the lost blocks are missing, and they are all due at
      one time. */
  predicate Aligned(c: Config, s: State, due: nat) {
    && ScanIdle(c, s.fb) && s.fb.rto >= 0.0
    && (forall x: nat :: x < Total(c) && !Hole(x) ==> x in s.rcv.bm)
    && (forall a :: a in s.fb.sc.heap && Hole(a.sn) ==> InStep(s.fb, due, a))
    && Report125(s.fb, due)
  }

  /** What the scanner's own invariant says of the lost blocks. */
  ghost predicate AllWatched(c: Config, b: Feedbacker) {
    && OneEntryEach(b.sc.heap)
    && (forall x: nat :: Hole(x) ==> x in b.sc.pending && HasEntry(b.sc.heap, x))
    && (forall a :: a in b.sc.heap ==> a.sn < Total(c))
  }

  lemma Watched(c: Config, s: State)
    requires Inv(c, s) && Calm(c, s) && s.fb.sc.next == Total(c) && Total(c) > HEARD_NACKS
    ensures AllWatched(c, s.fb)
  {
    hide Inv, Total, SenderCalm, Barren, HoldsHole;
    ScanBounds(c, s);
    ReporterFacts(c, s);
  }

  lemma {:induction false} HolesIn(out: seq<nat>)
    requires forall x: nat :: Hole(x) ==> x in out
    ensures |out| > HEARD_NACKS
  {
    var holes := set x | 0 <= x <= HEARD_NACKS && Hole(x);
    CountBelow(holes, HEARD_NACKS + 1);
    var all := set x | x in out;
    assert holes <= all;
    NoMoreThan(out, all);
    Fewer(holes, all);
  }

  lemma Fewer(a: set<nat>, b: set<nat>)
    requires a <= b
    ensures |a| <= |b|
  {
    assert b == a + (b - a);
  }

  lemma {:induction false} NoMoreThan(out: seq<nat>, all: set<nat>)
    requires forall x :: x in all ==> x in out
    ensures |all| <= |out|
    decreases |out|
  {
    if out == [] {
      assert all == {};
    } else {
      var rest, last := out[..|out| - 1], out[|out| - 1];
      assert out == rest + [last];
      NoMoreThan(rest, all - {last});
    }
  }

  /** Distinct lost blocks that are too many to be heard are all of them. */
  lemma AllHoles(out: seq<nat>, x: nat)
    requires forall i, j :: 0 <= i < j < |out| ==> out[i] != out[j]
    requires (forall y :: y in out ==> Hole(y)) && |out| > HEARD_NACKS && Hole(x)
    ensures x in out
  {
    if x !in out {
      var more := out + [x];
      DistinctBelow(more, HEARD_NACKS + 1);
    }
  }

  /** `collect_due` pops one more entry. */
  lemma PopAligned(b: Feedbacker, bm: set<nat>, due: nat)
    requires b.pc.Collecting? && |b.out| < b.cap && CanPop(b.sc, b.now)
    requires Report125(b, due) && OneEntryEach(b.sc.heap) && b.rto >= 0.0
    requires forall a :: a in b.sc.heap && Hole(a.sn) ==> InStep(b, due, a) && a.sn in b.sc.pending && a.sn !in bm
    requires forall a :: a in b.sc.heap && !Hole(a.sn) ==> a.sn in bm
    ensures var e := Collect(b, bm);
      Report125(e, due) && forall a :: a in e.sc.heap && Hole(a.sn) ==> InStep(e, due, a)
  {
    hide Top, DueAt, OneEntryEach, Once;
    CollectOnce(b, bm);
    PopOnce(b);
    RestEntries(b.sc.heap, Top(b.sc.heap));
  }

  lemma PopOnce(b: Feedbacker)
    requires Once(b) && CanPop(b.sc, b.now)
    ensures Top(b.sc.heap).sn !in b.out
  {
  }

  /** Where it stops, either none of the lost blocks was due or all are in the report. */
  lemma StopAligned(b: Feedbacker, bm: set<nat>, due: nat) returns (next: nat)
    requires b.pc.Collecting? && !(|b.out| < b.cap && CanPop(b.sc, b.now))
    requires Report125(b, due)
    requires forall a :: a in b.sc.heap && Hole(a.sn) ==> InStep(b, due, a)
    requires forall x: nat :: Hole(x) ==> HasEntry(b.sc.heap, x)
    ensures var e := Collect(b, bm);
      Report125(e, next) && forall a :: a in e.sc.heap && Hole(a.sn) ==> InStep(e, next, a)
  {
    hide Top, DueAt;
    if due > b.now {
      next := due;
    } else {
      next := DueAt(b.now, b.rto);
      forall x: nat | Hole(x)
        ensures x in b.out
      {
        if |b.out| < b.cap {
          var a :| a in b.sc.heap && a.sn == x;
          NothingDue(b.sc, b.now, a);
        } else {
          AllHoles(b.out, x);
        }
      }
      HolesIn(b.out);
    }
  }

  lemma CollectAligned(c: Config, s: State, due: nat) returns (next: nat)
    requires s.fb.pc.Collecting? && Aligned(c, s, due) && AllWatched(c, s.fb)
    requires forall x :: x in s.rcv.bm ==> !Hole(x)
    ensures Aligned(c, FbApply(c, s, Fb), next)
  {
    hide Collect, Report125, InStep, Total, OneEntryEach, HasEntry;
    var b := s.fb;
    CollectFrame(b, s.rcv.bm);
    if |b.out| < b.cap && CanPop(b.sc, b.now) {
      next := due;
      PopAligned(b, s.rcv.bm, due);
    } else {
      next := StopAligned(b, s.rcv.bm, due);
    }
  }

  lemma OtherAligned(c: Config, s: State, st: Step, due: nat)
    requires FbEnabled(c, s, st) && !s.fb.pc.Collecting? && Aligned(c, s, due)
    requires st.FbPeer? ==> st.cap > HEARD_NACKS
    ensures Aligned(c, FbApply(c, s, st), due)
  {
    hide FbApply, InStep, Report125, Total, ScanIdle;
    if st.Fb? && BeforePeer(s.fb.pc) {
      HeapStays(c, s);
      FeedbackShape(c, s, st);
      StillInStep(c, s.fb, FbApply(c, s, st).fb, due);
    } else {
      RestAligned(c, s, st, due);
    }
  }

  lemma StillInStep(c: Config, b: Feedbacker, e: Feedbacker, due: nat)
    requires !b.pc.Collecting? && BeforePeer(e.pc) && e.sc.heap == b.sc.heap
    requires forall a :: a in b.sc.heap && Hole(a.sn) ==> InStep(b, due, a)
    ensures Report125(e, due) && forall a :: a in e.sc.heap && Hole(a.sn) ==> InStep(e, due, a)
  {
  }

  lemma RestAligned(c: Config, s: State, st: Step, due: nat)
    requires FbEnabled(c, s, st) && !s.fb.pc.Collecting? && Aligned(c, s, due)
    requires !(st.Fb? && BeforePeer(s.fb.pc)) && (st.FbPeer? ==> st.cap > HEARD_NACKS)
    ensures Aligned(c, FbApply(c, s, st), due)
  {
    hide FbApply, InStep, Report125, Total;
    FeedbackShape(c, s, st);
    RestMoves(c, s, st);
    RestInStep(s.fb, FbApply(c, s, st).fb, due);
  }

  lemma RestMoves(c: Config, s: State, st: Step)
    requires FbEnabled(c, s, st) && !s.fb.pc.Collecting?
    requires !(st.Fb? && BeforePeer(s.fb.pc)) && (st.FbPeer? ==> st.cap > HEARD_NACKS)
    ensures var e := FbApply(c, s, st).fb;
      && e.sc == s.fb.sc && !e.pc.Scanning? && !e.pc.Sending? && (e.rto == s.fb.rto || e.rto >= 0.0)
      && (e.pc.Collecting? ==> e.out == [] && e.cap > HEARD_NACKS)
  {
    hide Look, Collect, Total;
  }

  lemma RestInStep(b: Feedbacker, e: Feedbacker, due: nat)
    requires e.sc == b.sc && !b.pc.Collecting? && !e.pc.Sending? && e.rto >= 0.0
    requires e.pc.Collecting? ==> e.out == [] && e.cap > HEARD_NACKS
    requires forall a :: a in b.sc.heap && Hole(a.sn) ==> InStep(b, due, a)
    ensures Report125(e, due) && forall a :: a in e.sc.heap && Hole(a.sn) ==> InStep(e, due, a)
  {
  }

  lemma AlignedElsewhere(c: Config, s: State, st: Step, due: nat)
    requires Enabled(c, s, st) && !ActorOf(st).TheReporter? && Aligned(c, s, due)
    ensures Aligned(c, Apply(c, s, st), due)
  {
    hide Apply, Enabled, Report125, InStep, Total;
    OwnParts(c, s, st);
    BmGrows(c, s, st);
  }

  /** Nothing brings or asks for a lost block, and the reporter keeps them in step. */
  ghost predicate Wedged(c: Config, s: State, due: nat) {
    Inv(c, s) && Calm(c, s) && Aligned(c, s, due)
  }

  lemma WedgedStep(c: Config, s: State, st: Step, due: nat) returns (next: nat)
    requires Total(c) > HEARD_NACKS && Wedged(c, s, due) && Enabled(c, s, st)
    requires st.FbPeer? ==> st.cap > HEARD_NACKS
    ensures Wedged(c, Apply(c, s, st), next)
  {
    hide Inv, Calm, Apply, Enabled, FbApply, FbEnabled, Total;
    StepKeeps(c, s, st);
    SayNothing(c, s, due);
    CalmStep(c, s, st);
    next := due;
    if ActorOf(st).TheReporter? {
      FbIsApply(c, s, st);
      if s.fb.pc.Collecting? {
        OnlyFb(c, s, st);
        Watched(c, s);
        NoHoleArrived(c, s);
        next := CollectAligned(c, s, due);
      } else {
        OtherAligned(c, s, st, due);
      }
    } else {
      AlignedElsewhere(c, s, st, due);
    }
  }

  lemma SayNothing(c: Config, s: State, due: nat)
    requires Aligned(c, s, due)
    ensures s.fb.pc.Sending? ==> NoHoles(s.fb.out) || |s.fb.out| > HEARD_NACKS
  {
    hide Total, InStep;
  }

  lemma OnlyFb(c: Config, s: State, st: Step)
    requires FbEnabled(c, s, st) && s.fb.pc.Collecting?
    ensures st == Fb
  {
  }

  lemma NoHoleArrived(c: Config, s: State)
    requires Calm(c, s)
    ensures forall x :: x in s.rcv.bm ==> !Hole(x)
  {
  }

  lemma {:induction false} WedgedRun(c: Config, e: Policy, past: seq<Step>, s: State, due: nat, steps: seq<Step>,
                                     t: State)
    requires Greedy(e) && Wedged(c, s, due) && Follows(c, e, past, s, steps, t)
    requires Total(c) > HEARD_NACKS && c.maxNacks > HEARD_NACKS
    ensures !Complete(c, t)
    decreases |steps|
  {
    hide Wedged, Enabled, Apply;
    if steps == [] {
      WedgedNotComplete(c, s, due);
    } else {
      var next := WedgedStep(c, s, steps[0], due);
      WedgedRun(c, e, past + [steps[0]], Apply(c, s, steps[0]), next, steps[1..], t);
    }
  }

  lemma WedgedNotComplete(c: Config, s: State, due: nat)
    requires Wedged(c, s, due) && Total(c) > HEARD_NACKS
    ensures !Complete(c, s)
  {
    hide Inv, Aligned, SenderCalm, Barren, HoldsHole;
    assert Hole(0);
    if Complete(c, s) {
      CompleteMeansAll(c, s);
    }
  }

  // ---- such a state is reached ----

  /** As long as its clock stands at zero the receiver has said nothing. */
  predicate NoTalk(c: Config, s: State) {
    s.fb.now == 0 ==>
      && s.fb.pc.Sleeping? && s.fb.sc == NewScanner(Total(c))
      && s.snd.rex == {} && s.snd.inbox.Waiting? && |s.snd.batch| == s.snd.brandNew
      && (forall p :: p in s.net ==> !Audible(c, p))
  }

  lemma NoTalkSender(c: Config, s: State, st: Step)
    requires SendInv(c, s.snd) && s.fb.now == 0 && NoTalk(c, s) && SenderEnabled(c, s, st)
    ensures var d := SenderApply(c, s, st).snd; d.rex == {} && d.inbox.Waiting? && |d.batch| == d.brandNew
  {
    hide SenderApply, SenderEnabled, BuildApply, BuildEnabled, PrefetchApply, PrefetchEnabled, SendInv, Audible, Total;
    SenderClasses(c, s, st);
    if BuildStep(st) {
      NoTalkBuild(c, s.snd, st);
    } else if PrefetchStep(st) {
      PrefetchFrame(c, s.snd, st);
    } else {
      NoTalkOther(c, s, st);
    }
  }

  lemma NoTalkBuild(c: Config, d: Sender, st: Step)
    requires d.rex == {} && d.inbox.Waiting? && |d.batch| == d.brandNew && BuildEnabled(d, st)
    ensures var e := BuildApply(c, d, st); e.rex == {} && e.inbox.Waiting? && |e.batch| == e.brandNew
  {
    hide Total, DataPdu, Refill;
  }

  lemma NoTalkOther(c: Config, s: State, st: Step)
    requires s.fb.now == 0 && NoTalk(c, s) && SenderEnabled(c, s, st)
    requires !BuildStep(st) && !PrefetchStep(st)
    ensures var d := SenderApply(c, s, st).snd; d.rex == {} && d.inbox.Waiting? && |d.batch| == d.brandNew
  {
    hide Audible, Total;
  }

  lemma NoTalkWire(c: Config, s: State, st: Step)
    requires SendInv(c, s.snd) && SenderEnabled(c, s, st)
    requires forall p :: p in s.net ==> !Audible(c, p)
    ensures forall p :: p in SenderApply(c, s, st).net ==> !Audible(c, p)
  {
    hide BuildApply, Total, Genuine;
    forall p | p in SenderApply(c, s, st).net
      ensures !Audible(c, p)
    {
      assert p in s.net || p in s.snd.batch || p.Fin?;
    }
  }

  lemma NoTalkRest(c: Config, s: State, st: Step)
    requires Enabled(c, s, st) && !ActorOf(st).TheSender? && !ActorOf(st).TheReporter?
    requires forall p :: p in s.net ==> !Audible(c, p)
    ensures forall p :: p in Apply(c, s, st).net ==> !Audible(c, p)
  {
    hide WorkApply, DeliverApply, FlushApply;
    match ActorOf(st)
    case TheNetwork =>
    case TheFlusher => FlushShape(c, s);
    case TheWorkers =>
      if st.Work? {
        WorkShape(c, s, st.w);
      } else if st.Deliver? {
        DeliverTakes(c, s, st.w, st.p, st.parsed);
      }
  }

  lemma NoTalkStep(c: Config, e: Policy, past: seq<Step>, s: State, st: Step)
    requires Inv(c, s) && NoTalk(c, s) && Enabled(c, s, st) && Obeys(c, e, past, s, st)
    ensures NoTalk(c, Apply(c, s, st)) && s.fb.now <= Apply(c, s, st).fb.now
  {
    hide Inv, SenderApply, SenderEnabled, FbApply, Audible;
    if ActorOf(st).TheSender? {
      InboxFacts(c, s);
      SenderShape(c, s, st);
      if s.fb.now == 0 {
        NoTalkSender(c, s, st);
        NoTalkWire(c, s, st);
      }
    } else if ActorOf(st).TheReporter? {
      FbFrame(c, s, st);
    } else {
      hide Apply;
      OwnParts(c, s, st);
      if s.fb.now == 0 {
        NoTalkRest(c, s, st);
      }
    }
  }

  lemma {:induction false} NoTalkRun(c: Config, e: Policy, past: seq<Step>, s: State, steps: seq<Step>, t: State)
    requires Inv(c, s) && NoTalk(c, s) && Follows(c, e, past, s, steps, t)
    ensures NoTalk(c, t) && s.fb.now <= t.fb.now
    ensures t.fb.now == 0 && Calm(c, s) ==> Calm(c, t)
    decreases |steps|
  {
    hide Inv, NoTalk, Calm, Enabled, Apply, Obeys;
    if steps != [] {
      var m := Apply(c, s, steps[0]);
      StepKeeps(c, s, steps[0]);
      NoTalkStep(c, e, past, s, steps[0]);
      NoTalkRun(c, e, past + [steps[0]], m, steps[1..], t);
      if t.fb.now == 0 && Calm(c, s) {
        Asleep(c, s);
        CalmStep(c, s, steps[0]);
      }
    }
  }

  lemma Asleep(c: Config, s: State)
    requires NoTalk(c, s) && s.fb.now == 0
    ensures s.fb.pc.Sleeping?
  {
  }

  lemma {:induction false} DropAll(c: Config, e: Policy, s0: State, hs: seq<Step>, s: State)
    returns (ht: seq<Step>, t: State)
    requires Follows(c, e, [], s0, hs, s) && Good(c, s)
    ensures Follows(c, e, [], s0, ht, t) && Good(c, t) && t == s.(net := multiset{})
    decreases |s.net|
  {
    hide Follows, Inv;
    ht, t := hs, s;
    if s.net != multiset{} {
      var p :| p in s.net;
      var hm, m := DropIt(c, e, s0, hs, s, p);
      ht, t := DropAll(c, e, s0, hm, m);
    }
  }

  /** Everything is sent once, and all but the blocks that are to be lost is heard. */
  lemma HearOthers(c: Config, e: Policy, s: State) returns (ht: seq<Step>, t: State)
    requires Init(c, s) && Total(c) > HEARD_NACKS
    ensures Good(c, t) && Reaches(c, e, [], s, ht, t) && AllIdle(t.wk) && t.snd.injected == Total(c)
    ensures t.fb == s.fb && t.fl == s.fl
    ensures forall x: nat :: x in t.rcv.bm <==> x < Total(c) && !Hole(x)
  {
    StartsQuiet(c, s);
    hide Init, Reaches, Good, DataPdu, NumBlocks;
    var ha, a := StartOver(c, e, s);
    ReachNoReadError(c, e, [], s, ha, a);
    FinMeansAll(c, a);
    ht, t := HearRest(c, e, ha, a, HEARD_NACKS + 1, Total(c));
    ReachJoin(c, e, [], s, ha, a, ht, t);
  }

  /** The blocks that are to be lost are, and so is FIN. */
  lemma LoseHoles(c: Config, e: Policy, s: State) returns (ht: seq<Step>, t: State)
    requires Init(c, s) && Total(c) > HEARD_NACKS
    ensures Follows(c, e, [], s, ht, t) && Good(c, t) && Calm(c, t) && AllIdle(t.wk) && !Complete(c, t)
    ensures t.fb.now == 0 && forall x: nat :: x < Total(c) && !Hole(x) ==> x in t.rcv.bm
  {
    Begin(c, e, s);
    StartsQuiet(c, s);
    hide Follows, Init, Reaches, Inv, AllOut, NoTalk, Calm, NumBlocks;
    var ha, a := HearOthers(c, e, s);
    GoesOn(c, e, s, [], s, ha, a);
    ht, t := DropAll(c, e, s, ha, a);
    NoTalkRun(c, e, [], s, ht, t);
    SentOnce(c, t);
  }

  lemma StartsQuiet(c: Config, s: State)
    requires Init(c, s)
    ensures NoTalk(c, s) && s.fb.now == 0 && s.fl.flushed == 0 && !s.snd.readFailed && s.fb.rto >= 0.0
  {
  }

  lemma SentOnce(c: Config, s: State)
    requires Good(c, s) && NoTalk(c, s) && s.fb.now == 0 && s.snd.injected == Total(c)
    requires AllIdle(s.wk) && s.net == multiset{} && forall x :: x in s.rcv.bm ==> !Hole(x)
    ensures Calm(c, s)
  {
    hide Good, SendInv, AskedInv;
    SenderFacts(c, s);
    AllSent(c, s.snd);
  }

  /** FIN is heard. */
  lemma LearnOfHoles(c: Config, e: Policy, s: State) returns (ht: seq<Step>, t: State)
    requires Init(c, s) && Total(c) > HEARD_NACKS
    ensures Follows(c, e, [], s, ht, t) && Good(c, t) && Calm(c, t) && t.rcv.allSent
    ensures t.fb.pc.Sleeping? && t.fb.sc == NewScanner(Total(c))
    ensures forall x: nat :: x < Total(c) && !Hole(x) ==> x in t.rcv.bm
  {
    Begin(c, e, s);
    StartsQuiet(c, s);
    hide Follows, Init, Reaches, Good, NoTalk, Calm, Total;
    var ha, a := LoseHoles(c, e, s);
    var hb, b := SendFin(c, e, ha, a);
    var hd, d := HearFin(c, e, hb, b);
    ReachJoin(c, e, ha, a, hb, b, hd, d);
    GoesOn(c, e, s, ha, a, hd, d);
    ht, t := hd, d;
    KeepCalm(c, e, s, ha, a, ht, t);
  }

  lemma KeepCalm(c: Config, e: Policy, s0: State, ha: seq<Step>, a: State, ht: seq<Step>, t: State)
    requires Inv(c, s0) && NoTalk(c, s0) && Follows(c, e, [], s0, ha, a) && Good(c, a)
    requires Calm(c, a) && Reaches(c, e, ha, a, ht, t) && t.fb.now == 0
    ensures Calm(c, t) && t.fb.pc.Sleeping? && t.fb.sc == NewScanner(Total(c))
  {
    hide Follows, Inv, Calm, Audible;
    NoTalkRun(c, e, [], s0, ha, a);
    NoTalkRun(c, e, ha, a, ht[|ha|..], t);
  }

  // ---- its first tick finds them all at once ----

  /** The first tick on its way through the file. */
  predicate FirstScan(c: Config, b: Feedbacker) {
    && b.rto >= 0.0
    && (b.pc.AdvancingMark? || b.pc.LoadMax? || b.pc.LoadAllSent? || b.pc.CheckSeen? || b.pc.Scanning? || b.pc.LoadFin?)
    && (b.pc.CheckSeen? || b.pc.Scanning? ==> b.ms == Total(c) - 1)
    && (b.pc.LoadFin? ==> b.sc.next == Total(c))
    && (forall a :: a in b.sc.heap ==> a.due == DueAt(b.now, b.rto))
  }

  lemma ScanGoes(c: Config, r: Receiver, b: Feedbacker)
    requires FirstScan(c, b) && !b.pc.LoadFin? && Total(c) > 0 && r.allSent
    requires b.sc.next <= Total(c)
    ensures FirstScan(c, Look(c, r, b))
  {
    hide DueAt, Total;
  }

  lemma {:induction false} ScanThrough(c: Config, e: Policy, hs: seq<Step>, s: State)
    returns (ht: seq<Step>, t: State)
    requires Good(c, s) && s.rcv.allSent && Total(c) > 0 && FirstScan(c, s.fb)
    ensures Good(c, t) && Reaches(c, e, hs, s, ht, t) && t == s.(fb := t.fb)
    ensures FirstScan(c, t.fb) && t.fb.pc.LoadFin?
    decreases FbRank(s.fb.pc), FbLeft(s.fb)
  {
    hide Good, Reaches, FbApply, Look, FbRank, FbLeft, Total, Agrees;
    if s.fb.pc.LoadFin? {
      ht, t := hs, s;
      ReachSelf(c, e, hs, s);
    } else {
      FbFacts(c, s);
      LookMoves(c, s.rcv, s.fb);
      LookShape(c, s);
      ScanGoes(c, s.rcv, s.fb);
      var hm, m := GoFb(c, e, hs, s, Fb);
      ht, t := ScanThrough(c, e, hm, m);
      ReachJoin(c, e, hs, s, hm, m, ht, t);
    }
  }

  lemma FirstTick(c: Config, e: Policy, s0: State, hs: seq<Step>, s: State) returns (ht: seq<Step>, t: State)
    requires Follows(c, e, [], s0, hs, s) && Good(c, s) && s.rcv.allSent && Total(c) > 0
    requires s.fb.pc.Sleeping? && s.fb.sc == NewScanner(Total(c))
    ensures Follows(c, e, [], s0, ht, t) && Good(c, t) && t == s.(fb := t.fb)
    ensures FirstScan(c, t.fb) && t.fb.pc.LoadFin?
  {
    hide Follows, Reaches, Good, Total;
    var ha, a := GoFb(c, e, hs, s, TickOf(e, hs, s.fb));
    ht, t := ScanThrough(c, e, ha, a);
    ReachJoin(c, e, hs, s, ha, a, ht, t);
    GoesOn(c, e, s0, hs, s, ht, t);
  }

  lemma NowWedged(c: Config, s: State)
    requires Good(c, s) && Calm(c, s) && FirstScan(c, s.fb) && s.fb.pc.LoadFin?
    requires forall x: nat :: x < Total(c) && !Hole(x) ==> x in s.rcv.bm
    ensures Wedged(c, s, DueAt(s.fb.now, s.fb.rto))
  {
    hide Inv, Calm, DueAt, Total;
  }

  /** Where reports may be too long, some run under every greedy policy comes to a state in
      which no direct write has failed and from which no run of the policy completes,
      whatever the network does from then on. */
  lemma LongReportsWedge(c: Config, e: Policy, s: State) returns (ht: seq<Step>, t: State)
    requires Init(c, s) && Greedy(e) && !ReportsFit(c)
    ensures Follows(c, e, [], s, ht, t) && t.stuck == {}
    ensures forall steps, u :: Follows(c, e, ht, t, steps, u) ==> !Complete(c, u)
    ensures !MayComplete(c, e, ht, t)
  {
    hide Follows, Init, Inv, Calm, Wedged, FirstScan, Greedy;
    var ha, a := LearnOfHoles(c, e, s);
    ht, t := FirstTick(c, e, s, ha, a);
    CalmFrame(c, a, t);
    NowWedged(c, t);
    forall steps, u | Follows(c, e, ht, t, steps, u)
      ensures !Complete(c, u)
    {
      WedgedRun(c, e, ht, t, DueAt(t.fb.now, t.fb.rto), steps, u);
    }
  }

  lemma CalmFrame(c: Config, s: State, t: State)
    requires Calm(c, s) && t == s.(fb := t.fb)
    ensures Calm(c, t)
  {
  }

  // ---- which transfers can always be completed ----

  /** Whatever has happened, and under whatever policy, can the transfer still be completed
      if nothing more goes wrong? */
  ghost predicate Recovers(c: Config) {
    forall e: Policy, s0: State, past: seq<Step>, s: State ::
      Init(c, s0) && Runs(c, s0, past, s) ==> MayComplete(c, e, past, s)
  }

  lemma SomeGreedyPolicy() returns (e: Policy)
    ensures Greedy(e)
  {
    e := Policy(_ => 1, _ => HEARD_NACKS + 1, _ => 2000.0, _ => 1);
  }

  lemma SomeInit(c: Config) returns (s: State)
    ensures Init(c, s)
  {
    s := State(
      Sender(if Total(c) > 0 then Borrowing else Exited, 0, SEND_POOL, [],
             AtTop, 0, 0, [], 0, 0, 0, false, {}, Waiting, false, false),
      multiset{}, Receiver(None, false, 0, false, {}, {}, map[], StageDepth(c), 0, 0, 0, false),
      seq(c.workers, _ => Idle), Flusher(Probe, 0, 0),
      Feedbacker(Sleeping, NewScanner(Total(c)), 0, 2000.0, 0, 0, false, false, 0, [], 0), c.src, map[], {});
  }

  /** A caller can tell beforehand whether a transfer can always be recovered: if and only if
      no report can be too long to be heard and the file fits the stage pool. */
  lemma RecoversIff(c: Config)
    ensures Recovers(c) <==> ReportsFit(c) && Total(c) <= StageDepth(c)
  {
    hide Init, Runs, Follows, MayComplete, Greedy, StageDepth;
    if ReportsFit(c) && Total(c) <= StageDepth(c) {
      forall e: Policy, s0: State, past: seq<Step>, s: State | Init(c, s0) && Runs(c, s0, past, s)
        ensures MayComplete(c, e, past, s)
      {
        FitsNeverStuck(c, s0, past, s);
        NeverWedged(c, e, s0, past, s);
      }
    } else {
      var s0 := SomeInit(c);
      var e := SomeGreedyPolicy();
      var past: seq<Step>, s: State;
      if !ReportsFit(c) {
        past, s := LongReportsWedge(c, e, s0);
        FollowsRuns(c, e, [], s0, past, s);
      } else {
        past, s := DirectWriteMayFail(c, e, s0, 0, 0);
        FollowsRuns(c, e, [], s0, past, s);
        NeverWedged(c, e, s0, past, s);
      }
      assert !MayComplete(c, e, past, s);
    }
  }
}
