/** Why a fair run completes: in one that did not, everything that only grows would come to
    rest, and each thread in turn would then have something left to do that cannot stay
    undone. */
module TransferLive {
  import opened Blocks
  import opened LossTracker
  import opened Prelude
  import opened TransferModel
  import opened TransferInvariant
  import opened TransferPolicy
  import opened TransferSafety
  import opened TransferTheorems
  import opened TransferProgress
  import opened TransferFair

  // ---- what only grows ----

  datatype Gauge = Gauge(
    bm: set<nat>, next: nat, injected: nat, front: nat, exited: bool, newDone: bool, allSent: bool)

  function GaugeOf(s: State): Gauge {
    Gauge(s.rcv.bm, s.snd.next, s.snd.injected, s.fl.front, s.snd.pf.Exited?, s.snd.newDone, s.rcv.allSent)
  }

  function One(b: bool): nat { if b then 1 else 0 }

  function Level(g: Gauge): nat {
    |g.bm| + g.next + g.injected + g.front + One(g.exited) + One(g.newDone) + One(g.allSent)
  }

  predicate Under(g: Gauge, h: Gauge) {
    && g.bm <= h.bm && g.next <= h.next && g.injected <= h.injected && g.front <= h.front
    && (g.exited ==> h.exited) && (g.newDone ==> h.newDone) && (g.allSent ==> h.allSent)
  }

  lemma UnderLevel(g: Gauge, h: Gauge)
    requires Under(g, h)
    ensures Level(g) <= Level(h) && (Level(g) == Level(h) ==> g == h)
  {
    assert h.bm == g.bm + (h.bm - g.bm);
  }

  lemma FrontGrows(c: Config, s: State)
    ensures s.fl.front <= FlushApply(c, s).fl.front
  {
    hide WriteAt;
  }

  lemma GaugeGrows(c: Config, s: State, st: Step)
    requires Enabled(c, s, st) && Clean(st)
    ensures Under(GaugeOf(s), GaugeOf(Apply(c, s, st)))
  {
    hide Apply, Enabled, SenderApply, SenderEnabled, FlushApply;
    OwnParts(c, s, st);
    BmGrows(c, s, st);
    if ActorOf(st).TheSender? {
      SenderMove(c, s, st);
      SenderFrames(c, s, st);
    } else if ActorOf(st).TheFlusher? {
      FlushMove(c, s, st);
      FrontGrows(c, s);
    }
  }

  lemma FlushMove(c: Config, s: State, st: Step)
    requires Enabled(c, s, st) && Clean(st) && ActorOf(st).TheFlusher?
    ensures FlushEnabled(c, s, Flush) && Apply(c, s, st) == FlushApply(c, s)
  {
    hide FlushApply;
  }

  lemma LevelBound(c: Config, s: State)
    requires Fit(c, s)
    ensures Level(GaugeOf(s)) <= 4 * Total(c) + 3
  {
    hide Good, Tidy, Total, SendInv, AskedInv, FrontInv;
    WorkerFacts(c, s);
    SubsetOfRange(s.rcv.bm, Total(c));
    SenderFacts(c, s);
    ReadBound(c, s.snd);
    FlushFacts(c, s);
    FrontBound(c, s);
  }

  lemma ReadBound(c: Config, d: Sender)
    requires SendInv(c, d)
    ensures d.next <= Total(c) && d.injected <= Total(c)
  {
    hide Total, IsOwnData;
  }

  lemma FrontBound(c: Config, s: State)
    requires FrontInv(c, s.rcv, s.fl)
    ensures s.fl.front <= Total(c)
  {
    hide Total;
  }

  predicate AsAt(tr: Trace, N: nat, n: nat) {
    GaugeOf(tr.state(n)) == GaugeOf(tr.state(N))
  }

  ghost predicate Settled(tr: Trace, N: nat) {
    forall n: nat :: n >= N ==> AsAt(tr, N, n)
  }

  lemma StepGrows(c: Config, e: Policy, past: seq<Step>, tr: Trace, n: nat)
    requires Stalls(c, e, past, tr)
    ensures Under(GaugeOf(tr.state(n)), GaugeOf(tr.state(n + 1)))
  {
    hide Stalls, Fit, Enabled, Apply, Clean;
    Here(c, e, past, tr, n);
    if tr.step(n).Some? {
      GaugeGrows(c, tr.state(n), tr.step(n).value);
    }
  }

  lemma {:induction false} SameGauge(c: Config, e: Policy, past: seq<Step>, tr: Trace, N: nat, n: nat)
    requires Stalls(c, e, past, tr) && n >= N
    requires forall j: nat :: j >= N ==> Level(GaugeOf(tr.state(j))) == Level(GaugeOf(tr.state(N)))
    ensures GaugeOf(tr.state(n)) == GaugeOf(tr.state(N))
    decreases n
  {
    hide Stalls, Level, GaugeOf, Under;
    if n > N {
      SameGauge(c, e, past, tr, N, n - 1);
      StepGrows(c, e, past, tr, n - 1);
      UnderLevel(GaugeOf(tr.state(n - 1)), GaugeOf(tr.state(n)));
    }
  }

  lemma ComesToRest(c: Config, e: Policy, past: seq<Step>, tr: Trace) returns (N: nat)
    requires Stalls(c, e, past, tr)
    ensures Settled(tr, N)
  {
    hide Stalls, Level, GaugeOf, Under, Fit;
    var f := (j: nat) => Level(GaugeOf(tr.state(j)));
    forall j: nat
      ensures f(j) <= f(j + 1) && f(j) <= 4 * Total(c) + 3
    {
      Here(c, e, past, tr, j);
      LevelBound(c, tr.state(j));
      StepGrows(c, e, past, tr, j);
      UnderLevel(GaugeOf(tr.state(j)), GaugeOf(tr.state(j + 1)));
    }
    N := Settles(f, 4 * Total(c) + 3, 0);
    forall j: nat | j >= N
      ensures Level(GaugeOf(tr.state(j))) == Level(GaugeOf(tr.state(N)))
    {
      assert f(j) == f(N);
    }
    forall n: nat | n >= N
      ensures AsAt(tr, N, n)
    {
      SameGauge(c, e, past, tr, N, n);
    }
  }

  /** At rest, what happens to arrive had arrived. */
  lemma AtRest(tr: Trace, N: nat, n: nat)
    requires Settled(tr, N) && n >= N
    ensures tr.state(n).rcv.bm == tr.state(N).rcv.bm && tr.state(n).rcv.allSent == tr.state(N).rcv.allSent
    ensures tr.state(n).snd.next == tr.state(N).snd.next && tr.state(n).snd.injected == tr.state(N).snd.injected
    ensures tr.state(n).snd.pf.Exited? == tr.state(N).snd.pf.Exited?
    ensures tr.state(n).snd.newDone == tr.state(N).snd.newDone && tr.state(n).fl.front == tr.state(N).fl.front
  {
    assert AsAt(tr, N, n);
  }

  /** At rest no missing block is in the batch or on the wire. */
  lemma NoneOnItsWay(c: Config, e: Policy, past: seq<Step>, tr: Trace, N: nat, n: nat, x: nat)
    requires Stalls(c, e, past, tr) && Settled(tr, N) && n >= N
    requires x < Total(c) && DataPdu(c, x) in tr.state(n).snd.batch
    ensures x in tr.state(N).rcv.bm
  {
    hide Stalls, Settled, DataPdu, Total;
    var k := BatchGoes(c, e, past, tr, DataPdu(c, x), n);
    var m := DataArrives(c, e, past, tr, x, k);
    AtRest(tr, N, m);
  }

  // ---- requests for blocks that have arrived ----

  predicate Hits(xs: seq<nat>, got: set<nat>) {
    exists x :: x in xs && x in got
  }

  predicate Late(p: Packet, got: set<nat>) {
    p.Feedback? && Hits(p.nacks, got)
  }

  ghost function Pick(net: multiset<Packet>): (p: Packet)
    requires net != multiset{}
    ensures p in net
  {
    var p :| p in net;
    p
  }

  /** How many reports on the wire ask for something that has arrived. */
  ghost function LateCount(net: multiset<Packet>, got: set<nat>): nat
    decreases |net|
  {
    if net == multiset{} then 0
    else
      var p := Pick(net);
      One(Late(p, got)) + LateCount(net - multiset{p}, got)
  }

  lemma {:induction false} LateTake(net: multiset<Packet>, p: Packet, got: set<nat>)
    requires p in net
    ensures LateCount(net, got) == One(Late(p, got)) + LateCount(net - multiset{p}, got)
    decreases |net|
  {
    hide Late;
    var q := Pick(net);
    if q != p {
      LateTake(net - multiset{q}, p, got);
      LateTake(net - multiset{p}, q, got);
      assert net - multiset{p} - multiset{q} == net - multiset{q} - multiset{p};
    }
  }

  lemma LatePut(net: multiset<Packet>, p: Packet, got: set<nat>)
    ensures LateCount(net + multiset{p}, got) == LateCount(net, got) + One(Late(p, got))
  {
    hide Late;
    LateTake(net + multiset{p}, p, got);
    assert net + multiset{p} - multiset{p} == net;
  }

  lemma {:induction false} LateBatch(net: multiset<Packet>, batch: seq<Packet>, got: set<nat>)
    requires forall p :: p in batch ==> !p.Feedback?
    ensures LateCount(net + multiset(batch), got) == LateCount(net, got)
    decreases |batch|
  {
    if batch == [] {
      assert net + multiset(batch) == net;
    } else {
      var rest, last := batch[..|batch| - 1], batch[|batch| - 1];
      assert batch == rest + [last];
      LateBatch(net, rest, got);
      LatePut(net + multiset(rest), last, got);
      assert net + multiset(batch) == net + multiset(rest) + multiset{last};
    }
  }

  /** Reports anywhere on their way that ask for something that has arrived. */
  ghost function LateAll(s: State, got: set<nat>): nat {
    LateCount(s.net, got)
    + One(s.snd.inbox.Got? && Hits(s.snd.inbox.nacks, got))
    + One((s.fb.pc.Collecting? || s.fb.pc.Sending?) && Hits(s.fb.out, got))
  }

  /** What the sender may still have to resend in vain. */
  ghost function Debt(c: Config, s: State, got: set<nat>): nat {
    (Total(c) + 1) * LateAll(s, got) + |s.snd.rex * got|
  }

  lemma LessLate(n: nat, a: nat, b: nat, r: nat, q: nat)
    requires b < a && q <= n
    ensures (n + 1) * b + q < (n + 1) * a + r
  {
    var d := a - b;
    Spread(n + 1, b, d);
    AtLeast(n + 1, d);
    assert (n + 1) * a == (n + 1) * (b + d);
  }

  lemma Spread(k: nat, b: nat, d: nat)
    ensures k * (b + d) == k * b + k * d
  {
  }

  lemma AtLeast(k: nat, d: nat)
    requires d >= 1
    ensures k * d >= k
  {
    Spread(k, 1, d - 1);
  }

  lemma SameDebt(c: Config, s: State, t: State, got: set<nat>)
    requires LateAll(t, got) == LateAll(s, got) && |t.snd.rex * got| <= |s.snd.rex * got|
    ensures Debt(c, t, got) <= Debt(c, s, got)
    ensures |t.snd.rex * got| < |s.snd.rex * got| ==> Debt(c, t, got) < Debt(c, s, got)
  {
    hide LateAll, Total;
  }

  lemma PaidDebt(c: Config, s: State, t: State, got: set<nat>)
    requires LateAll(t, got) < LateAll(s, got) && |got| <= Total(c)
    ensures Debt(c, t, got) < Debt(c, s, got)
  {
    hide LateAll, Total;
    Within(t.snd.rex, got);
    LessLate(Total(c), LateAll(s, got), LateAll(t, got), |s.snd.rex * got|, |t.snd.rex * got|);
  }

  lemma Within(a: set<nat>, b: set<nat>)
    ensures |a * b| <= |b|
  {
    assert b == a * b + (b - a);
  }

  /** Popping a request for a block that has arrived lowers the debt, others keep it. */
  lemma DebtPop(c: Config, s: State, got: set<nat>)
    requires SenderEnabled(c, s, PopRex(true))
    ensures Debt(c, SenderApply(c, s, PopRex(true)), got) <= Debt(c, s, got)
    ensures MinOf(s.snd.rex) in got ==> Debt(c, SenderApply(c, s, PopRex(true)), got) < Debt(c, s, got)
  {
    hide LateCount, Hits, Debt, Refill;
    var t, y := SenderApply(c, s, PopRex(true)), MinOf(s.snd.rex);
    assert t.snd.rex * got == s.snd.rex * got - {y};
    SameDebt(c, s, t, got);
  }

  lemma DebtSame(c: Config, s: State, t: State, got: set<nat>)
    requires t.net == s.net && t.fb == s.fb && t.snd.rex == s.snd.rex && t.snd.inbox == s.snd.inbox
    ensures Debt(c, t, got) == Debt(c, s, got)
  {
    hide LateCount, Hits, Total;
  }

  lemma DebtWire(c: Config, s: State, st: Step, got: set<nat>)
    requires SenderEnabled(c, s, st) && (st.FlushBatch? || st.AnnounceFin?)
    requires forall p :: p in s.snd.batch ==> p.Data?
    ensures Debt(c, SenderApply(c, s, st), got) == Debt(c, s, got)
  {
    hide LateCount, Hits, Total;
    LateBatch(s.net, s.snd.batch, got);
    LatePut(s.net, TheFin(c), got);
  }

  lemma DebtHear(c: Config, s: State, p: Packet, got: set<nat>)
    requires SenderEnabled(c, s, InRecv(p)) && |got| <= Total(c)
    ensures Debt(c, SenderApply(c, s, InRecv(p)), got) <= Debt(c, s, got)
  {
    hide LateCount, Hits, Total, Audible, Debt;
    var t := SenderApply(c, s, InRecv(p));
    LateTake(s.net, p, got);
    if LateAll(t, got) < LateAll(s, got) {
      PaidDebt(c, s, t, got);
    } else {
      SameDebt(c, s, t, got);
    }
  }

  lemma DebtPush(c: Config, s: State, got: set<nat>)
    requires SenderEnabled(c, s, InPush) && |got| <= Total(c)
    ensures Debt(c, SenderApply(c, s, InPush), got) <= Debt(c, s, got)
  {
    hide LateCount, Total, Debt;
    var t := SenderApply(c, s, InPush);
    if Hits(s.snd.inbox.nacks, got) {
      PaidDebt(c, s, t, got);
    } else {
      assert t.snd.rex * got == s.snd.rex * got;
      SameDebt(c, s, t, got);
    }
  }

  lemma DebtDone(c: Config, s: State, got: set<nat>)
    requires SenderEnabled(c, s, InDone)
    ensures Debt(c, SenderApply(c, s, InDone), got) == Debt(c, s, got)
  {
    hide LateCount, Hits, Total;
  }

  lemma DebtSender(c: Config, s: State, st: Step, got: set<nat>)
    requires SenderEnabled(c, s, st) && Clean(st) && |got| <= Total(c)
    requires forall p :: p in s.snd.batch ==> p.Data?
    ensures Debt(c, SenderApply(c, s, st), got) <= Debt(c, s, got)
  {
    hide SenderApply, SenderEnabled, BuildApply, PrefetchApply, Debt, Total;
    SenderClasses(c, s, st);
    if st.PopRex? {
      DebtPop(c, s, got);
    } else if BuildStep(st) {
      BuildFrame(c, s.snd, st);
      DebtSame(c, s, SenderApply(c, s, st), got);
    } else if PrefetchStep(st) {
      PrefetchFrame(c, s.snd, st);
      DebtSame(c, s, SenderApply(c, s, st), got);
    } else if st.FlushBatch? || st.AnnounceFin? {
      DebtWire(c, s, st, got);
    } else if st.InRecv? {
      DebtHear(c, s, st.p, got);
    } else if st.InPush? {
      DebtPush(c, s, got);
    } else {
      DebtDone(c, s, got);
    }
  }

  lemma CollectLate(b: Feedbacker, bm: set<nat>)
    requires b.pc.Collecting?
    ensures Hits(Collect(b, bm).out, bm) <==> Hits(b.out, bm)
  {
    hide Top, PopOne, DueAt;
    var out := Collect(b, bm).out;
    if Hits(out, bm) {
      var x :| x in out && x in bm;
      assert x in b.out;
    }
    if Hits(b.out, bm) {
      var x :| x in b.out && x in bm;
      assert x in out;
    }
  }

  lemma DebtReporter(c: Config, s: State, st: Step)
    requires FbEnabled(c, s, st) && |s.rcv.bm| <= Total(c)
    ensures Debt(c, FbApply(c, s, st), s.rcv.bm) <= Debt(c, s, s.rcv.bm)
  {
    hide LateCount, Hits, Total, Debt, FbApply, Look, Collect;
    var t := FbApply(c, s, st);
    FeedbackShape(c, s, st);
    LateReporter(c, s, st);
    if LateAll(t, s.rcv.bm) < LateAll(s, s.rcv.bm) {
      PaidDebt(c, s, t, s.rcv.bm);
    } else {
      SameDebt(c, s, t, s.rcv.bm);
    }
  }

  lemma LateReporter(c: Config, s: State, st: Step)
    requires FbEnabled(c, s, st)
    ensures LateAll(FbApply(c, s, st), s.rcv.bm) <= LateAll(s, s.rcv.bm)
  {
    hide LateCount, Hits, Total, Look, Collect;
    if st.Fb? && Looking(s.fb.pc) {
      LookFrame(c, s.rcv, s.fb);
    } else if st.Fb? && s.fb.pc.Collecting? {
      CollectLate(s.fb, s.rcv.bm);
      CollectFrame(s.fb, s.rcv.bm);
    } else if st.Fb? && s.fb.pc.Sending? {
      LatePut(s.net, Report(c, s.fb), s.rcv.bm);
    } else if st.FbPeer? {
      NoHits(s.rcv.bm);
    }
  }

  lemma NoHits(got: set<nat>)
    ensures !Hits([], got)
  {
  }

  lemma DebtRest(c: Config, s: State, st: Step, got: set<nat>)
    requires Enabled(c, s, st) && Clean(st) && !ActorOf(st).TheSender? && !ActorOf(st).TheReporter?
    ensures Debt(c, Apply(c, s, st), got) == Debt(c, s, got)
  {
    hide LateCount, Hits, Total, WorkApply, DeliverApply, FlushApply;
    match ActorOf(st)
    case TheNetwork =>
    case TheFlusher => FlushShape(c, s);
    case TheWorkers =>
      if st.Work? {
        WorkShape(c, s, st.w);
      } else {
        DeliverShape(c, s, st.w, st.p, st.parsed);
        DeliverLeaves(c, s, st.w, st.p, st.parsed);
        LateTake(s.net, st.p, got);
      }
  }

  /** With the bitmap at rest no step raises the debt. */
  lemma DebtFalls(c: Config, s: State, st: Step)
    requires Fit(c, s) && Enabled(c, s, st) && Clean(st)
    ensures Debt(c, Apply(c, s, st), s.rcv.bm) <= Debt(c, s, s.rcv.bm)
  {
    hide Debt, Good, Enabled, Apply, SenderApply, SenderEnabled, FbApply, Tidy, Total, Clean;
    WorkerFacts(c, s);
    SubsetOfRange(s.rcv.bm, Total(c));
    if ActorOf(st).TheSender? {
      SenderMove(c, s, st);
      BatchData(c, s);
      DebtSender(c, s, st, s.rcv.bm);
    } else if ActorOf(st).TheReporter? {
      FbIsApply(c, s, st);
      DebtReporter(c, s, st);
    } else {
      DebtRest(c, s, st, s.rcv.bm);
    }
  }

  lemma BatchData(c: Config, s: State)
    requires Good(c, s)
    ensures forall p :: p in s.snd.batch ==> p.Data?
  {
    hide Good, AskedInv;
    SenderFacts(c, s);
  }

  // ---- the sender's queue runs dry ----

  ghost predicate SameDebtAt(c: Config, tr: Trace, N: nat, n: nat) {
    Debt(c, tr.state(n), tr.state(N).rcv.bm) == Debt(c, tr.state(N), tr.state(N).rcv.bm)
  }

  /** Nothing grows any more, and the debt is what it will always be. */
  ghost predicate Quiet(c: Config, tr: Trace, N: nat) {
    Settled(tr, N) && forall n: nat :: n >= N ==> SameDebtAt(c, tr, N, n)
  }

  lemma DebtStep(c: Config, e: Policy, past: seq<Step>, tr: Trace, N: nat, n: nat)
    requires Stalls(c, e, past, tr) && Settled(tr, N) && n >= N
    ensures Debt(c, tr.state(n + 1), tr.state(N).rcv.bm) <= Debt(c, tr.state(n), tr.state(N).rcv.bm)
  {
    hide Stalls, Settled, Fit, Enabled, Apply, Clean, Debt;
    Here(c, e, past, tr, n);
    AtRest(tr, N, n);
    if tr.step(n).Some? {
      DebtFalls(c, tr.state(n), tr.step(n).value);
    }
  }

  lemma ComesToQuiet(c: Config, e: Policy, past: seq<Step>, tr: Trace, M: nat) returns (N: nat)
    requires Stalls(c, e, past, tr) && Settled(tr, M)
    ensures N >= M && Quiet(c, tr, N)
  {
    hide Stalls, Settled, Debt;
    var got := tr.state(M).rcv.bm;
    var f := (j: nat) => Debt(c, tr.state(j), got);
    forall j: nat | j >= M
      ensures f(j + 1) <= f(j)
    {
      DebtStep(c, e, past, tr, M, j);
    }
    N := SettlesDown(f, M);
    StillSettled(tr, M, N);
    forall n: nat | n >= N
      ensures SameDebtAt(c, tr, N, n)
    {
      assert f(n) == f(N);
    }
  }

  lemma StillSettled(tr: Trace, M: nat, N: nat)
    requires Settled(tr, M) && N >= M
    ensures Settled(tr, N) && tr.state(N).rcv.bm == tr.state(M).rcv.bm
  {
    forall n: nat | n >= N
      ensures AsAt(tr, N, n)
    {
      assert AsAt(tr, M, n) && AsAt(tr, M, N);
    }
    AtRest(tr, M, N);
  }

  /** What the pacing loop's steps achieve. */
  lemma PaceEffects(c: Config, s: State, st: Step)
    requires SenderEnabled(c, s, st)
    ensures var d, t := s.snd, SenderApply(c, s, st);
      && (st.PaceTop? ==> st.n >= 1 && t.snd == d.(pacing := Building, toSend := st.n, built := 0))
      && (st.RexEmpty? ==> t.snd == d.(pacing := TryNew))
      && (st.TakeNew? ==> t.snd.brandNew > 0) && (st.Disconnected? ==> t.snd.newDone)
      && (st.AnnounceFin? && d.newDone && d.rex == {} ==> TheFin(c) in t.net)
      && (st == PopRex(true) ==>
            && d.rex != {} && MinOf(d.rex) in d.rex
            && (MinOf(d.rex) < Total(c) ==> DataPdu(c, MinOf(d.rex)) in t.snd.batch))
  {
    hide DataPdu, Total, Audible;
  }

  /** Then nothing is popped from the queue: a missing block would arrive, and any other
      would lower the debt. */
  lemma NoPop(c: Config, e: Policy, past: seq<Step>, tr: Trace, N: nat, n: nat)
    requires Stalls(c, e, past, tr) && Quiet(c, tr, N) && n >= N
    ensures tr.step(n) != Some(PopRex(true))
  {
    hide Stalls, Settled, Fit, Enabled, Apply, Clean, Debt, SenderApply, SenderEnabled, DataPdu, Total, SendInv;
    if tr.step(n) == Some(PopRex(true)) {
      Here(c, e, past, tr, n);
      var s := tr.state(n);
      SenderMove(c, s, PopRex(true));
      AskedInFile(c, s);
      PaceEffects(c, s, PopRex(true));
      NoneOnItsWay(c, e, past, tr, N, n + 1, MinOf(s.snd.rex));
      assert SameDebtAt(c, tr, N, n) && SameDebtAt(c, tr, N, n + 1);
      DebtPop(c, s, tr.state(N).rcv.bm);
    }
  }

  lemma RexKept(c: Config, s: State, st: Step)
    requires Enabled(c, s, st) && !st.PopRex?
    ensures s.snd.rex <= Apply(c, s, st).snd.rex
  {
    hide Apply, Enabled, SenderApply, SenderEnabled, PrefetchApply, BuildApply;
    if ActorOf(st).TheSender? {
      SenderMove(c, s, st);
      SenderFrames(c, s, st);
    } else {
      OwnParts(c, s, st);
    }
  }

  lemma {:induction false} RexWaits(c: Config, e: Policy, past: seq<Step>, tr: Trace, N: nat, n: nat, m: nat)
    requires Stalls(c, e, past, tr) && Quiet(c, tr, N) && N <= n <= m
    ensures tr.state(n).snd.rex <= tr.state(m).snd.rex
    decreases m
  {
    hide Stalls, Quiet, Fit, Enabled, Apply;
    if n < m {
      RexWaits(c, e, past, tr, N, n, m - 1);
      Here(c, e, past, tr, m - 1);
      NoPop(c, e, past, tr, N, m - 1);
      if tr.step(m - 1).Some? {
        RexKept(c, tr.state(m - 1), tr.step(m - 1).value);
      }
    }
  }

  /** The start of the next batch, with room in it. */
  lemma NextBatch(c: Config, e: Policy, past: seq<Step>, tr: Trace, n: nat) returns (k: nat, m: nat, st: Step)
    requires Stalls(c, e, past, tr)
    ensures n <= k < m && tr.state(k).snd.pacing.AtTop?
    ensures tr.state(k + 1).snd == tr.state(k).snd.(pacing := Building, toSend := tr.state(k + 1).snd.toSend, built := 0)
    ensures PaceOf(tr.state(m).snd) == PaceOf(tr.state(k + 1).snd) && tr.step(m) == Some(st)
    ensures tr.state(m).snd.pacing.Building? && tr.state(m).snd.built < tr.state(m).snd.toSend
    ensures st == PaceStep(tr.state(m).snd)
    ensures SenderEnabled(c, tr.state(m), st) && tr.state(m + 1) == SenderApply(c, tr.state(m), st)
  {
    hide Stalls, SenderApply, SenderEnabled, PaceStep;
    var top := TopAgain(c, e, past, tr, n);
    var go: Step;
    k, go := PacerMoves(c, e, past, tr, top);
    PaceEffects(c, tr.state(k), go);
    m, st := PacerMoves(c, e, past, tr, k + 1);
  }

  /** So the queue is empty. */
  lemma QueueEmpty(c: Config, e: Policy, past: seq<Step>, tr: Trace, N: nat, n: nat)
    requires Stalls(c, e, past, tr) && Quiet(c, tr, N) && n >= N
    ensures tr.state(n).snd.rex == {}
  {
    hide Stalls, Quiet, SenderApply, SenderEnabled;
    if tr.state(n).snd.rex != {} {
      var k, m, st := NextBatch(c, e, past, tr, n);
      RexWaits(c, e, past, tr, N, n, m);
      NoPop(c, e, past, tr, N, m);
    }
  }

  /** And no report that asks for anything can be heard any more. */
  lemma NothingAsked(c: Config, e: Policy, past: seq<Step>, tr: Trace, N: nat, n: nat, p: Packet)
    requires Stalls(c, e, past, tr) && Quiet(c, tr, N) && n >= N
    requires p in tr.state(n).net && p.Feedback? && Audible(c, p)
    ensures p.nacks == []
  {
    hide Stalls, Quiet, Audible;
    assert p.nacks != [] ==> p.nacks[0] in p.nacks;
    var m := ReportHeard(c, e, past, tr, p, n);
    QueueEmpty(c, e, past, tr, N, m);
  }

  // ---- everything has been read and sent, and FIN is heard ----

  predicate PfSame(c: Config, d: Sender, e: Sender) {
    e.pf == d.pf && e.next == d.next && !PfWaits(c, e)
  }

  lemma PrefetcherRests(c: Config, s: State, st: Step)
    requires Enabled(c, s, st) && !InDuty(Prefetching, st)
    ensures var d := Apply(c, s, st).snd; d.pf == s.snd.pf && d.next == s.snd.next && d.free >= s.snd.free
  {
    hide Apply, Enabled, SenderApply, SenderEnabled, PrefetchApply, BuildApply;
    if ActorOf(st).TheSender? {
      SenderMove(c, s, st);
      SenderFrames(c, s, st);
    } else {
      OwnParts(c, s, st);
    }
  }

  lemma PrefetcherAble(c: Config, s: State)
    requires Fit(c, s) && !PfWaits(c, s.snd)
    ensures CanMove(c, s, Prefetching)
  {
    hide Good, Tidy, SendInv, AskedInv, SenderApply, SenderEnabled;
    SenderFacts(c, s);
    PrefetchMoves(c, s);
    PrefetchDuty(c, s);
    MayMove(c, s, Prefetching, PfStep(c, s.snd));
  }

  lemma PrefetchDuty(c: Config, s: State)
    ensures var st := PfStep(c, s.snd); InDuty(Prefetching, st) && Clean(st) && ActorOf(st).TheSender?
  {
  }

  lemma PrefetchOnly(c: Config, s: State, st: Step)
    requires SenderEnabled(c, s, st) && PrefetchStep(st) && Clean(st) && !s.snd.done
    ensures st == PfStep(c, s.snd)
  {
    hide Total;
  }

  lemma PrefetcherMoves(c: Config, e: Policy, past: seq<Step>, tr: Trace, n: nat) returns (m: nat)
    requires Stalls(c, e, past, tr) && !PfWaits(c, tr.state(n).snd)
    ensures m >= n && PfSame(c, tr.state(n).snd, tr.state(m).snd)
    ensures var st := PfStep(c, tr.state(m).snd);
      SenderEnabled(c, tr.state(m), st) && tr.state(m + 1) == SenderApply(c, tr.state(m), st)
  {
    hide Stalls, Weak, Enabled, Apply, SenderApply, SenderEnabled, CanMove, Fit, Clean, PfStep, Total;
    var P := (j: nat) => PfSame(c, tr.state(n).snd, tr.state(j).snd);
    forall j: nat | j >= n && P(j)
      ensures Able(c, tr, j, Prefetching) && (!Does(tr, j, Prefetching) ==> P(j + 1))
    {
      Here(c, e, past, tr, j);
      PrefetcherAble(c, tr.state(j));
      if !Does(tr, j, Prefetching) && tr.step(j).Some? {
        PrefetcherRests(c, tr.state(j), tr.step(j).value);
      }
    }
    ThreadsFair(c, e, past, tr, Prefetching);
    m := Await(c, tr, P, Prefetching, n);
    Here(c, e, past, tr, m);
    NotYetDone(c, tr.state(m));
    SenderMove(c, tr.state(m), tr.step(m).value);
    PrefetchOnly(c, tr.state(m), tr.step(m).value);
  }

  lemma PrefetchResult(c: Config, s: State)
    requires SenderEnabled(c, s, PfStep(c, s.snd))
    ensures var d := SenderApply(c, s, PfStep(c, s.snd)).snd;
      || (s.snd.pf.Holding? && d.next == s.snd.next + 1)
      || (s.snd.pf.Borrowing? && d.pf.Exited?)
      || (s.snd.pf.Borrowing? && d.pf.Holding?)
  {
    hide Total;
  }

  /** Prefetch has left or waits for a buffer. */
  lemma PrefetchRests(c: Config, e: Policy, past: seq<Step>, tr: Trace, N: nat, n: nat)
    requires Stalls(c, e, past, tr) && Settled(tr, N) && n >= N
    ensures PfWaits(c, tr.state(n).snd)
  {
    hide Stalls, Settled, SenderApply, SenderEnabled, PfStep, Total;
    if !PfWaits(c, tr.state(n).snd) {
      var m := PrefetcherMoves(c, e, past, tr, n);
      PrefetchResult(c, tr.state(m));
      AtRest(tr, N, m);
      AtRest(tr, N, m + 1);
      if tr.state(m + 1).snd.pf.Holding? {
        var k := PrefetcherMoves(c, e, past, tr, m + 1);
        PrefetchResult(c, tr.state(k));
        AtRest(tr, N, k);
        AtRest(tr, N, k + 1);
      }
    }
  }

  lemma NewKept(c: Config, s: State)
    requires SendInv(c, s.snd) && s.snd.brandNew > 0 && SenderEnabled(c, s, PaceStep(s.snd))
    ensures !s.snd.pacing.AtTop?
    ensures var d := SenderApply(c, s, PaceStep(s.snd)).snd;
      d.injected > s.snd.injected || (d.injected == s.snd.injected && d.brandNew > 0)
  {
    hide DataPdu, Total, IsOwnData, Refill;
  }

  /** A new block in the batch is injected. */
  lemma {:induction false} NewGoes(c: Config, e: Policy, past: seq<Step>, tr: Trace, n: nat) returns (m: nat)
    requires Stalls(c, e, past, tr) && tr.state(n).snd.brandNew > 0
    ensures m >= n && tr.state(m).snd.injected > tr.state(n).snd.injected
    decreases Room(tr.state(n).snd), !tr.state(n).snd.newDone, Cycle(tr.state(n).snd.pacing)
  {
    hide Stalls, Fit, SenderApply, SenderEnabled, PaceStep, Cycle, SendInv;
    var k, st := PacerMoves(c, e, past, tr, n);
    Here(c, e, past, tr, k);
    AskedInFile(c, tr.state(k));
    NewMoves(c, tr.state(k), st);
    PaceNearer(c, tr.state(k));
    m := k + 1;
    if tr.state(m).snd.injected == tr.state(n).snd.injected {
      m := NewGoes(c, e, past, tr, k + 1);
    }
  }

  lemma NewMoves(c: Config, s: State, st: Step)
    requires SendInv(c, s.snd) && s.snd.brandNew > 0 && SenderEnabled(c, s, st)
    requires if s.snd.pacing.AtTop? then st.PaceTop? else st == PaceStep(s.snd)
    ensures st == PaceStep(s.snd) && !s.snd.pacing.AtTop?
    ensures var d := SenderApply(c, s, st).snd;
      d.injected > s.snd.injected || (d.injected == s.snd.injected && d.brandNew > 0)
  {
    hide SenderApply, SenderEnabled, PaceStep;
    assert !s.snd.pacing.AtTop?;
    NewKept(c, s);
  }

  lemma ReadyKept(c: Config, s: State, st: Step)
    requires Enabled(c, s, st) && !st.TakeNew? && s.snd.ready != []
    ensures Apply(c, s, st).snd.ready != []
  {
    hide Apply, Enabled, SenderApply, SenderEnabled, PrefetchApply, BuildApply;
    if ActorOf(st).TheSender? {
      SenderMove(c, s, st);
      SenderFrames(c, s, st);
    } else {
      OwnParts(c, s, st);
    }
  }

  /** At rest no new block is taken: it would be injected. */
  lemma NoTake(c: Config, e: Policy, past: seq<Step>, tr: Trace, N: nat, n: nat)
    requires Stalls(c, e, past, tr) && Settled(tr, N) && n >= N
    ensures tr.step(n) != Some(TakeNew)
  {
    hide Stalls, Settled, Fit, Enabled, Apply, Clean, SenderApply, SenderEnabled;
    if tr.step(n) == Some(TakeNew) {
      Here(c, e, past, tr, n);
      SenderMove(c, tr.state(n), TakeNew);
      PaceEffects(c, tr.state(n), TakeNew);
      var m := NewGoes(c, e, past, tr, n + 1);
      AtRest(tr, N, n + 1);
      AtRest(tr, N, m);
    }
  }

  lemma {:induction false} ReadyWaits(c: Config, e: Policy, past: seq<Step>, tr: Trace, N: nat, n: nat, m: nat)
    requires Stalls(c, e, past, tr) && Settled(tr, N) && N <= n <= m && tr.state(n).snd.ready != []
    ensures tr.state(m).snd.ready != []
    decreases m
  {
    hide Stalls, Settled, Fit, Enabled, Apply;
    if n < m {
      ReadyWaits(c, e, past, tr, N, n, m - 1);
      Here(c, e, past, tr, m - 1);
      NoTake(c, e, past, tr, N, m - 1);
      if tr.step(m - 1).Some? {
        ReadyKept(c, tr.state(m - 1), tr.step(m - 1).value);
      }
    }
  }

  /** With the queue empty the loop asks for a new block. */
  lemma TriesNew(c: Config, e: Policy, past: seq<Step>, tr: Trace, N: nat) returns (k: nat, m: nat, st: Step)
    requires Stalls(c, e, past, tr) && Quiet(c, tr, N)
    ensures N <= k < m && tr.state(k).snd.pacing.AtTop?
    ensures tr.state(m).snd.pacing.TryNew? && tr.step(m) == Some(st) && st == PaceStep(tr.state(m).snd)
    ensures SenderEnabled(c, tr.state(m), st) && tr.state(m + 1) == SenderApply(c, tr.state(m), st)
  {
    hide Stalls, Quiet, SenderApply, SenderEnabled;
    var i, go: Step;
    k, i, go := NextBatch(c, e, past, tr, N);
    QueueEmpty(c, e, past, tr, N, i);
    PaceEffects(c, tr.state(i), RexEmpty);
    m, st := PacerMoves(c, e, past, tr, i + 1);
  }

  lemma Waited(c: Config, s: State)
    requires Fit(c, s) && s.snd.pacing.AtTop? && PfWaits(c, s.snd) && s.snd.ready == []
    ensures s.snd.pf.Exited?
  {
    hide Good, Tidy, SendInv, AskedInv;
    SenderFacts(c, s);
  }

  /** Everything has been read, as far as it could be, and sent. */
  lemma AllRead(c: Config, e: Policy, past: seq<Step>, tr: Trace, N: nat)
    requires Stalls(c, e, past, tr) && Quiet(c, tr, N)
    ensures tr.state(N).snd.newDone
  {
    hide Stalls, Settled, Fit, SenderApply, SenderEnabled, PfWaits, Debt;
    var k, m, st := TriesNew(c, e, past, tr, N);
    AtRest(tr, N, k);
    AtRest(tr, N, m);
    AtRest(tr, N, m + 1);
    if !tr.state(N).snd.newDone {
      Here(c, e, past, tr, k);
      PrefetchRests(c, e, past, tr, N, k);
      NoTake(c, e, past, tr, N, m);
      if tr.state(k).snd.ready == [] {
        Waited(c, tr.state(k));
      } else {
        ReadyWaits(c, e, past, tr, N, k, m);
      }
      if st == Disconnected {
        PaceEffects(c, tr.state(m), Disconnected);
      }
    }
  }

  /** The loop comes to its FIN test. */
  lemma {:induction false} CheckAgain(c: Config, e: Policy, past: seq<Step>, tr: Trace, n: nat) returns (m: nat)
    requires Stalls(c, e, past, tr) && !tr.state(n).snd.pacing.AtTop?
    ensures m >= n && tr.state(m).snd.pacing.FinCheck?
    decreases Room(tr.state(n).snd), !tr.state(n).snd.newDone, Cycle(tr.state(n).snd.pacing)
  {
    hide Stalls, Fit, SenderApply, SenderEnabled, PaceStep, Cycle;
    m := n;
    if !tr.state(n).snd.pacing.FinCheck? {
      var k, st := PacerMoves(c, e, past, tr, n);
      Here(c, e, past, tr, k);
      PaceNearer(c, tr.state(k));
      NotTopYet(c, tr.state(k));
      m := CheckAgain(c, e, past, tr, k + 1);
    }
  }

  lemma NotTopYet(c: Config, s: State)
    requires SenderEnabled(c, s, PaceStep(s.snd)) && !s.snd.pacing.AtTop? && !s.snd.pacing.FinCheck?
    ensures !SenderApply(c, s, PaceStep(s.snd)).snd.pacing.AtTop?
  {
    hide DataPdu, Total, Refill;
  }

  /** FIN has been heard. */
  lemma AllHeard(c: Config, e: Policy, past: seq<Step>, tr: Trace, N: nat)
    requires Stalls(c, e, past, tr) && Quiet(c, tr, N)
    ensures tr.state(N).rcv.allSent
  {
    hide Stalls, Settled, SenderApply, SenderEnabled, Debt, TheFin;
    AllRead(c, e, past, tr, N);
    var top, i, go := NextBatch(c, e, past, tr, N);
    var n := CheckAgain(c, e, past, tr, i);
    var k, st := PacerMoves(c, e, past, tr, n);
    AtRest(tr, N, k);
    QueueEmpty(c, e, past, tr, N, k);
    PaceEffects(c, tr.state(k), AnnounceFin);
    var m := FinArrives(c, e, past, tr, k + 1);
    AtRest(tr, N, m);
  }

  // ---- the reporter ----

  lemma NotGoneYet(c: Config, s: State)
    requires Fit(c, s)
    ensures !s.fb.pc.Gone? && (s.fb.pc.Counting? ==> !s.fb.complete)
    ensures s.fb.sc.next <= Total(c) && (s.fb.pc.Scanning? ==> s.fb.ms < Total(c))
    ensures s.rcv.allSent ==> s.rcv.peer.Some?
  {
    hide Good, Tidy, Agrees;
    FbFacts(c, s);
    WorkerFacts(c, s);
  }

  lemma ReporterAble(c: Config, s: State)
    requires !s.fb.pc.Gone?
    ensures CanMove(c, s, Reporting)
  {
    if s.fb.pc.Sleeping? {
      MayMove(c, s, Reporting, Tick(s.fb.now, 2000.0));
    } else if s.fb.pc.CheckPeer? {
      MayMove(c, s, Reporting, FbPeer(1));
    } else {
      MayMove(c, s, Reporting, Fb);
    }
  }

  lemma ReporterMoves(c: Config, e: Policy, past: seq<Step>, tr: Trace, n: nat) returns (m: nat, st: Step)
    requires Stalls(c, e, past, tr)
    ensures m >= n && tr.state(m).fb == tr.state(n).fb
    ensures FbEnabled(c, tr.state(m), st) && tr.state(m + 1) == FbApply(c, tr.state(m), st)
    ensures st.Tick? ==> st.now > tr.state(m).fb.now
  {
    hide Stalls, Weak, Enabled, Apply, FbApply, FbEnabled, CanMove, Fit, Clean, Total;
    var P := (j: nat) => tr.state(j).fb == tr.state(n).fb;
    forall j: nat | j >= n && P(j)
      ensures Able(c, tr, j, Reporting) && (!Does(tr, j, Reporting) ==> P(j + 1))
    {
      Here(c, e, past, tr, j);
      NotGoneYet(c, tr.state(j));
      ReporterAble(c, tr.state(j));
      if !Does(tr, j, Reporting) && tr.step(j).Some? {
        OwnParts(c, tr.state(j), tr.step(j).value);
      }
    }
    ThreadsFair(c, e, past, tr, Reporting);
    m := Await(c, tr, P, Reporting, n);
    st := tr.step(m).value;
    Here(c, e, past, tr, m);
    FbIsApply(c, tr.state(m), st);
  }

  lemma Reported(c: Config, s: State)
    requires s.fb.pc.Sending?
    ensures FbEnabled(c, s, Fb)
    ensures FbApply(c, s, Fb) == s.(fb := s.fb.(pc := Counting), net := s.net + multiset{Report(c, s.fb)})
  {
    hide Look, Collect, Report;
  }

  lemma FbKind(c: Config, s: State, st: Step)
    requires FbEnabled(c, s, st)
    ensures if s.fb.pc.Sleeping? then st.Tick? else st == FbStep(s.fb, if st.FbPeer? then st.cap else 1)
    ensures st.FbPeer? ==> 1 <= st.cap <= c.maxNacks
  {
  }

  lemma HeardIfFit(c: Config, s: State, b: Feedbacker)
    requires Fit(c, s) && ReportsFit(c) && Report(c, b) in s.net
    requires b.pc.Sending? && Tidy(c, b)
    ensures Audible(c, Report(c, b))
  {
    hide Good, Once, Audible;
    ShortReport(c, s, b, Report(c, b));
  }

  /** At rest a tick ends with a report that asks for nothing. */
  lemma BareReport(c: Config, e: Policy, past: seq<Step>, tr: Trace, N: nat, n: nat)
    requires Stalls(c, e, past, tr) && Quiet(c, tr, N) && n >= N && tr.state(n).fb.pc.Sending?
    ensures tr.state(n).fb.out == []
  {
    hide Moment, Fair, Quiet, Fit, FbApply, Audible, Tidy;
    var m, st := ReporterMoves(c, e, past, tr, n);
    FbKind(c, tr.state(m), st);
    Reported(c, tr.state(m));
    var b := tr.state(n).fb;
    Here(c, e, past, tr, n);
    Here(c, e, past, tr, m);
    FitIsTidy(c, tr.state(n));
    HeardIfFit(c, tr.state(m + 1), b);
    NothingAsked(c, e, past, tr, N, m + 1, Report(c, b));
  }

  lemma FitIsTidy(c: Config, s: State)
    requires Fit(c, s)
    ensures Tidy(c, s.fb)
  {
    hide Good, Tidy, Complete;
  }

  /** A tick that scans to the end of the file runs out with the whole file scanned. */
  lemma {:induction false} SleepAgain(c: Config, e: Policy, past: seq<Step>, tr: Trace, N: nat, n: nat) returns (m: nat)
    requires Stalls(c, e, past, tr) && Settled(tr, N) && n >= N && tr.state(N).rcv.allSent
    requires Total(c) > 0
    ensures m >= n && tr.state(m).fb.pc.Sleeping?
    ensures WillScanAll(c, tr.state(n).fb) ==> tr.state(m).fb.sc.next == Total(c)
    decreases FbRank(tr.state(n).fb.pc), FbLeft(tr.state(n).fb)
  {
    hide Stalls, Settled, Fit, FbApply, FbEnabled, FbRank, FbLeft, Total;
    m := n;
    if !tr.state(n).fb.pc.Sleeping? {
      var k, st := ReporterMoves(c, e, past, tr, n);
      var s := tr.state(k);
      Here(c, e, past, tr, k);
      NotGoneYet(c, s);
      FbKind(c, s, st);
      FbMoves(c, s, if st.FbPeer? then st.cap else 1);
      AtRest(tr, N, k);
      if WillScanAll(c, s.fb) {
        FbScansOn(c, s, st);
      }
      m := SleepAgain(c, e, past, tr, N, k + 1);
    }
  }

  lemma Woken(c: Config, s: State, st: Step)
    requires FbEnabled(c, s, st) && st.Tick?
    ensures FbApply(c, s, st) == s.(fb := s.fb.(pc := AdvancingMark, now := st.now, rto := st.rto))
  {
  }

  lemma ScannedThrough(c: Config, e: Policy, past: seq<Step>, tr: Trace, N: nat) returns (m: nat)
    requires Stalls(c, e, past, tr) && Settled(tr, N) && tr.state(N).rcv.allSent && Total(c) > 0
    ensures m >= N && tr.state(m).fb.pc.Sleeping? && tr.state(m).fb.sc.next == Total(c)
  {
    hide Stalls, Settled, FbApply, FbEnabled, Total;
    var n := SleepAgain(c, e, past, tr, N, N);
    var k, st := ReporterMoves(c, e, past, tr, n);
    FbKind(c, tr.state(k), st);
    Woken(c, tr.state(k), st);
    m := SleepAgain(c, e, past, tr, N, k + 1);
  }

  // ---- no block is missing ----

  /** A tick on its way past entry `a` of a missing block. */
  predicate Passing(c: Config, b: Feedbacker, got: set<nat>, a: Item) {
    match b.pc
    case Sleeping => b.sc.next == Total(c) && a in b.sc.heap && a.due > b.now
    case Collecting => b.sc.next == Total(c) && b.cap >= 1 && Hunting(b, got, a)
    case Sending => b.sc.next == Total(c) && Hunting(b, got, a) && (b.out == [] ==> a.due > b.now)
    case Counting => b.sc.next == Total(c) && a in b.sc.heap && a.due > b.now
    case Gone => false
    case _ => ScanIdle(c, b) && a in b.sc.heap
  }

  lemma PassPeer(c: Config, s: State, st: Step, a: Item)
    requires s.fb.pc.CheckPeer? && FbEnabled(c, s, st) && s.rcv.peer.Some?
    requires Passing(c, s.fb, s.rcv.bm, a) && a.sn in s.fb.sc.pending
    ensures Passing(c, FbApply(c, s, st).fb, s.rcv.bm, a) && FbApply(c, s, st).fb.now == s.fb.now
  {
    hide Total;
  }

  lemma PassLook(c: Config, s: State, a: Item)
    requires BeforePeer(s.fb.pc) && !s.fb.pc.CheckPeer? && Passing(c, s.fb, s.rcv.bm, a)
    ensures FbEnabled(c, s, Fb)
    ensures Passing(c, FbApply(c, s, Fb).fb, s.rcv.bm, a) && FbApply(c, s, Fb).fb.now == s.fb.now
  {
    hide FbApply, ScanIdle, Hunting, Total;
    HeapStays(c, s);
  }

  lemma PassCollect(c: Config, s: State, a: Item)
    requires s.fb.pc.Collecting? && Passing(c, s.fb, s.rcv.bm, a) && a.sn !in s.rcv.bm
    ensures FbEnabled(c, s, Fb)
    ensures Passing(c, FbApply(c, s, Fb).fb, s.rcv.bm, a) && FbApply(c, s, Fb).fb.now == s.fb.now
  {
    hide FbApply, Hunting, Total, ScanIdle;
    CollectHunts(c, s, a);
    CollectMoves(c, s);
  }

  lemma PassReport(c: Config, s: State, a: Item)
    requires (s.fb.pc.Sending? || s.fb.pc.Counting?) && Passing(c, s.fb, s.rcv.bm, a)
    requires (s.fb.pc.Sending? ==> s.fb.out == []) && (s.fb.pc.Counting? ==> !s.fb.complete)
    ensures FbEnabled(c, s, Fb)
    ensures Passing(c, FbApply(c, s, Fb).fb, s.rcv.bm, a) && FbApply(c, s, Fb).fb.now == s.fb.now
  {
    hide Look, Collect, Total, ScanIdle;
  }

  lemma StillWatched(c: Config, s: State, x: nat)
    requires Fit(c, s) && s.fb.pc.CheckPeer? && ScanIdle(c, s.fb) && x < Total(c) && x !in s.rcv.bm
    ensures x in s.fb.sc.pending
  {
    hide Good, Tidy, Agrees;
    FbFacts(c, s);
    MissingIsPending(s.fb.sc, s.rcv.bm, Scanned(s.fb), x);
  }

  lemma {:induction false} TickPasses(c: Config, e: Policy, past: seq<Step>, tr: Trace, N: nat, n: nat, a: Item)
    returns (m: nat)
    requires Stalls(c, e, past, tr) && Quiet(c, tr, N) && n >= N && tr.state(N).rcv.allSent
    requires a.sn < Total(c) && a.sn !in tr.state(N).rcv.bm && Passing(c, tr.state(n).fb, tr.state(N).rcv.bm, a)
    ensures m >= n && tr.state(m).fb.pc.Sleeping? && tr.state(m).fb.now == tr.state(n).fb.now
    ensures Passing(c, tr.state(m).fb, tr.state(N).rcv.bm, a)
    decreases FbRank(tr.state(n).fb.pc), FbLeft(tr.state(n).fb)
  {
    hide Stalls, Settled, Debt, Fit, FbApply, FbEnabled, FbRank, FbLeft, Passing, Total;
    m := n;
    if !tr.state(n).fb.pc.Sleeping? {
      var k, st := ReporterMoves(c, e, past, tr, n);
      var s := tr.state(k);
      Here(c, e, past, tr, k);
      AtRest(tr, N, k);
      NotGoneYet(c, s);
      FbKind(c, s, st);
      FbMoves(c, s, if st.FbPeer? then st.cap else 1);
      if s.fb.pc.Sending? {
        BareReport(c, e, past, tr, N, k);
      }
      PassStep(c, s, st, a);
      m := TickPasses(c, e, past, tr, N, k + 1, a);
    }
  }

  lemma PassStep(c: Config, s: State, st: Step, a: Item)
    requires Fit(c, s) && FbEnabled(c, s, st) && !s.fb.pc.Sleeping? && s.rcv.peer.Some?
    requires Passing(c, s.fb, s.rcv.bm, a) && a.sn < Total(c) && a.sn !in s.rcv.bm
    requires (s.fb.pc.Sending? ==> s.fb.out == []) && (s.fb.pc.Counting? ==> !s.fb.complete)
    ensures Passing(c, FbApply(c, s, st).fb, s.rcv.bm, a) && FbApply(c, s, st).fb.now == s.fb.now
  {
    hide FbApply, Fit, Hunting, ScanIdle, Total;
    FbKind(c, s, st);
    if s.fb.pc.CheckPeer? {
      StillWatched(c, s, a.sn);
      PassPeer(c, s, st, a);
    } else if s.fb.pc.Collecting? {
      PassCollect(c, s, a);
    } else if s.fb.pc.Sending? || s.fb.pc.Counting? {
      PassReport(c, s, a);
    } else {
      PassLook(c, s, a);
    }
  }

  /** One more tick goes by, later than the last, and entry `a` is still not due. */
  lemma OneMoreTick(c: Config, e: Policy, past: seq<Step>, tr: Trace, N: nat, n: nat, a: Item) returns (m: nat)
    requires Stalls(c, e, past, tr) && Quiet(c, tr, N) && n >= N && tr.state(N).rcv.allSent
    requires a.sn < Total(c) && a.sn !in tr.state(N).rcv.bm
    requires tr.state(n).fb.pc.Sleeping? && tr.state(n).fb.sc.next == Total(c) && a in tr.state(n).fb.sc.heap
    ensures m > n && tr.state(m).fb.pc.Sleeping? && tr.state(m).fb.sc.next == Total(c)
    ensures a in tr.state(m).fb.sc.heap && a.due > tr.state(m).fb.now > tr.state(n).fb.now
  {
    hide Stalls, Quiet, FbApply, FbEnabled, Total;
    var k, st := ReporterMoves(c, e, past, tr, n);
    FbKind(c, tr.state(k), st);
    Woken(c, tr.state(k), st);
    m := TickPasses(c, e, past, tr, N, k + 1, a);
  }

  /** Time passes and no entry stays undue, so a missing block has none. */
  lemma {:induction false} Overdue(c: Config, e: Policy, past: seq<Step>, tr: Trace, N: nat, n: nat, a: Item)
    requires Stalls(c, e, past, tr) && Quiet(c, tr, N) && n >= N && tr.state(N).rcv.allSent
    requires a.sn < Total(c) && a.sn !in tr.state(N).rcv.bm
    requires tr.state(n).fb.pc.Sleeping? && tr.state(n).fb.sc.next == Total(c)
    ensures a !in tr.state(n).fb.sc.heap
    decreases a.due - tr.state(n).fb.now
  {
    hide Stalls, Quiet, Total;
    if a in tr.state(n).fb.sc.heap {
      var m := OneMoreTick(c, e, past, tr, N, n, a);
      Overdue(c, e, past, tr, N, m, a);
    }
  }

  lemma EntryThere(c: Config, s: State, x: nat) returns (a: Item)
    requires Fit(c, s) && s.fb.pc.Sleeping? && s.fb.sc.next == Total(c) && x < Total(c) && x !in s.rcv.bm
    ensures a in s.fb.sc.heap && a.sn == x
  {
    hide Good, Tidy, Agrees;
    FbFacts(c, s);
    MissingIsPending(s.fb.sc, s.rcv.bm, Scanned(s.fb), x);
    a := EntryOf(s.fb.sc, s.rcv.bm, Scanned(s.fb), x);
  }

  lemma NoneMissing(c: Config, e: Policy, past: seq<Step>, tr: Trace, N: nat, x: nat)
    requires Stalls(c, e, past, tr) && Quiet(c, tr, N) && x < Total(c)
    ensures x in tr.state(N).rcv.bm
  {
    hide Stalls, Settled, Debt, Fit, Total;
    AllHeard(c, e, past, tr, N);
    if x !in tr.state(N).rcv.bm {
      var m := ScannedThrough(c, e, past, tr, N);
      AtRest(tr, N, m);
      Here(c, e, past, tr, m);
      var a := EntryThere(c, tr.state(m), x);
      Overdue(c, e, past, tr, N, m, a);
    }
  }

  // ---- everything is flushed ----

  lemma ReadyGrows(c: Config, s: State, st: Step)
    requires Enabled(c, s, st) && Clean(st)
    ensures s.rcv.ready <= Apply(c, s, st).rcv.ready
  {
    hide SenderApply, SenderEnabled, FbApply, FbEnabled, DeliverApply, FlushApply, WriteAt;
    match ActorOf(st)
    case TheSender => SenderShape(c, s, st);
    case TheNetwork =>
    case TheReporter => FeedbackShape(c, s, st);
    case TheFlusher => FlushShape(c, s);
    case TheWorkers =>
      if st.Deliver? {
        DeliverShape(c, s, st.w, st.p, st.parsed);
      }
  }

  lemma {:induction false} ReadyStays(c: Config, e: Policy, past: seq<Step>, tr: Trace, x: nat, n: nat, m: nat)
    requires Stalls(c, e, past, tr) && n <= m && x in tr.state(n).rcv.ready
    ensures x in tr.state(m).rcv.ready
    decreases m
  {
    hide Stalls, Fit, Enabled, Apply, Clean;
    if n < m {
      ReadyStays(c, e, past, tr, x, n, m - 1);
      Here(c, e, past, tr, m - 1);
      if tr.step(m - 1).Some? {
        ReadyGrows(c, tr.state(m - 1), tr.step(m - 1).value);
      }
    }
  }

  lemma OwnerOf(c: Config, s: State, x: nat) returns (w: nat)
    requires Fit(c, s) && x in s.rcv.bm && x !in s.rcv.ready
    ensures w < |s.wk| && Owns(s.wk[w]) && s.wk[w].sn == x
  {
    hide HeardInv, FrontInv, StageInv, SinkInv, PoolInv, CountInv, ScanInv, FinishInv, NetInv, SendInv, AskedInv, DoneInv;
    hide Tidy;
    Parts(c, s);
    assert SomeOwner(s.wk, x);
    w :| 0 <= w < |s.wk| && Owns(s.wk[w]) && s.wk[w].sn == x;
  }

  lemma BecomesReady(c: Config, e: Policy, past: seq<Step>, tr: Trace, x: nat, n: nat) returns (m: nat)
    requires Stalls(c, e, past, tr) && x in tr.state(n).rcv.bm
    ensures m >= n && x in tr.state(m).rcv.ready
  {
    hide Stalls, Fit;
    m := n;
    if x !in tr.state(n).rcv.ready {
      Here(c, e, past, tr, n);
      var w := OwnerOf(c, tr.state(n), x);
      m := OwnedReady(c, e, past, tr, w, x, n);
    }
  }

  /** The flusher can go on. */
  predicate CanFlush(c: Config, s: State) {
    s.fl.front in s.rcv.ready || !s.fl.pc.Probe?
  }

  lemma FlusherFacts(c: Config, s: State)
    requires Fit(c, s)
    ensures s.fl.pc.ReturningBuf? ==> s.rcv.free < StageDepth(c)
    ensures s.fl.front <= Total(c) && s.fl.flushed + One(s.fl.pc.Storing?) == s.fl.front
  {
    hide Good, Tidy, Total, StageDepth;
    FlushFacts(c, s);
  }

  lemma FlusherAble(c: Config, s: State)
    requires Fit(c, s) && CanFlush(c, s) && s.fl.front < Total(c)
    ensures CanMove(c, s, FlushingOut)
  {
    hide Fit, Total, StageDepth;
    FlusherFacts(c, s);
    MayMove(c, s, FlushingOut, Flush);
  }

  lemma FlusherMoves(c: Config, e: Policy, past: seq<Step>, tr: Trace, n: nat) returns (m: nat)
    requires Stalls(c, e, past, tr)
    requires tr.state(n).fl.front in tr.state(n).rcv.ready && tr.state(n).fl.front < Total(c)
    ensures m >= n && tr.state(m).fl == tr.state(n).fl && tr.state(m + 1) == FlushApply(c, tr.state(m))
  {
    hide Stalls, Weak, Enabled, Apply, FlushApply, CanMove, Fit, Clean, Total;
    var P := (j: nat) => tr.state(j).fl == tr.state(n).fl;
    forall j: nat | j >= n && P(j)
      ensures Able(c, tr, j, FlushingOut) && (!Does(tr, j, FlushingOut) ==> P(j + 1))
    {
      Here(c, e, past, tr, j);
      ReadyStays(c, e, past, tr, tr.state(n).fl.front, n, j);
      FlusherAble(c, tr.state(j));
      if !Does(tr, j, FlushingOut) && tr.step(j).Some? {
        NotFlushing(tr.step(j).value);
        OwnParts(c, tr.state(j), tr.step(j).value);
      }
    }
    ThreadsFair(c, e, past, tr, FlushingOut);
    m := Await(c, tr, P, FlushingOut, n);
    Here(c, e, past, tr, m);
    FlushMove(c, tr.state(m), tr.step(m).value);
  }

  lemma NotFlushing(st: Step)
    requires Clean(st) && !InDuty(FlushingOut, st)
    ensures !ActorOf(st).TheFlusher?
  {
  }

  lemma FlushStep(c: Config, s: State)
    ensures var f := FlushApply(c, s).fl;
      f.front > s.fl.front || (f.front == s.fl.front && FlushRank(f.pc) < FlushRank(s.fl.pc))
  {
    hide WriteAt;
  }

  /** The flusher passes a block that is ready. */
  lemma {:induction false} FrontMoves(c: Config, e: Policy, past: seq<Step>, tr: Trace, n: nat) returns (m: nat)
    requires Stalls(c, e, past, tr)
    requires tr.state(n).fl.front in tr.state(n).rcv.ready && tr.state(n).fl.front < Total(c)
    ensures m >= n && tr.state(m).fl.front > tr.state(n).fl.front
    decreases FlushRank(tr.state(n).fl.pc)
  {
    hide Stalls, FlushApply, FlushRank, Total;
    var k := FlusherMoves(c, e, past, tr, n);
    FlushStep(c, tr.state(k));
    m := k + 1;
    if tr.state(m).fl.front == tr.state(n).fl.front {
      ReadyStays(c, e, past, tr, tr.state(n).fl.front, n, m);
      m := FrontMoves(c, e, past, tr, m);
    }
  }

  lemma StoreAble(c: Config, s: State)
    requires s.fl.pc.Storing?
    ensures CanMove(c, s, FlushingOut)
  {
    MayMove(c, s, FlushingOut, Flush);
  }

  lemma FrontAtEnd(c: Config, s: State)
    requires Fit(c, s) && s.rcv.allSent && s.fl.front == Total(c)
    ensures s.fl.pc.Storing?
  {
    hide Good, Tidy, Total;
    FlusherFacts(c, s);
  }

  /** Were every block passed, storing the mark would be all that is left, and would complete
      the transfer. */
  lemma NotAllPassed(c: Config, e: Policy, past: seq<Step>, tr: Trace, N: nat)
    requires Stalls(c, e, past, tr) && Settled(tr, N) && tr.state(N).rcv.allSent
    ensures tr.state(N).fl.front != Total(c)
  {
    hide Stalls, Settled, Weak, Enabled, Apply, FlushApply, CanMove, Fit, Clean, Total;
    if tr.state(N).fl.front == Total(c) {
      var P := (j: nat) => tr.state(j).fl.pc.Storing?;
      forall j: nat | j >= N
        ensures P(j) && Able(c, tr, j, FlushingOut)
      {
        Here(c, e, past, tr, j);
        AtRest(tr, N, j);
        FrontAtEnd(c, tr.state(j));
        StoreAble(c, tr.state(j));
      }
      ThreadsFair(c, e, past, tr, FlushingOut);
      var m := Await(c, tr, P, FlushingOut, N);
      Here(c, e, past, tr, m);
      FlushMove(c, tr.state(m), tr.step(m).value);
      assert P(m + 1);
      Stored(c, tr.state(m));
    }
  }

  lemma Stored(c: Config, s: State)
    requires s.fl.pc.Storing?
    ensures FlushApply(c, s).fl.pc.Probe?
  {
    hide WriteAt;
  }

  /** So a run that never completes cannot be fair. */
  lemma NeverStalls(c: Config, e: Policy, past: seq<Step>, tr: Trace)
    ensures !Stalls(c, e, past, tr)
  {
    hide Stalls, Settled, Debt, Fit, Total;
    if Stalls(c, e, past, tr) {
      var M := ComesToRest(c, e, past, tr);
      var N := ComesToQuiet(c, e, past, tr, M);
      AllHeard(c, e, past, tr, N);
      NotAllPassed(c, e, past, tr, N);
      Here(c, e, past, tr, N);
      FlusherFacts(c, tr.state(N));
      var x := tr.state(N).fl.front;
      NoneMissing(c, e, past, tr, N, x);
      var k := BecomesReady(c, e, past, tr, x, N);
      AtRest(tr, N, k);
      var m := FrontMoves(c, e, past, tr, k);
      AtRest(tr, N, m);
    }
  }

  lemma {:induction false} FitAlways(c: Config, e: Policy, past: seq<Step>, tr: Trace, n: nat)
    requires IsRun(c, e, past, tr) && Good(c, tr.state(0)) && Tidy(c, tr.state(0).fb)
    ensures Good(c, tr.state(n)) && Tidy(c, tr.state(n).fb) && Moves(c, e, past, tr, n)
    decreases n
  {
    hide Inv, Tidy, Enabled, Apply;
    if n > 0 {
      FitAlways(c, e, past, tr, n - 1);
      assert Moves(c, e, past, tr, n - 1);
      if tr.step(n - 1).Some? {
        StepKeeps(c, tr.state(n - 1), tr.step(n - 1).value);
        StuckStep(c, tr.state(n - 1), tr.step(n - 1).value);
        TidyStep(c, tr.state(n - 1), tr.step(n - 1).value);
      }
    }
  }

  lemma FitAtFirst(c: Config, s0: State, past: seq<Step>, s: State)
    requires Init(c, s0) && Runs(c, s0, past, s)
    ensures Inv(c, s) && Tidy(c, s.fb)
  {
    hide Runs, Inv, Tidy;
    InitInv(c, s0);
    TidyStart(c, s0);
    hide Init;
    ReachableInv(c, s0, past, s);
    TidyRun(c, s0, past, s);
  }

  /** Completion is inevitable. Whatever the policy, and whatever was lost, forged, read or
      written badly before: if reports fit and no direct write has failed, then every run of
      the policy from a reachable state completes in which nothing more goes wrong and
      neither a thread that can go on nor a datagram that can be taken in is neglected for
      ever, however unevenly they take turns. */
  lemma FairRunsComplete(c: Config, e: Policy, s0: State, past: seq<Step>, tr: Trace)
    requires ReportsFit(c) && Init(c, s0) && Runs(c, s0, past, tr.state(0))
    requires tr.state(0).stuck == {} && IsRun(c, e, past, tr) && Fair(c, tr)
    ensures exists n: nat :: Complete(c, tr.state(n))
  {
    hide Init, Runs, Inv, Tidy, IsRun, Fair, Complete, ReportsFit;
    FitAtFirst(c, s0, past, tr.state(0));
    if forall n: nat :: !Complete(c, tr.state(n)) {
      forall n: nat
        ensures Moment(c, e, past, tr, n)
      {
        FitAlways(c, e, past, tr, n);
      }
      NeverStalls(c, e, past, tr);
    }
  }
}
