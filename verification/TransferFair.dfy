/** Every run in which nothing goes wrong and no thread or datagram is neglected for ever
    completes: not some schedule but all fair ones. */
module TransferFair {
  import opened Blocks
  import opened LossTracker
  import opened Prelude
  import opened TransferModel
  import opened TransferInvariant
  import opened TransferPolicy
  import opened TransferSafety
  import opened TransferTheorems
  import opened TransferProgress

  // ---- fair runs ----

  /** Who must not be neglected: each thread, and each datagram on its way. */
  datatype Duty =
    Prefetching | PacingOn | Listening | Ingesting(w: nat) | FlushingOut | Reporting | Carrying(p: Packet)

  predicate InDuty(du: Duty, st: Step) {
    match du
    case Prefetching => PrefetchStep(st)
    case PacingOn => BuildStep(st) || st.FlushBatch? || st.AnnounceFin?
    case Listening => st.InPush? || st.InDone?
    case Ingesting(w) => st == Work(w)
    case FlushingOut => st.Flush?
    case Reporting => st.Tick? || st.Fb? || st.FbPeer?
    case Carrying(p) => st == InRecv(p) || (st.Deliver? && st.p == p)
  }

  /** Nothing goes wrong, and source addresses are known. */
  predicate Clean(st: Step) {
    Smooth(st) && (st.Deliver? ==> st.parsed)
  }

  ghost predicate CanMove(c: Config, s: State, du: Duty) {
    exists st :: InDuty(du, st) && Clean(st) && Enabled(c, s, st)
  }

  /** A run without end; `None` is a moment in which nothing happens. */
  datatype Trace = Trace(state: nat -> State, step: nat -> Option<Step>)

  function Past(past: seq<Step>, tr: Trace, n: nat): seq<Step> {
    if n == 0 then past
    else match tr.step(n - 1)
      case None => Past(past, tr, n - 1)
      case Some(st) => Past(past, tr, n - 1) + [st]
  }

  predicate Moves(c: Config, e: Policy, past: seq<Step>, tr: Trace, n: nat) {
    match tr.step(n)
    case None => tr.state(n + 1) == tr.state(n)
    case Some(st) =>
      && Enabled(c, tr.state(n), st) && Clean(st) && Obeys(c, e, Past(past, tr, n), tr.state(n), st)
      && tr.state(n + 1) == Apply(c, tr.state(n), st)
  }

  /** After the steps of `past`, the policy's own run goes on like this. */
  ghost predicate IsRun(c: Config, e: Policy, past: seq<Step>, tr: Trace) {
    forall n: nat :: Moves(c, e, past, tr, n)
  }

  predicate Does(tr: Trace, n: nat, du: Duty) {
    tr.step(n).Some? && InDuty(du, tr.step(n).value)
  }

  ghost predicate Able(c: Config, tr: Trace, n: nat, du: Duty) {
    CanMove(c, tr.state(n), du)
  }

  ghost predicate AbleFrom(c: Config, tr: Trace, n: nat, du: Duty) {
    forall m: nat :: m >= n ==> Able(c, tr, m, du)
  }

  ghost predicate AbleAgain(c: Config, tr: Trace, n: nat, du: Duty) {
    exists m: nat :: m >= n && Able(c, tr, m, du)
  }

  ghost predicate DoesAgain(tr: Trace, n: nat, du: Duty) {
    exists m: nat :: m >= n && Does(tr, m, du)
  }

  /** A thread that could go on from some moment for ever does go on. */
  ghost predicate Weak(c: Config, tr: Trace, du: Duty) {
    forall n: nat :: AbleFrom(c, tr, n, du) ==> DoesAgain(tr, n, du)
  }

  /** A datagram that could be taken in again and again is taken in. */
  ghost predicate Strong(c: Config, tr: Trace, du: Duty) {
    (forall n: nat :: AbleAgain(c, tr, n, du)) ==> forall n: nat :: DoesAgain(tr, n, du)
  }

  ghost predicate Served(c: Config, tr: Trace, du: Duty) {
    if du.Carrying? then Strong(c, tr, du) else Weak(c, tr, du)
  }

  ghost predicate Fair(c: Config, tr: Trace) {
    forall du: Duty :: Served(c, tr, du)
  }

  // ---- waiting for a thread ----

  lemma {:induction false} HoldsTo(tr: Trace, P: nat -> bool, du: Duty, n: nat, m: nat)
    requires n <= m && P(n)
    requires forall j: nat :: j >= n && P(j) && !Does(tr, j, du) ==> P(j + 1)
    requires forall j: nat :: n <= j < m ==> !Does(tr, j, du)
    ensures P(m)
    decreases m
  {
    if n < m {
      HoldsTo(tr, P, du, n, m - 1);
      assert P(m - 1) && !Does(tr, m - 1, du);
    }
  }

  lemma {:induction false} FirstTime(tr: Trace, du: Duty, n: nat, k: nat) returns (m: nat)
    requires n <= k && Does(tr, k, du)
    ensures n <= m <= k && Does(tr, m, du) && forall j: nat :: n <= j < m ==> !Does(tr, j, du)
    decreases k
  {
    m := k;
    if j: nat :| n <= j < k && Does(tr, j, du) {
      m := FirstTime(tr, du, n, j);
    }
  }

  /** What holds until a thread moves, and lets it move, holds when it does move. */
  lemma Await(c: Config, tr: Trace, P: nat -> bool, du: Duty, n: nat) returns (m: nat)
    requires Weak(c, tr, du) && P(n)
    requires forall j: nat :: j >= n && P(j) && !Does(tr, j, du) ==> P(j + 1)
    requires forall j: nat :: j >= n && P(j) ==> Able(c, tr, j, du)
    ensures m >= n && P(m) && Does(tr, m, du)
  {
    hide Does, Able;
    if !DoesAgain(tr, n, du) {
      forall j: nat | j >= n
        ensures Able(c, tr, j, du)
      {
        HoldsTo(tr, P, du, n, j);
      }
    }
    var k: nat :| k >= n && Does(tr, k, du);
    m := FirstTime(tr, du, n, k);
    HoldsTo(tr, P, du, n, m);
  }

  // ---- levels that settle ----

  lemma {:induction false} Climbs(f: nat -> nat, n: nat, m: nat)
    requires n <= m && forall j: nat :: j >= n ==> f(j) <= f(j + 1)
    ensures f(n) <= f(m)
    decreases m
  {
    if n < m {
      Climbs(f, n, m - 1);
      assert f(m - 1) <= f(m - 1 + 1);
    }
  }

  /** What never falls and never exceeds a bound is constant from some time on. */
  lemma {:induction false} Settles(f: nat -> nat, bound: nat, n: nat) returns (N: nat)
    requires forall j: nat :: j >= n ==> f(j) <= f(j + 1)
    requires forall j: nat :: j >= n ==> f(j) <= bound
    ensures N >= n && forall j: nat :: j >= N ==> f(j) == f(N)
    decreases bound - f(n)
  {
    N := n;
    if m: nat :| m >= n && f(m) > f(n) {
      N := Settles(f, bound, m);
    } else {
      forall j: nat | j >= n
        ensures f(j) == f(n)
      {
        Climbs(f, n, j);
      }
    }
  }

  lemma {:induction false} Descends(f: nat -> nat, n: nat, m: nat)
    requires n <= m && forall j: nat :: j >= n ==> f(j + 1) <= f(j)
    ensures f(m) <= f(n)
    decreases m
  {
    if n < m {
      Descends(f, n, m - 1);
      assert f(m - 1 + 1) <= f(m - 1);
    }
  }

  lemma {:induction false} SettlesDown(f: nat -> nat, n: nat) returns (N: nat)
    requires forall j: nat :: j >= n ==> f(j + 1) <= f(j)
    ensures N >= n && forall j: nat :: j >= N ==> f(j) == f(N)
    decreases f(n)
  {
    N := n;
    if m: nat :| m >= n && f(m) < f(n) {
      N := SettlesDown(f, m);
    } else {
      forall j: nat | j >= n
        ensures f(j) == f(n)
      {
        Descends(f, n, j);
      }
    }
  }

  // ---- a run that never completes ----

  /** Reports are no longer than the policy's cap and name no block twice. */
  predicate Tidy(c: Config, b: Feedbacker) {
    b.rto >= 0.0 && (b.pc.Collecting? || b.pc.Sending? ==> Once(b) && b.cap <= c.maxNacks)
  }

  ghost predicate Fit(c: Config, s: State) {
    Good(c, s) && !Complete(c, s) && Tidy(c, s.fb)
  }

  ghost predicate Moment(c: Config, e: Policy, past: seq<Step>, tr: Trace, n: nat) {
    Moves(c, e, past, tr, n) && Fit(c, tr.state(n))
  }

  ghost predicate Stalls(c: Config, e: Policy, past: seq<Step>, tr: Trace) {
    ReportsFit(c) && Fair(c, tr) && forall n: nat :: Moment(c, e, past, tr, n)
  }

  lemma TidyReport(c: Config, s: State, st: Step)
    requires FbEnabled(c, s, st) && Tidy(c, s.fb) && !s.fb.pc.Collecting?
    requires !(st.Fb? && Looking(s.fb.pc))
    ensures Tidy(c, FbApply(c, s, st).fb)
  {
    hide Look, Collect, Total;
  }

  lemma TidyStep(c: Config, s: State, st: Step)
    requires Inv(c, s) && Tidy(c, s.fb) && Enabled(c, s, st)
    ensures Tidy(c, Apply(c, s, st).fb)
  {
    hide Inv, Tidy, FbApply, Look, Collect, Apply, Enabled, Agrees;
    OwnParts(c, s, st);
    if ActorOf(st).TheReporter? {
      FbIsApply(c, s, st);
      if st.Fb? && Looking(s.fb.pc) {
        LookShape(c, s);
        LookFrame(c, s.rcv, s.fb);
        TidyLook(c, s.fb, Look(c, s.rcv, s.fb));
      } else if s.fb.pc.Collecting? {
        ScanBounds(c, s);
        OneEntries(s.fb.sc, s.rcv.bm, Scanned(s.fb));
        TidyCollect(c, s, st);
      } else {
        TidyReport(c, s, st);
      }
    }
  }

  lemma TidyLook(c: Config, b: Feedbacker, e: Feedbacker)
    requires Tidy(c, b) && e.rto == b.rto && !e.pc.Collecting? && !e.pc.Sending?
    ensures Tidy(c, e)
  {
  }

  lemma TidyCollect(c: Config, s: State, st: Step)
    requires FbEnabled(c, s, st) && s.fb.pc.Collecting? && Tidy(c, s.fb) && OneEntryEach(s.fb.sc.heap)
    ensures Tidy(c, FbApply(c, s, st).fb)
  {
    hide Collect, OneEntryEach, Once;
    CollectOnce(s.fb, s.rcv.bm);
    CollectFrame(s.fb, s.rcv.bm);
  }

  lemma {:induction false} TidyRun(c: Config, s: State, steps: seq<Step>, t: State)
    requires Inv(c, s) && Tidy(c, s.fb) && Runs(c, s, steps, t)
    ensures Tidy(c, t.fb)
    decreases |steps|
  {
    hide Inv, Enabled, Apply, Tidy;
    if steps != [] {
      StepKeeps(c, s, steps[0]);
      TidyStep(c, s, steps[0]);
      TidyRun(c, Apply(c, s, steps[0]), steps[1..], t);
    }
  }

  lemma TidyStart(c: Config, s: State)
    requires Init(c, s)
    ensures Tidy(c, s.fb)
  {
  }

  /** What is known of one moment of such a run. */
  lemma Here(c: Config, e: Policy, past: seq<Step>, tr: Trace, n: nat)
    requires Stalls(c, e, past, tr)
    ensures Fit(c, tr.state(n)) && Fit(c, tr.state(n + 1))
    ensures tr.step(n).None? ==> tr.state(n + 1) == tr.state(n)
    ensures tr.step(n).Some? ==> var st := tr.step(n).value;
      && Enabled(c, tr.state(n), st) && Clean(st) && tr.state(n + 1) == Apply(c, tr.state(n), st)
      && (st.Tick? ==> st.now > tr.state(n).fb.now)
  {
    hide Fit, Fair, Enabled, Apply;
    assert Moment(c, e, past, tr, n) && Moment(c, e, past, tr, n + 1);
  }

  lemma ThreadsFair(c: Config, e: Policy, past: seq<Step>, tr: Trace, du: Duty)
    requires Stalls(c, e, past, tr) && !du.Carrying?
    ensures Weak(c, tr, du)
  {
    hide Moment, Weak, Strong;
    assert Served(c, tr, du);
  }

  lemma MayMove(c: Config, s: State, du: Duty, st: Step)
    requires InDuty(du, st) && Clean(st) && Enabled(c, s, st)
    ensures CanMove(c, s, du)
  {
    hide InDuty, Clean, Enabled;
  }

  // ---- workers ----

  lemma WorkerRests(c: Config, s: State, st: Step, w: nat)
    requires Enabled(c, s, st) && Clean(st) && w < |s.wk| && !s.wk[w].Idle? && st != Work(w)
    ensures var t := Apply(c, s, st); |t.wk| == |s.wk| && t.wk[w] == s.wk[w]
  {
    hide SenderApply, WorkApply, DeliverApply, FlushApply, FbApply, SenderEnabled, FbEnabled;
    match ActorOf(st)
    case TheSender => SenderShape(c, s, st);
    case TheNetwork =>
    case TheReporter => FeedbackShape(c, s, st);
    case TheFlusher => FlushShape(c, s);
    case TheWorkers =>
      if st.Work? {
        WorkShape(c, s, st.w);
      } else {
        DeliverShape(c, s, st.w, st.p, st.parsed);
      }
  }

  predicate WorkerIs(s: State, w: nat, k: Worker) {
    w < |s.wk| && s.wk[w] == k
  }

  lemma WorkerAble(c: Config, s: State, w: nat)
    requires w < |s.wk| && !s.wk[w].Idle?
    ensures CanMove(c, s, Ingesting(w))
  {
    MayMove(c, s, Ingesting(w), Work(w));
  }

  /** A worker with something in hand goes on with it. */
  lemma WorkerMoves(c: Config, e: Policy, past: seq<Step>, tr: Trace, w: nat, n: nat) returns (m: nat)
    requires Stalls(c, e, past, tr) && w < |tr.state(n).wk| && !tr.state(n).wk[w].Idle?
    ensures m >= n && WorkerIs(tr.state(m), w, tr.state(n).wk[w]) && tr.step(m) == Some(Work(w))
    ensures tr.state(m + 1) == WorkApply(c, tr.state(m), w)
  {
    hide Stalls, Weak, Enabled, WorkApply, CanMove, Fit, Clean;
    var k, P := tr.state(n).wk[w], (j: nat) => WorkerIs(tr.state(j), w, tr.state(n).wk[w]);
    forall j: nat | j >= n && P(j)
      ensures Able(c, tr, j, Ingesting(w)) && (!Does(tr, j, Ingesting(w)) ==> P(j + 1))
    {
      WorkerAble(c, tr.state(j), w);
      Here(c, e, past, tr, j);
      if !Does(tr, j, Ingesting(w)) && tr.step(j).Some? {
        WorkerRests(c, tr.state(j), tr.step(j).value, w);
      }
    }
    ThreadsFair(c, e, past, tr, Ingesting(w));
    m := Await(c, tr, P, Ingesting(w), n);
    Here(c, e, past, tr, m);
  }

  /** Every worker is idle again and again. */
  lemma {:induction false} IdleAgain(c: Config, e: Policy, past: seq<Step>, tr: Trace, w: nat, n: nat) returns (m: nat)
    requires Stalls(c, e, past, tr) && w < |tr.state(n).wk|
    ensures m >= n && WorkerIs(tr.state(m), w, Idle)
    decreases WorkLeft(tr.state(n).wk[w])
  {
    hide Stalls, WorkApply;
    m := n;
    if !tr.state(n).wk[w].Idle? {
      var k := WorkerMoves(c, e, past, tr, w, n);
      WorkStep(c, tr.state(k), w);
      m := IdleAgain(c, e, past, tr, w, k + 1);
    }
  }

  predicate OnItsWay(w: Worker, x: nat) {
    (w.Fresh? || w.Seen? || w.Raised?) && w.sn == x
  }

  /** A block that a worker holds is accepted. */
  lemma {:induction false} HeldArrives(c: Config, e: Policy, past: seq<Step>, tr: Trace, w: nat, x: nat, n: nat)
    returns (m: nat)
    requires Stalls(c, e, past, tr) && w < |tr.state(n).wk| && OnItsWay(tr.state(n).wk[w], x)
    ensures m >= n && x in tr.state(m).rcv.bm
    decreases WorkLeft(tr.state(n).wk[w])
  {
    hide Stalls, WorkApply;
    var k := WorkerMoves(c, e, past, tr, w, n);
    WorkStep(c, tr.state(k), w);
    m := k + 1;
    if x !in tr.state(m).rcv.bm {
      m := HeldArrives(c, e, past, tr, w, x, k + 1);
    }
  }

  /** A block that was accepted becomes ready. */
  lemma {:induction false} OwnedReady(c: Config, e: Policy, past: seq<Step>, tr: Trace, w: nat, x: nat, n: nat)
    returns (m: nat)
    requires Stalls(c, e, past, tr)
    requires w < |tr.state(n).wk| && Owns(tr.state(n).wk[w]) && tr.state(n).wk[w].sn == x
    ensures m >= n && x in tr.state(m).rcv.ready
    decreases WorkLeft(tr.state(n).wk[w])
  {
    hide Stalls, WorkApply;
    var k := WorkerMoves(c, e, past, tr, w, n);
    WorkStep(c, tr.state(k), w);
    OwnerMoves(c, tr.state(k), w);
    m := k + 1;
    if x !in tr.state(m).rcv.ready {
      m := OwnedReady(c, e, past, tr, w, x, k + 1);
    }
  }

  lemma OwnerMoves(c: Config, s: State, w: nat)
    requires w < |s.wk| && Owns(s.wk[w])
    ensures var t := WorkApply(c, s, w);
      |t.wk| == |s.wk| && (s.wk[w].sn in t.rcv.ready || (Owns(t.wk[w]) && t.wk[w].sn == s.wk[w].sn))
  {
    hide WriteAt;
  }

  // ---- datagrams ----

  lemma PacketWaits(c: Config, s: State, st: Step, p: Packet)
    requires Enabled(c, s, st) && Clean(st) && !InDuty(Carrying(p), st) && p in s.net
    ensures p in Apply(c, s, st).net
  {
    hide WorkApply, DeliverApply, FlushApply, FbApply, SenderApply, SenderEnabled, FbEnabled;
    match ActorOf(st)
    case TheSender => SenderLeaves(c, s, st, p);
    case TheNetwork =>
    case TheReporter => FeedbackShape(c, s, st);
    case TheFlusher => FlushShape(c, s);
    case TheWorkers =>
      if st.Work? {
        WorkShape(c, s, st.w);
      } else {
        DeliverLeaves(c, s, st.w, st.p, st.parsed);
      }
  }

  lemma SenderLeaves(c: Config, s: State, st: Step, p: Packet)
    requires SenderEnabled(c, s, st) && st != InRecv(p) && p in s.net
    ensures p in SenderApply(c, s, st).net
  {
    hide BuildApply, PrefetchApply, Total, Audible;
  }

  lemma DeliverLeaves(c: Config, s: State, w: nat, p: Packet, parsed: bool)
    requires w < |s.wk| && !p.Feedback?
    ensures DeliverApply(c, s, w, p, parsed).net == s.net - multiset{p}
  {
  }

  /** What is on its way stays so until it is taken in. */
  lemma Carried(c: Config, e: Policy, past: seq<Step>, tr: Trace, p: Packet, n: nat, m: nat)
    requires Stalls(c, e, past, tr) && p in tr.state(n).net && n <= m
    requires forall j: nat :: n <= j < m ==> !Does(tr, j, Carrying(p))
    ensures p in tr.state(m).net
  {
    hide Stalls, Fit, Enabled, Apply, Clean;
    var P := (j: nat) => p in tr.state(j).net;
    forall j: nat | j >= n && P(j) && !Does(tr, j, Carrying(p))
      ensures P(j + 1)
    {
      Here(c, e, past, tr, j);
      if tr.step(j).Some? {
        PacketWaits(c, tr.state(j), tr.step(j).value, p);
      }
    }
    HoldsTo(tr, P, Carrying(p), n, m);
  }

  lemma CarriersFair(c: Config, e: Policy, past: seq<Step>, tr: Trace, p: Packet)
    requires Stalls(c, e, past, tr)
    ensures Strong(c, tr, Carrying(p))
  {
    hide Moment, Weak, Strong;
    assert Served(c, tr, Carrying(p));
  }

  /** If it could be taken in again and again while it is on its way, it is taken in. */
  lemma TakenOnce(c: Config, e: Policy, past: seq<Step>, tr: Trace, p: Packet, n: nat) returns (m: nat)
    requires Stalls(c, e, past, tr) && p in tr.state(n).net
    requires (forall j: nat :: j >= n ==> p in tr.state(j).net) ==> forall k: nat :: AbleAgain(c, tr, k, Carrying(p))
    ensures m >= n && p in tr.state(m).net && Does(tr, m, Carrying(p))
  {
    hide Stalls, Does, AbleAgain;
    if !DoesAgain(tr, n, Carrying(p)) {
      forall j: nat | j >= n
        ensures p in tr.state(j).net
      {
        Carried(c, e, past, tr, p, n, j);
      }
      CarriersFair(c, e, past, tr, p);
    }
    var k: nat :| k >= n && Does(tr, k, Carrying(p));
    m := FirstTime(tr, Carrying(p), n, k);
    Carried(c, e, past, tr, p, n, m);
  }

  lemma DeliverAble(c: Config, s: State, p: Packet)
    requires p in s.net && !p.Feedback? && WorkerIs(s, 0, Idle)
    ensures CanMove(c, s, Carrying(p))
  {
    MayMove(c, s, Carrying(p), Deliver(0, p, true));
  }

  lemma WorkerThere(c: Config, s: State)
    requires Fit(c, s)
    ensures |s.wk| > 0 && (s.rcv.peer.Some? ==> s.rcv.peer.value == c.sender)
  {
    hide Good, Tidy;
    WorkerFacts(c, s);
  }

  lemma Delivered(c: Config, e: Policy, past: seq<Step>, tr: Trace, p: Packet, n: nat) returns (m: nat, w: nat)
    requires Stalls(c, e, past, tr) && p in tr.state(n).net && !p.Feedback?
    ensures m >= n && w < |tr.state(m).wk| && tr.state(m).wk[w].Idle?
    ensures tr.state(m + 1) == DeliverApply(c, tr.state(m), w, p, true)
  {
    hide Stalls, Fit, CanMove, DeliverApply, Enabled, Apply, Clean;
    if forall j: nat :: j >= n ==> p in tr.state(j).net {
      forall k: nat
        ensures AbleAgain(c, tr, k, Carrying(p))
      {
        var from := if k >= n then k else n;
        Here(c, e, past, tr, from);
        WorkerThere(c, tr.state(from));
        var i := IdleAgain(c, e, past, tr, 0, from);
        DeliverAble(c, tr.state(i), p);
        assert Able(c, tr, i, Carrying(p));
      }
    }
    m := TakenOnce(c, e, past, tr, p, n);
    Here(c, e, past, tr, m);
    w := NowDelivered(c, tr.state(m), tr.step(m).value, p);
  }

  lemma NowDelivered(c: Config, s: State, st: Step, p: Packet) returns (w: nat)
    requires Enabled(c, s, st) && Clean(st) && InDuty(Carrying(p), st) && !p.Feedback?
    ensures w < |s.wk| && s.wk[w].Idle? && Apply(c, s, st) == DeliverApply(c, s, w, p, true)
  {
    hide DeliverApply;
    w := st.w;
  }

  lemma DataTaken(c: Config, s: State, w: nat, x: nat)
    requires w < |s.wk| && x < Total(c) && (s.rcv.peer.Some? ==> s.rcv.peer.value == c.sender)
    ensures var t := DeliverApply(c, s, w, DataPdu(c, x), true); |t.wk| == |s.wk| && OnItsWay(t.wk[w], x)
  {
  }

  /** A block on its way arrives. */
  lemma DataArrives(c: Config, e: Policy, past: seq<Step>, tr: Trace, x: nat, n: nat) returns (m: nat)
    requires Stalls(c, e, past, tr) && x < Total(c) && DataPdu(c, x) in tr.state(n).net
    ensures m >= n && x in tr.state(m).rcv.bm
  {
    hide Stalls, Fit, DeliverApply, Total, OnItsWay;
    var k, w := Delivered(c, e, past, tr, DataPdu(c, x), n);
    Here(c, e, past, tr, k);
    WorkerThere(c, tr.state(k));
    DataTaken(c, tr.state(k), w, x);
    m := HeldArrives(c, e, past, tr, w, x, k + 1);
  }

  lemma FinHeard(c: Config, s: State, w: nat)
    requires w < |s.wk| && (s.rcv.peer.Some? ==> s.rcv.peer.value == c.sender)
    ensures var t := DeliverApply(c, s, w, TheFin(c), true); |t.wk| == |s.wk| && t.wk[w] == FinSeen
  {
  }

  /** FIN on its way is heard. */
  lemma FinArrives(c: Config, e: Policy, past: seq<Step>, tr: Trace, n: nat) returns (m: nat)
    requires Stalls(c, e, past, tr) && TheFin(c) in tr.state(n).net
    ensures m >= n && tr.state(m).rcv.allSent
  {
    hide Stalls, Fit, DeliverApply, WorkApply, Total;
    var k, w := Delivered(c, e, past, tr, TheFin(c), n);
    Here(c, e, past, tr, k);
    WorkerThere(c, tr.state(k));
    FinHeard(c, tr.state(k), w);
    var i := WorkerMoves(c, e, past, tr, w, k + 1);
    WorkStep(c, tr.state(i), w);
    m := i + 1;
  }

  // ---- the sender's listener ----

  lemma ListenerRests(c: Config, s: State, st: Step)
    requires Enabled(c, s, st) && !s.snd.inbox.Waiting? && !InDuty(Listening, st)
    ensures Apply(c, s, st).snd.inbox == s.snd.inbox
  {
    hide Apply, Enabled, SenderApply, SenderEnabled, PrefetchApply, BuildApply;
    if ActorOf(st).TheSender? {
      SenderMove(c, s, st);
      SenderFrames(c, s, st);
    } else {
      OwnParts(c, s, st);
    }
  }

  lemma ListenerAble(c: Config, s: State)
    requires !s.snd.inbox.Waiting?
    ensures CanMove(c, s, Listening)
  {
    MayMove(c, s, Listening, if s.snd.inbox.Got? then InPush else InDone);
  }

  lemma ListenerMoves(c: Config, e: Policy, past: seq<Step>, tr: Trace, n: nat) returns (m: nat)
    requires Stalls(c, e, past, tr) && !tr.state(n).snd.inbox.Waiting?
    ensures m >= n && tr.state(m).snd.inbox == tr.state(n).snd.inbox
    ensures var st := if tr.state(n).snd.inbox.Got? then InPush else InDone;
      SenderEnabled(c, tr.state(m), st) && tr.state(m + 1) == SenderApply(c, tr.state(m), st)
  {
    hide Stalls, Weak, SenderApply, SenderEnabled, Enabled, Apply, CanMove, Fit, Clean;
    var P := (j: nat) => tr.state(j).snd.inbox == tr.state(n).snd.inbox;
    forall j: nat | j >= n && P(j)
      ensures Able(c, tr, j, Listening) && (!Does(tr, j, Listening) ==> P(j + 1))
    {
      ListenerAble(c, tr.state(j));
      Here(c, e, past, tr, j);
      if !Does(tr, j, Listening) && tr.step(j).Some? {
        ListenerRests(c, tr.state(j), tr.step(j).value);
      }
    }
    ThreadsFair(c, e, past, tr, Listening);
    m := Await(c, tr, P, Listening, n);
    Here(c, e, past, tr, m);
    SenderMove(c, tr.state(m), tr.step(m).value);
    ListenOnly(c, tr.state(m), tr.step(m).value);
  }

  lemma ListenOnly(c: Config, s: State, st: Step)
    requires SenderEnabled(c, s, st) && InDuty(Listening, st)
    ensures st == if s.snd.inbox.Got? then InPush else InDone
  {
  }

  lemma ListenerDone(c: Config, s: State, st: Step)
    requires SenderEnabled(c, s, st) && (st.InPush? || st.InDone?)
    ensures var d := SenderApply(c, s, st).snd;
      && (st.InPush? ==> d.inbox.Pushed? && d.rex == s.snd.rex + (set x | x in s.snd.inbox.nacks))
      && (st.InDone? ==> d.inbox.Waiting?)
  {
  }

  /** The listener is back at its socket again and again. */
  lemma WaitingAgain(c: Config, e: Policy, past: seq<Step>, tr: Trace, n: nat) returns (m: nat)
    requires Stalls(c, e, past, tr)
    ensures m >= n && tr.state(m).snd.inbox.Waiting?
  {
    hide Stalls, SenderApply, SenderEnabled;
    m := n;
    if tr.state(m).snd.inbox.Got? {
      var k := ListenerMoves(c, e, past, tr, m);
      ListenerDone(c, tr.state(k), InPush);
      m := k + 1;
    }
    if tr.state(m).snd.inbox.Pushed? {
      var k := ListenerMoves(c, e, past, tr, m);
      ListenerDone(c, tr.state(k), InDone);
      m := k + 1;
    }
  }

  lemma NotYetDone(c: Config, s: State)
    requires Fit(c, s)
    ensures !s.snd.done && !s.snd.pacing.Left?
  {
    hide Good, Tidy, SendInv, AskedInv;
    SenderFacts(c, s);
  }

  lemma HearAble(c: Config, s: State, p: Packet)
    requires Fit(c, s) && p in s.net && p.Feedback? && s.snd.inbox.Waiting?
    ensures CanMove(c, s, Carrying(p))
  {
    hide Fit;
    NotYetDone(c, s);
    MayMove(c, s, Carrying(p), InRecv(p));
  }

  lemma NowListening(c: Config, s: State, st: Step, p: Packet)
    requires Enabled(c, s, st) && InDuty(Carrying(p), st) && p.Feedback?
    ensures SenderEnabled(c, s, InRecv(p)) && Apply(c, s, st) == SenderApply(c, s, InRecv(p))
  {
    hide SenderApply, SenderEnabled, IngestApply, PrefetchStep, BuildStep;
    assert st == InRecv(p);
  }

  lemma ReportTaken(c: Config, s: State, p: Packet)
    requires SenderEnabled(c, s, InRecv(p)) && Audible(c, p)
    ensures SenderApply(c, s, InRecv(p)).snd.inbox == Got(p.nacks, p.done)
  {
  }

  lemma HearableAgain(c: Config, e: Policy, past: seq<Step>, tr: Trace, p: Packet, n: nat, k: nat)
    requires Stalls(c, e, past, tr) && p.Feedback?
    requires forall j: nat :: j >= n ==> p in tr.state(j).net
    ensures AbleAgain(c, tr, k, Carrying(p))
  {
    hide Stalls, Fit, CanMove, Enabled, Apply, Clean;
    var i := WaitingAgain(c, e, past, tr, if k >= n then k else n);
    Here(c, e, past, tr, i);
    HearAble(c, tr.state(i), p);
    assert Able(c, tr, i, Carrying(p));
  }

  /** A report that can be heard is heard: what it asks for is queued. */
  lemma ReportHeard(c: Config, e: Policy, past: seq<Step>, tr: Trace, p: Packet, n: nat) returns (m: nat)
    requires Stalls(c, e, past, tr) && p in tr.state(n).net && p.Feedback? && Audible(c, p)
    ensures m >= n && forall x :: x in p.nacks ==> x in tr.state(m).snd.rex
  {
    hide Stalls, Fit, AbleAgain, SenderApply, SenderEnabled, Enabled, Apply, Clean, Audible;
    if forall j: nat :: j >= n ==> p in tr.state(j).net {
      forall k: nat
        ensures AbleAgain(c, tr, k, Carrying(p))
      {
        HearableAgain(c, e, past, tr, p, n, k);
      }
    }
    var k := TakenOnce(c, e, past, tr, p, n);
    Here(c, e, past, tr, k);
    NowListening(c, tr.state(k), tr.step(k).value, p);
    ReportTaken(c, tr.state(k), p);
    var i := ListenerMoves(c, e, past, tr, k + 1);
    ListenerDone(c, tr.state(i), InPush);
    m := i + 1;
  }

  // ---- the pacing loop ----

  /** What only the pacing loop changes. */
  datatype PacePart = PacePart(
    pacing: Pacing, toSend: nat, built: nat, batch: seq<Packet>, brandNew: nat, used: nat, injected: nat, newDone: bool)

  function PaceOf(d: Sender): PacePart {
    PacePart(d.pacing, d.toSend, d.built, d.batch, d.brandNew, d.used, d.injected, d.newDone)
  }

  lemma PacerRests(c: Config, s: State, st: Step)
    requires Enabled(c, s, st) && !InDuty(PacingOn, st)
    ensures PaceOf(Apply(c, s, st).snd) == PaceOf(s.snd)
  {
    hide Apply, Enabled, SenderApply, SenderEnabled, PrefetchApply, BuildApply;
    if ActorOf(st).TheSender? {
      SenderMove(c, s, st);
      SenderFrames(c, s, st);
    } else {
      OwnParts(c, s, st);
    }
  }

  lemma SenderMove(c: Config, s: State, st: Step)
    requires Enabled(c, s, st) && ActorOf(st).TheSender?
    ensures SenderEnabled(c, s, st) && Apply(c, s, st) == SenderApply(c, s, st)
  {
    hide SenderApply, SenderEnabled;
  }

  lemma PacerAble(c: Config, s: State)
    requires Fit(c, s)
    ensures CanMove(c, s, PacingOn)
  {
    hide Good, Tidy, SenderEnabled, SenderApply, Shortens, Complete;
    NotYetDone(c, s);
    SenderFacts(c, s);
    if s.snd.pacing.AtTop? {
      TopAble(c, s);
      MayMove(c, s, PacingOn, PaceTop(1));
    } else {
      PaceMoves(c, s);
      PaceDuty(s.snd);
      MayMove(c, s, PacingOn, PaceStep(s.snd));
    }
  }

  lemma TopAble(c: Config, s: State)
    requires s.snd.pacing.AtTop? && !s.snd.done
    ensures SenderEnabled(c, s, PaceTop(1))
  {
  }

  lemma PaceDuty(d: Sender)
    requires !d.pacing.AtTop?
    ensures InDuty(PacingOn, PaceStep(d)) && Clean(PaceStep(d)) && ActorOf(PaceStep(d)).TheSender?
  {
  }

  /** In a run without mishap the loop takes the one step it can. */
  lemma PaceOnly(c: Config, s: State, st: Step)
    requires SenderEnabled(c, s, st) && InDuty(PacingOn, st) && Clean(st) && !s.snd.done
    ensures if s.snd.pacing.AtTop? then st.PaceTop? else st == PaceStep(s.snd)
  {
  }

  lemma PacerMoves(c: Config, e: Policy, past: seq<Step>, tr: Trace, n: nat) returns (m: nat, st: Step)
    requires Stalls(c, e, past, tr)
    ensures m >= n && PaceOf(tr.state(m).snd) == PaceOf(tr.state(n).snd)
    ensures SenderEnabled(c, tr.state(m), st) && tr.state(m + 1) == SenderApply(c, tr.state(m), st)
    ensures if tr.state(m).snd.pacing.AtTop? then st.PaceTop? else st == PaceStep(tr.state(m).snd)
    ensures tr.step(m) == Some(st)
  {
    hide Stalls, Weak, SenderApply, SenderEnabled, CanMove, Fit, PaceOf, PaceStep;
    var P := (j: nat) => PaceOf(tr.state(j).snd) == PaceOf(tr.state(n).snd);
    forall j: nat | j >= n && P(j)
      ensures Able(c, tr, j, PacingOn) && (!Does(tr, j, PacingOn) ==> P(j + 1))
    {
      Here(c, e, past, tr, j);
      PacerAble(c, tr.state(j));
      if !Does(tr, j, PacingOn) && tr.step(j).Some? {
        PacerRests(c, tr.state(j), tr.step(j).value);
      }
    }
    ThreadsFair(c, e, past, tr, PacingOn);
    m := Await(c, tr, P, PacingOn, n);
    st := tr.step(m).value;
    Here(c, e, past, tr, m);
    NotYetDone(c, tr.state(m));
    PaceOnly(c, tr.state(m), st);
  }

  function Room(d: Sender): nat {
    if d.built < d.toSend then d.toSend - d.built else 0
  }

  /** Each step below the top brings the end of the batch nearer. */
  predicate Nearer(d: Sender, e: Sender) {
    || Room(e) < Room(d)
    || (Room(e) == Room(d) && d.newDone == e.newDone && Cycle(e.pacing) < Cycle(d.pacing))
    || (Room(e) == Room(d) && !d.newDone && e.newDone)
  }

  lemma BuildNearer(c: Config, d: Sender)
    requires (d.pacing.Building? || d.pacing.TryNew?) && (forall x :: x in d.rex ==> x < Total(c))
    requires d.pacing.TryNew? ==> d.built < d.toSend
    ensures BuildEnabled(d, PaceStep(d)) && Nearer(d, BuildApply(c, d, PaceStep(d)))
  {
    hide DataPdu, Total;
  }

  lemma TailNearer(c: Config, s: State)
    requires SenderEnabled(c, s, PaceStep(s.snd))
    requires s.snd.pacing.Flushing? || s.snd.pacing.Returning? || s.snd.pacing.FinCheck?
    ensures Nearer(s.snd, SenderApply(c, s, PaceStep(s.snd)).snd)
  {
    hide Total;
  }

  lemma AskedInFile(c: Config, s: State)
    requires Fit(c, s)
    ensures SendInv(c, s.snd) && forall x :: x in s.snd.rex ==> x < Total(c)
    ensures s.snd.pacing.TryNew? ==> s.snd.built < s.snd.toSend
  {
    assert SendInv(c, s.snd) ==> (s.snd.pacing.TryNew? ==> s.snd.built < s.snd.toSend);
    hide Inv, SendInv, Tidy;
    InboxFacts(c, s);
  }

  lemma PaceNearer(c: Config, s: State)
    requires Fit(c, s) && !s.snd.pacing.AtTop? && SenderEnabled(c, s, PaceStep(s.snd))
    ensures Nearer(s.snd, SenderApply(c, s, PaceStep(s.snd)).snd)
  {
    hide Fit, Nearer, BuildApply, SendInv, Total;
    NotYetDone(c, s);
    AskedInFile(c, s);
    if s.snd.pacing.Building? || s.snd.pacing.TryNew? {
      BuildNearer(c, s.snd);
    } else {
      TailNearer(c, s);
    }
  }

  /** The loop comes round to its top again and again. */
  lemma {:induction false} TopAgain(c: Config, e: Policy, past: seq<Step>, tr: Trace, n: nat) returns (m: nat)
    requires Stalls(c, e, past, tr)
    ensures m >= n && tr.state(m).snd.pacing.AtTop?
    decreases Room(tr.state(n).snd), !tr.state(n).snd.newDone, Cycle(tr.state(n).snd.pacing)
  {
    hide Stalls, Fit, SenderApply, SenderEnabled, PaceStep, Cycle;
    m := n;
    if !tr.state(n).snd.pacing.AtTop? {
      var k, st := PacerMoves(c, e, past, tr, n);
      Here(c, e, past, tr, k);
      PaceNearer(c, tr.state(k));
      m := TopAgain(c, e, past, tr, k + 1);
    }
  }

  lemma PaceKeepsBatch(c: Config, s: State, p: Packet)
    requires SendInv(c, s.snd) && p in s.snd.batch && SenderEnabled(c, s, PaceStep(s.snd))
    ensures !s.snd.pacing.AtTop?
    ensures var t := SenderApply(c, s, PaceStep(s.snd)); p in t.snd.batch || p in t.net
  {
    hide DataPdu, Total, IsOwnData, Refill;
    assert p in multiset(s.snd.batch);
  }

  /** What is in the batch goes out. */
  lemma {:induction false} BatchGoes(c: Config, e: Policy, past: seq<Step>, tr: Trace, p: Packet, n: nat)
    returns (m: nat)
    requires Stalls(c, e, past, tr) && p in tr.state(n).snd.batch
    ensures m >= n && p in tr.state(m).net
    decreases Room(tr.state(n).snd), !tr.state(n).snd.newDone, Cycle(tr.state(n).snd.pacing)
  {
    hide Stalls, Fit, SenderApply, SenderEnabled, PaceStep, Cycle, SendInv;
    var k, st := PacerMoves(c, e, past, tr, n);
    Here(c, e, past, tr, k);
    AskedInFile(c, tr.state(k));
    BatchMoves(c, tr.state(k), st, p);
    PaceNearer(c, tr.state(k));
    m := k + 1;
    if p !in tr.state(m).net {
      m := BatchGoes(c, e, past, tr, p, k + 1);
    }
  }

  lemma BatchMoves(c: Config, s: State, st: Step, p: Packet)
    requires SendInv(c, s.snd) && p in s.snd.batch && SenderEnabled(c, s, st)
    requires if s.snd.pacing.AtTop? then st.PaceTop? else st == PaceStep(s.snd)
    ensures st == PaceStep(s.snd) && !s.snd.pacing.AtTop?
    ensures var t := SenderApply(c, s, st); p in t.snd.batch || p in t.net
  {
    hide SenderApply, SenderEnabled, PaceStep;
    assert !s.snd.pacing.AtTop?;
    PaceKeepsBatch(c, s, p);
  }
}
