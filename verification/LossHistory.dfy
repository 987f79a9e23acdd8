/** The loss scanner over whole histories. Its three calls run one loop iteration at a
    time while other threads set bits in between; the log records when a hole was found
    and when it was NACKed. */
module LossHistory {
  import opened LossTracker

  datatype Call =
    | Rest
    | InAdvance
    | InScan(now: nat, rto: real, ms: nat, cursor: nat)
    | InCollect(now: nat, rto: real, max: nat, out: seq<nat>)

  datatype Event = Found(sn: nat, at: nat, rto: real) | Nacked(sn: nat, at: nat, rto: real)

  datatype Sys = Sys(sc: Scanner, bm: set<nat>, call: Call, log: seq<Event>)

  datatype Op =
    | Arrive(sn: nat)                            // an ingest worker sets a bit
    | StartAdvance
    | StartScan(ms: nat, now: nat, rto: real)
    | StartCollect(now: nat, rto: real, max: nat)
    | Iterate                                    // the running call does one iteration, or returns

  /** The RTO is clamped to 2 ms .. 4 s, and the clock is nowhere near saturating a `u64`. */
  predicate Clocked(now: nat, rto: real) {
    2000.0 <= rto <= 4000000.0 && now as real + rto + RTT_PREC_US < U64_MAX as real
  }

  predicate Enabled(s: Sys, op: Op) {
    match op
    case Arrive(sn) => sn < s.sc.total
    case StartAdvance => s.call.Rest?
    case StartScan(_, now, rto) => s.call.Rest? && Clocked(now, rto)
    case StartCollect(now, rto, _) => s.call.Rest? && Clocked(now, rto)
    case Iterate => !s.call.Rest?
  }

  function Apply(s: Sys, op: Op): Sys
    requires Enabled(s, op)
  {
    match op
    case Arrive(sn) => s.(bm := s.bm + {sn})
    case StartAdvance => s.(call := InAdvance)
    case StartScan(ms, now, rto) =>
      if s.sc.total == 0 then s
      else s.(call := InScan(now, rto, if ms >= s.sc.total then s.sc.total - 1 else ms, s.sc.next))
    case StartCollect(now, rto, max) => s.(call := InCollect(now, rto, max, []))
    case Iterate => Continue(s)
  }

  function Continue(s: Sys): Sys {
    match s.call
    case Rest => s
    case InAdvance =>
      if CanAdvance(s.sc, s.bm) then s.(sc := AdvanceOne(s.sc)) else s.(call := Rest)
    case InScan(now, rto, ms, cursor) =>
      if cursor <= ms then
        var sc := ScanOne(s.sc, s.bm, cursor, DueTime(now, rto));
        s.(sc := sc, call := InScan(now, rto, ms, cursor + 1),
           log := if cursor in sc.pending && cursor !in s.sc.pending then s.log + [Found(cursor, now, rto)] else s.log)
      else s.(sc := ScanEnd(s.sc, ms), call := Rest)
    case InCollect(now, rto, max, out) =>
      if |out| < max && CanPop(s.sc, now) then
        var x := Top(s.sc.heap).sn;
        var next := s.(sc := PopOne(s.sc, s.bm, DueTime(now, rto)));
        if Reports(s.sc, s.bm)
        then next.(call := InCollect(now, rto, max, out + [x]), log := s.log + [Nacked(x, now, rto)])
        else next
      else s.(call := Rest)
  }

  predicate Runs(s: Sys, ops: seq<Op>, t: Sys)
    decreases |ops|
  {
    if ops == [] then s == t else Enabled(s, ops[0]) && Runs(Apply(s, ops[0]), ops[1..], t)
  }

  predicate Init(total: nat, s: Sys) {
    s == Sys(NewScanner(total), {}, Rest, [])
  }

  // ---- the invariant ----

  function Scanned(s: Sys): nat {
    if s.call.InScan? then s.call.cursor else s.sc.next
  }

  ghost predicate ScanOk(s: Sys) {
    && Agrees(s.sc, s.bm, Scanned(s))
    && s.sc.next <= Scanned(s)
    && (s.call.InScan? ==> s.call.ms < s.sc.total && (s.call.cursor <= s.call.ms + 1 || s.call.cursor == s.sc.next))
    && (s.call.InScan? ==> Clocked(s.call.now, s.call.rto))
    && (s.call.InCollect? ==> Clocked(s.call.now, s.call.rto) && |s.call.out| <= s.call.max)
  }

  predicate Later(e: Event, f: Event) {
    f.at as real > e.at as real + e.rto + 999.0
  }

  /** Any two log entries of one block are more than RTO + 999 microseconds apart, by
      the RTO of the earlier one. */
  predicate Spaced(log: seq<Event>) {
    forall i, j :: 0 <= i < j < |log| && log[i].sn == log[j].sn ==> Later(log[i], log[j])
  }

  predicate WasFound(log: seq<Event>, sn: nat) {
    exists i :: 0 <= i < |log| && log[i].Found? && log[i].sn == sn
  }

  /** The heap remembers when each logged block may be asked for again. */
  ghost predicate LogOk(s: Sys) {
    && Spaced(s.log)
    && (forall k :: 0 <= k < |s.log| ==> s.log[k].sn < Scanned(s) && Clocked(s.log[k].at, s.log[k].rto))
    && (forall k, a :: 0 <= k < |s.log| && a in s.sc.heap && a.sn == s.log[k].sn ==>
          a.due >= DueTime(s.log[k].at, s.log[k].rto))
    && (forall sn :: sn in s.sc.pending ==> WasFound(s.log, sn))
    && (forall k :: 0 <= k < |s.log| && s.log[k].Nacked? ==> WasFound(s.log[..k], s.log[k].sn))
  }

  ghost predicate Inv(s: Sys) {
    ScanOk(s) && LogOk(s)
  }

  lemma DueIsLate(now: nat, rto: real)
    requires Clocked(now, rto)
    ensures DueTime(now, rto) as real > now as real + rto + 999.0
    ensures DueTime(now, rto) > now
  {
  }

  lemma ScanOkStep(s: Sys, op: Op)
    requires ScanOk(s) && Enabled(s, op)
    ensures ScanOk(Apply(s, op))
  {
    hide Agrees;
    var t := Apply(s, op);
    if op.Arrive? {
      AgreesGrows(s.sc, s.bm, t.bm, Scanned(s));
    } else if op.Iterate? {
      match s.call
      case InAdvance =>
        if CanAdvance(s.sc, s.bm) {
          AdvanceAgrees(s.sc, s.bm, Scanned(s));
        }
      case InScan(now, rto, ms, cursor) =>
        if cursor <= ms {
          ScanAgrees(s.sc, s.bm, cursor, DueTime(now, rto));
        } else {
          NextApart(s.sc, ScanEnd(s.sc, ms), s.bm, cursor);
        }
      case InCollect(now, rto, max, out) =>
        if |out| < max && CanPop(s.sc, now) {
          PopAgrees(s.sc, s.bm, Scanned(s), DueTime(now, rto));
        }
    }
  }

  lemma FoundGrows(log: seq<Event>, e: Event, sn: nat)
    requires WasFound(log, sn)
    ensures WasFound(log + [e], sn)
  {
    var i :| 0 <= i < |log| && log[i].Found? && log[i].sn == sn;
    assert (log + [e])[i] == log[i];
  }

  /** A hole is found once, after everything in the log. */
  lemma LogScan(s: Sys)
    requires Inv(s) && s.call.InScan? && s.call.cursor <= s.call.ms
    ensures LogOk(Continue(s))
  {
    hide HasEntry, OneEntryEach, DueTime, Clocked, Later;
    var t := Continue(s);
    if t.log != s.log {
      var e := Found(s.call.cursor, s.call.now, s.call.rto);
      assert t.log == s.log + [e];
      SpacedSnoc(s.log, e);
      forall sn | sn in t.sc.pending
        ensures WasFound(t.log, sn)
      {
        if sn in s.sc.pending {
          FoundGrows(s.log, e, sn);
        } else {
          assert t.log[|s.log|] == e;
        }
      }
      forall k | 0 <= k < |t.log| && t.log[k].Nacked?
        ensures WasFound(t.log[..k], t.log[k].sn)
      {
        assert t.log[..k] == s.log[..k];
      }
    }
  }

  lemma SpacedSnoc(log: seq<Event>, e: Event)
    requires Spaced(log)
    requires forall k :: 0 <= k < |log| && log[k].sn == e.sn ==> Later(log[k], e)
    ensures Spaced(log + [e])
  {
  }

  /** By the time the heap lets a block go, RTO + 999 has passed since each log entry. */
  lemma NackIsLate(s: Sys, k: nat)
    requires LogOk(s) && s.sc.heap != multiset{} && k < |s.log| && s.log[k].sn == Top(s.sc.heap).sn
    ensures Top(s.sc.heap).due as real > s.log[k].at as real + s.log[k].rto + 999.0
    ensures Top(s.sc.heap).due >= DueTime(s.log[k].at, s.log[k].rto)
  {
    DueIsLate(s.log[k].at, s.log[k].rto);
    assert Top(s.sc.heap) in s.sc.heap;
  }

  lemma HeapAfterNack(s: Sys, reDue: nat)
    requires LogOk(s) && s.sc.heap != multiset{} && Reports(s.sc, s.bm) && reDue >= Top(s.sc.heap).due
    ensures forall k, a :: 0 <= k < |s.log| && a in PopOne(s.sc, s.bm, reDue).heap && a.sn == s.log[k].sn ==>
      a.due >= DueTime(s.log[k].at, s.log[k].rto)
  {
    var top := Top(s.sc.heap);
    forall k, a | 0 <= k < |s.log| && a in PopOne(s.sc, s.bm, reDue).heap && a.sn == s.log[k].sn
      ensures a.due >= DueTime(s.log[k].at, s.log[k].rto)
    {
      if a !in s.sc.heap {
        NackIsLate(s, k);
      }
    }
  }

  lemma FoundAfterNack(s: Sys, e: Event)
    requires LogOk(s) && e.Nacked? && e.sn in s.sc.pending
    ensures forall sn :: sn in s.sc.pending ==> WasFound(s.log + [e], sn)
    ensures forall k :: 0 <= k < |s.log + [e]| && (s.log + [e])[k].Nacked? ==>
      WasFound((s.log + [e])[..k], (s.log + [e])[k].sn)
  {
    forall sn | sn in s.sc.pending
      ensures WasFound(s.log + [e], sn)
    {
      FoundGrows(s.log, e, sn);
    }
    forall k | 0 <= k < |s.log + [e]| && (s.log + [e])[k].Nacked?
      ensures WasFound((s.log + [e])[..k], (s.log + [e])[k].sn)
    {
      assert (s.log + [e])[..k] == s.log[..k];
      assert s.log[..|s.log|] == s.log;
    }
  }

  lemma OnlyOneOf(s: Sys, reDue: nat, a: Item)
    requires Agrees(s.sc, s.bm, Scanned(s)) && s.sc.heap != multiset{} && Reports(s.sc, s.bm)
    requires a in PopOne(s.sc, s.bm, reDue).heap && a.sn == Top(s.sc.heap).sn
    ensures a == Item(reDue, a.sn)
  {
  }

  /** A NACK is logged no earlier than the heap allows. */
  lemma LogNack(s: Sys)
    requires Inv(s) && s.call.InCollect? && |s.call.out| < s.call.max && CanPop(s.sc, s.call.now)
    requires Reports(s.sc, s.bm)
    ensures LogOk(Continue(s))
  {
    hide Agrees, PopOne, WasFound, DueTime;
    var t := Continue(s);
    var top, reDue := Top(s.sc.heap), DueTime(s.call.now, s.call.rto);
    var e := Nacked(top.sn, s.call.now, s.call.rto);
    DueIsLate(s.call.now, s.call.rto);
    forall k | 0 <= k < |s.log| && s.log[k].sn == e.sn
      ensures Later(s.log[k], e)
    {
      NackIsLate(s, k);
    }
    SpacedSnoc(s.log, e);
    HeapAfterNack(s, reDue);
    FoundAfterNack(s, e);
    forall k, a | 0 <= k < |t.log| && a in t.sc.heap && a.sn == t.log[k].sn
      ensures a.due >= DueTime(t.log[k].at, t.log[k].rto)
    {
      if k == |s.log| {
        OnlyOneOf(s, reDue, a);
      }
    }
    NackPending(s.sc, s.bm, reDue);
    TopScanned(s.sc, s.bm, Scanned(s));
  }

  lemma NackPending(sc: Scanner, bm: set<nat>, reDue: nat)
    requires sc.heap != multiset{} && Reports(sc, bm)
    ensures PopOne(sc, bm, reDue).pending == sc.pending && PopOne(sc, bm, reDue).next == sc.next
  {
  }

  lemma LogQuiet(s: Sys, t: Sys)
    requires LogOk(s) && t.log == s.log && t.sc.pending <= s.sc.pending && Scanned(s) <= Scanned(t)
    requires forall a :: a in t.sc.heap ==> a in s.sc.heap
    ensures LogOk(t)
  {
  }

  lemma LogStep(s: Sys, op: Op)
    requires Inv(s) && Enabled(s, op)
    ensures LogOk(Apply(s, op))
  {
    var t := Apply(s, op);
    if op.Iterate? && s.call.InScan? && s.call.cursor <= s.call.ms {
      LogScan(s);
    } else if op.Iterate? && s.call.InCollect? && |s.call.out| < s.call.max && CanPop(s.sc, s.call.now)
              && Reports(s.sc, s.bm) {
      LogNack(s);
    } else {
      hide LogOk, Agrees;
      LogQuiet(s, t);
    }
  }

  lemma {:induction false} RunInv(s: Sys, ops: seq<Op>, t: Sys)
    requires Inv(s) && Runs(s, ops, t)
    ensures Inv(t)
    decreases |ops|
  {
    hide ScanOk, LogOk, Apply, Enabled;
    if ops != [] {
      ScanOkStep(s, ops[0]);
      LogStep(s, ops[0]);
      RunInv(Apply(s, ops[0]), ops[1..], t);
    }
  }

  /** The wait-one-RTO rule over every history, whatever arrives meanwhile: a NACK comes
      after the scan that found the block, and any two entries of one block, find or
      NACK, are more than the earlier one's RTO + 999 microseconds apart. */
  lemma WaitOneRto(total: nat, s: Sys, ops: seq<Op>, t: Sys)
    requires Init(total, s) && Runs(s, ops, t)
    ensures forall i, j :: 0 <= i < j < |t.log| && t.log[i].sn == t.log[j].sn ==>
      t.log[j].at as real > t.log[i].at as real + t.log[i].rto + 999.0
    ensures forall j :: 0 <= j < |t.log| && t.log[j].Nacked? ==>
      exists i :: 0 <= i < j && t.log[i].Found? && t.log[i].sn == t.log[j].sn
  {
    hide Runs;
    RunInv(s, ops, t);
    forall j | 0 <= j < |t.log| && t.log[j].Nacked?
      ensures exists i :: 0 <= i < j && t.log[i].Found? && t.log[i].sn == t.log[j].sn
    {
      var i :| 0 <= i < |t.log[..j]| && t.log[..j][i].Found? && t.log[..j][i].sn == t.log[j].sn;
      assert t.log[i] == t.log[..j][i];
    }
  }

  // ---- no starvation ----

  /** Heap entries that go before `e`. */
  function Ahead(heap: multiset<Item>, e: Item): set<Item> {
    set a | a in heap && Before(a, e)
  }

  function Rank(heap: multiset<Item>, e: Item): nat {
    |Ahead(heap, e)|
  }

  /** Every scan and every collection happens at or after the due time. */
  predicate PastDue(op: Op, due: nat) {
    && (op.StartScan? ==> op.now >= due)
    && (op.StartCollect? ==> op.now >= due)
  }

  /** Capacity of the collections that return during the run. */
  function CapsSpent(s: Sys, ops: seq<Op>): nat
    decreases |ops|
  {
    if ops == [] || !Enabled(s, ops[0]) then 0
    else
      var here := if s.call.InCollect? && Apply(s, ops[0]).call.Rest? then s.call.max else 0;
      here + CapsSpent(Apply(s, ops[0]), ops[1..])
  }

  function Reported(s: Sys): nat {
    if s.call.InCollect? then |s.call.out| else 0
  }

  /** Block `e.sn` is still waiting for its turn. */
  predicate Waiting(s: Sys, e: Item) {
    e in s.sc.heap && e.sn in s.sc.pending && e.sn !in s.bm
  }

  predicate CallPastDue(s: Sys, due: nat) {
    && (s.call.InScan? ==> s.call.now >= due)
    && (s.call.InCollect? ==> s.call.now >= due)
  }

  /** Popping what is not `e`, while `e` waits, shortens the queue ahead of it. */
  lemma PopAhead(sc: Scanner, bm: set<nat>, reDue: nat, e: Item)
    requires OneEntryEach(sc.heap) && e in sc.heap && Top(sc.heap) != e && reDue > e.due
    ensures Rank(PopOne(sc, bm, reDue).heap, e) + 1 <= Rank(sc.heap, e)
    ensures e in PopOne(sc, bm, reDue).heap
  {
    hide OneEntryEach;
    var top := Top(sc.heap);
    var t := PopOne(sc, bm, reDue);
    RestEntries(sc.heap, top);
    TopBefore(sc.heap, e);
    assert Ahead(t.heap, e) <= Ahead(sc.heap, e) - {top};
    Fewer(Ahead(t.heap, e), Ahead(sc.heap, e), top);
  }

  lemma TopBefore(heap: multiset<Item>, e: Item)
    requires e in heap && Top(heap) != e
    ensures Top(heap) in heap && Before(Top(heap), e)
  {
    assert !Before(e, Top(heap));
  }

  lemma Fewer<T>(a: set<T>, b: set<T>, x: T)
    requires a <= b - {x} && x in b
    ensures |a| + 1 <= |b|
  {
    assert b == (b - {x}) + {x};
    SubsetSize(a, b - {x});
  }

  lemma {:induction false} SubsetSize<T>(a: set<T>, b: set<T>)
    requires a <= b
    ensures |a| <= |b|
    decreases |a|
  {
    if a != {} {
      var x :| x in a;
      SubsetSize(a - {x}, b - {x});
    }
  }

  lemma ScanAhead(sc: Scanner, bm: set<nat>, sn: nat, due: nat, e: Item)
    requires due > e.due
    ensures Rank(ScanOne(sc, bm, sn, due).heap, e) <= Rank(sc.heap, e)
  {
    assert Ahead(ScanOne(sc, bm, sn, due).heap, e) == Ahead(sc.heap, e);
  }

  /** While `e` waits, a due collection is never cut short before it is full, and every
      report it makes comes off the queue ahead of `e`. */
  lemma WaitStep(s: Sys, op: Op, e: Item)
    requires ScanOk(s) && Enabled(s, op) && PastDue(op, e.due) && CallPastDue(s, e.due)
    requires Waiting(s, e)
    ensures var t := Apply(s, op);
      && CallPastDue(t, e.due)
      && (Waiting(t, e) || e.sn in t.bm || (|t.log| == |s.log| + 1 && t.log[|s.log|].Nacked? && t.log[|s.log|].sn == e.sn))
      && (Waiting(t, e) ==>
            Rank(t.sc.heap, e) + Reported(t) + (if s.call.InCollect? && t.call.Rest? then s.call.max else 0)
            <= Rank(s.sc.heap, e) + Reported(s))
  {
    hide Agrees, Rank, Ahead;
    OneEntries(s.sc, s.bm, Scanned(s));
    if op.Iterate? && s.call.InCollect? {
      WaitCollect(s, e);
    } else if op.Iterate? && s.call.InScan? && s.call.cursor <= s.call.ms {
      DueIsLate(s.call.now, s.call.rto);
      ScanAhead(s.sc, s.bm, s.call.cursor, DueTime(s.call.now, s.call.rto), e);
    }
  }

  lemma WaitCollect(s: Sys, e: Item)
    requires OneEntryEach(s.sc.heap) && s.call.InCollect? && Clocked(s.call.now, s.call.rto)
    requires s.call.now >= e.due && |s.call.out| <= s.call.max && Waiting(s, e)
    ensures var t := Continue(s);
      && CallPastDue(t, e.due)
      && (Waiting(t, e) || (|t.log| == |s.log| + 1 && t.log[|s.log|].Nacked? && t.log[|s.log|].sn == e.sn))
      && (Waiting(t, e) ==>
            Rank(t.sc.heap, e) + Reported(t) + (if t.call.Rest? then s.call.max else 0)
            <= Rank(s.sc.heap, e) + Reported(s))
  {
    hide Rank;
    var top := Top(s.sc.heap);
    assert !Before(e, top);
    assert CanPop(s.sc, s.call.now);
    if |s.call.out| < s.call.max {
      DueIsLate(s.call.now, s.call.rto);
      if top != e {
        assert top.sn != e.sn;
        PopAhead(s.sc, s.bm, DueTime(s.call.now, s.call.rto), e);
      }
    }
  }

  predicate NackedSince(t: Sys, from: nat, sn: nat) {
    exists k :: from <= k < |t.log| && t.log[k].Nacked? && t.log[k].sn == sn
  }

  lemma LogGrows(s: Sys, op: Op)
    requires Enabled(s, op)
    ensures s.log <= Apply(s, op).log
  {
  }

  lemma {:induction false} LogKept(s: Sys, ops: seq<Op>, t: Sys)
    requires Runs(s, ops, t)
    ensures s.log <= t.log && s.bm <= t.bm
    decreases |ops|
  {
    if ops != [] {
      LogGrows(s, ops[0]);
      LogKept(Apply(s, ops[0]), ops[1..], t);
    }
  }

  lemma {:induction false} WaitRun(s: Sys, ops: seq<Op>, t: Sys, e: Item)
    requires ScanOk(s) && Waiting(s, e) && CallPastDue(s, e.due) && Runs(s, ops, t)
    requires forall k :: 0 <= k < |ops| ==> PastDue(ops[k], e.due)
    requires CapsSpent(s, ops) > Rank(s.sc.heap, e) + Reported(s)
    ensures e.sn in t.bm || NackedSince(t, |s.log|, e.sn)
    decreases |ops|
  {
    hide Rank, Agrees, Apply, Enabled, ScanOk;
    if ops != [] {
      var m := Apply(s, ops[0]);
      assert PastDue(ops[0], e.due);
      WaitStep(s, ops[0], e);
      ScanOkStep(s, ops[0]);
      LogKept(m, ops[1..], t);
      LogGrows(s, ops[0]);
      if Waiting(m, e) {
        WaitRun(m, ops[1..], t, e);
      }
    }
  }

  /** No starvation. Take any moment of any history at which a missing block is pending
      with heap entry `e`. Over any continuation at or past its due time, whatever arrives,
      is rescheduled or newly found meanwhile, once the collections that returned had room
      for more reports than there were entries ahead of `e`, the block has been NACKed
      again or has arrived. */
  lemma NoStarvation(total: nat, s0: Sys, past: seq<Op>, s: Sys, ops: seq<Op>, t: Sys, e: Item)
    requires Init(total, s0) && Runs(s0, past, s) && s.call.Rest?
    requires e in s.sc.heap && e.sn in s.sc.pending && e.sn !in s.bm
    requires Runs(s, ops, t)
    requires forall k :: 0 <= k < |ops| ==> PastDue(ops[k], e.due)
    requires CapsSpent(s, ops) > Rank(s.sc.heap, e)
    ensures e.sn in t.bm
         || exists k :: |s.log| <= k < |t.log| && t.log[k].Nacked? && t.log[k].sn == e.sn
  {
    hide Runs, Rank, CapsSpent;
    RunInv(s0, past, s);
    WaitRun(s, ops, t, e);
  }
}
