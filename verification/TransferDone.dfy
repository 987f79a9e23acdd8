/** What the reports that say DONE carry. */
module TransferDone {
  import opened LossTracker
  import opened TransferModel
  import opened TransferInvariant
  import opened TransferSafety
  import opened TransferTheorems

  lemma {:induction false} MarkOfTick(c: Config, s: State, steps: seq<Step>, t: State)
    requires Runs(c, s, steps, t) && !s.fb.pc.AdvancingMark?
    requires forall k :: 0 <= k < |steps| ==> !steps[k].Tick?
    ensures t.fb.sc.hi == s.fb.sc.hi
    decreases |steps|
  {
    hide FbApply, FbEnabled, Enabled;
    if steps != [] {
      MarkStep(c, s, steps[0]);
      MarkOfTick(c, Apply(c, s, steps[0]), steps[1..], t);
    }
  }

  lemma MarkStep(c: Config, s: State, st: Step)
    requires Enabled(c, s, st) && !s.fb.pc.AdvancingMark? && !st.Tick?
    ensures var b := Apply(c, s, st).fb; b.sc.hi == s.fb.sc.hi && !b.pc.AdvancingMark?
  {
    if ActorOf(st).TheReporter? {
      hide FbApply, FbEnabled;
      FbFrame(c, s, st);
    } else {
      hide Apply;
      OwnParts(c, s, st);
    }
  }

  /** Where `advance` stops, the mark is at the end exactly if nothing is missing. */
  lemma MarkIsFull(sc: Scanner, bm: set<nat>, scanned: nat)
    requires Agrees(sc, bm, scanned) && !CanAdvance(sc, bm)
    ensures sc.hi == sc.total <==> forall i: nat :: i < sc.total ==> i in bm
  {
  }

  lemma ScanFacts(c: Config, s: State)
    requires Inv(c, s)
    ensures s.fb.sc.total == Total(c) && Agrees(s.fb.sc, s.rcv.bm, Scanned(s.fb))
    ensures s.fb.doneSends >= 1 && PastAdvance(s.fb.pc) ==> s.fb.sc.hi == Total(c)
  {
    hide HeardInv, OwnInv, FrontInv, StageInv, SinkInv, PoolInv, CountInv, NetInv, SendInv, AskedInv, DoneInv, Agrees;
    Parts(c, s);
  }

  /** Every report, DONE or not, carries the whole file as its mark if and only if no block
      was missing when that tick's `advance` loop stopped, however the other threads went
      on while the tick lasted. */
  lemma ReportedMark(c: Config, s0: State, past: seq<Step>, a: State, steps: seq<Step>, s: State)
    requires Init(c, s0) && Runs(c, s0, past, a)
    requires a.fb.pc.AdvancingMark? && !CanAdvance(a.fb.sc, a.rcv.bm) && Enabled(c, a, Fb)
    requires Runs(c, Apply(c, a, Fb), steps, s) && forall k :: 0 <= k < |steps| ==> !steps[k].Tick?
    requires s.fb.pc.Sending?
    ensures Enabled(c, s, Fb) && Apply(c, s, Fb).net == s.net + multiset{Report(c, s.fb)}
    ensures Report(c, s.fb).hi == Total(c) <==> forall i: nat :: i < Total(c) ==> i in a.rcv.bm
  {
    hide Runs, Init, Inv, Agrees;
    ReachableInv(c, s0, past, a);
    ScanFacts(c, a);
    MarkIsFull(a.fb.sc, a.rcv.bm, Scanned(a.fb));
    MarkOfTick(c, Apply(c, a, Fb), steps, s);
  }

  /** From its second DONE on, the receiver's DONE always carries the whole file. */
  lemma LaterDonesAreFull(c: Config, s0: State, past: seq<Step>, s: State)
    requires Init(c, s0) && Runs(c, s0, past, s)
    requires s.fb.pc.Sending? && s.fb.complete && s.fb.doneSends >= 1
    ensures Enabled(c, s, Fb) && Apply(c, s, Fb).net == s.net + multiset{Report(c, s.fb)}
    ensures Report(c, s.fb).done && Report(c, s.fb).hi == Total(c)
  {
    hide Runs, Init, Inv, Agrees;
    ReachableInv(c, s0, past, s);
    ScanFacts(c, s);
  }

  // ---- at most one DONE lags ----

  /** Does this step send a DONE whose mark is short of the file? */
  predicate Lags(c: Config, s: State, st: Step) {
    st.Fb? && s.fb.pc.Sending? && s.fb.complete && s.fb.sc.hi != Total(c)
  }

  function LaggingDones(c: Config, s: State, steps: seq<Step>): nat
    decreases |steps|
  {
    if steps == [] || !Enabled(c, s, steps[0]) then 0
    else
      var here := if Lags(c, s, steps[0]) then 1 else 0;
      here + LaggingDones(c, Apply(c, s, steps[0]), steps[1..])
  }

  /** The receiver has yet to send its first DONE. */
  predicate NoDoneYet(b: Feedbacker) {
    b.doneSends == 0 && !(b.pc.Counting? && b.complete)
  }

  lemma DoneStep(c: Config, s: State, st: Step)
    requires FbEnabled(c, s, st)
    ensures NoDoneYet(FbApply(c, s, st).fb) ==> NoDoneYet(s.fb)
    ensures st.Fb? && s.fb.pc.Sending? && s.fb.complete ==> !NoDoneYet(FbApply(c, s, st).fb)
  {
    hide ScanOne, ScanEnd, CanAdvance, AdvanceOne, DueAt, Collect, Total;
    if st.Fb? && s.fb.pc.Collecting? {
      CollectFrame(s.fb, s.rcv.bm);
    }
  }

  lemma LagStep(c: Config, s: State, st: Step)
    requires Inv(c, s) && Enabled(c, s, st)
    ensures NoDoneYet(Apply(c, s, st).fb) ==> NoDoneYet(s.fb)
    ensures Lags(c, s, st) ==> NoDoneYet(s.fb) && !NoDoneYet(Apply(c, s, st).fb)
  {
    hide Inv, FbApply, FbEnabled, Agrees;
    ScanFacts(c, s);
    if ActorOf(st).TheReporter? {
      DoneStep(c, s, st);
    } else {
      hide Apply;
      OwnParts(c, s, st);
    }
  }

  lemma {:induction false} LagRun(c: Config, s: State, steps: seq<Step>, t: State)
    requires Inv(c, s) && Runs(c, s, steps, t)
    ensures LaggingDones(c, s, steps) <= if NoDoneYet(s.fb) then 1 else 0
    decreases |steps|
  {
    hide Inv, Enabled, Apply, Lags, NoDoneYet;
    if steps != [] {
      LagStep(c, s, steps[0]);
      StepKeeps(c, s, steps[0]);
      LagRun(c, Apply(c, s, steps[0]), steps[1..], t);
    }
  }

  /** In no run does more than one DONE carry a mark short of the file. */
  lemma AtMostOneLags(c: Config, s: State, steps: seq<Step>, t: State)
    requires Init(c, s) && Runs(c, s, steps, t)
    ensures LaggingDones(c, s, steps) <= 1
  {
    hide Runs, Init, Inv;
    InitInv(c, s);
    LagRun(c, s, steps, t);
  }
}
