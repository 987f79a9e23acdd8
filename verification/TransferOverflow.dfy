/** When a direct write can fail: only when the stage pool overflows, which it can do
    exactly for files of more blocks than the pool has buffers. */
module TransferOverflow {
  import opened Blocks
  import opened Prelude
  import opened TransferModel
  import opened TransferInvariant
  import opened TransferPolicy
  import opened TransferSafety
  import opened TransferTheorems
  import opened TransferProgress
  import opened TransferWitness

  // ---- a file that fits never overflows ----

  /** The blocks that workers hold in a pooled buffer. */
  function InHand(wk: seq<Worker>): (held: set<nat>)
    ensures forall x :: x in held <==> exists k :: 0 <= k < |wk| && wk[k].Buffered? && wk[k].sn == x
  {
    if wk == [] then {}
    else
      assert wk == [wk[0]] + wk[1..];
      InHand(wk[1..]) + if wk[0].Buffered? then {wk[0].sn} else {}
  }

  lemma {:induction false} InHandCount(wk: seq<Worker>)
    requires forall i, j :: 0 <= i < j < |wk| && wk[i].Buffered? && wk[j].Buffered? ==> wk[i].sn != wk[j].sn
    ensures |InHand(wk)| == SumOf(HoldsBuf, wk)
  {
    if wk != [] {
      InHandCount(wk[1..]);
    }
  }

  lemma InHandFacts(c: Config, r: Receiver, wk: seq<Worker>, fl: Flusher, stuck: set<nat>)
    requires OwnInv(r, wk, stuck) && StageInv(c, r, wk, fl)
    ensures |InHand(wk)| == SumOf(HoldsBuf, wk)
    ensures forall x :: x in InHand(wk) ==> x in r.bm && x !in r.ready && x !in r.stage
    ensures forall w :: 0 <= w < |wk| && wk[w].Tallied? ==> wk[w].sn !in InHand(wk)
  {
    hide InHand;
    assert forall k :: 0 <= k < |wk| && (wk[k].Buffered? || wk[k].Tallied?) ==> Owns(wk[k]) && !wk[k].Staged?;
    InHandCount(wk);
  }

  lemma PoolParts(c: Config, s: State)
    requires Inv(c, s)
    ensures OwnInv(s.rcv, s.wk, s.stuck) && StageInv(c, s.rcv, s.wk, s.fl) && FrontInv(c, s.rcv, s.fl)
    ensures PoolInv(c, s.rcv, s.wk, s.fl)
    ensures forall x :: x in s.rcv.bm ==> x < Total(c)
  {
    hide OwnInv, StageInv, FrontInv, PoolInv, HeardInv, SinkInv, CountInv, ScanInv, FinishInv, NetInv, SendInv, AskedInv;
    Parts(c, s);
    BmBound(c, s);
  }

  /** With the pool empty the buffers hold as many blocks as there are buffers, none of them
      the one that finds the pool empty. */
  lemma PoolSpent(c: Config, s: State, w: nat)
    requires Inv(c, s) && w < |s.wk| && s.wk[w].Tallied? && s.rcv.free == 0
    ensures StageDepth(c) < Total(c)
  {
    hide Inv, StageDepth, Total, InHand, SomeOwner;
    PoolParts(c, s);
    InHandFacts(c, s.rcv, s.wk, s.fl, s.stuck);
    var sn := s.wk[w].sn;
    assert Owns(s.wk[w]) && sn in s.rcv.bm && sn !in s.rcv.ready && sn !in s.rcv.stage;
    var front := if s.fl.pc.Writing? || s.fl.pc.ReturningBuf? then {s.fl.front} else {};
    FourParts(s.rcv.stage.Keys, InHand(s.wk), front, {sn}, Total(c));
  }

  lemma FourParts(a: set<nat>, b: set<nat>, d: set<nat>, e: set<nat>, n: nat)
    requires a !! b && a !! d && a !! e && b !! d && b !! e && d !! e
    requires forall x :: x in a || x in b || x in d || x in e ==> x < n
    ensures |a| + |b| + |d| + |e| <= n
  {
    assert |a + b| == |a| + |b| && |(a + b) + d| == |a + b| + |d| && |(a + b + d) + e| == |a + b + d| + |e|;
    SubsetOfRange(a + b + d + e, n);
  }

  predicate NoDirect(s: State) {
    s.stuck == {} && forall k :: 0 <= k < |s.wk| ==> !s.wk[k].Direct?
  }

  lemma DirectOnlyWhenSpent(c: Config, s: State, st: Step)
    requires Enabled(c, s, st) && NoDirect(s)
    requires forall w :: 0 <= w < |s.wk| && s.wk[w].Tallied? ==> s.rcv.free > 0
    ensures NoDirect(Apply(c, s, st))
  {
    hide SenderApply, SenderEnabled, WorkApply, DeliverApply, FlushApply, FbApply, FbEnabled;
    match ActorOf(st)
    case TheSender => SenderShape(c, s, st);
    case TheNetwork =>
    case TheReporter => FeedbackShape(c, s, st);
    case TheFlusher => FlushShape(c, s);
    case TheWorkers =>
      if st.Work? {
        WorkShape(c, s, st.w);
        WorkNotDirect(c, s, st.w);
      } else if st.Deliver? {
        DeliverShape(c, s, st.w, st.p, st.parsed);
        DeliverNotDirect(c, s, st.w, st.p, st.parsed);
      }
  }

  lemma WorkNotDirect(c: Config, s: State, w: nat)
    requires w < |s.wk| && (s.wk[w].Tallied? ==> s.rcv.free > 0)
    ensures |WorkApply(c, s, w).wk| == |s.wk| && !WorkApply(c, s, w).wk[w].Direct?
  {
    hide WriteAt;
  }

  lemma DeliverNotDirect(c: Config, s: State, w: nat, p: Packet, parsed: bool)
    requires w < |s.wk| && !p.Feedback? && !s.wk[w].Direct?
    ensures var t := DeliverApply(c, s, w, p, parsed); |t.wk| == |s.wk| && !t.wk[w].Direct?
  {
    hide Total;
  }

  lemma {:induction false} NoDirectRun(c: Config, s: State, steps: seq<Step>, t: State)
    requires Inv(c, s) && Runs(c, s, steps, t) && NoDirect(s) && Total(c) <= StageDepth(c)
    ensures NoDirect(t)
    decreases |steps|
  {
    hide Inv, Enabled, Apply, NoDirect, Total, StageDepth;
    if steps != [] {
      forall w | 0 <= w < |s.wk| && s.wk[w].Tallied?
        ensures s.rcv.free > 0
      {
        if s.rcv.free == 0 {
          PoolSpent(c, s, w);
        }
      }
      DirectOnlyWhenSpent(c, s, steps[0]);
      StepKeeps(c, s, steps[0]);
      NoDirectRun(c, Apply(c, s, steps[0]), steps[1..], t);
    }
  }

  /** A file with no more blocks than the pool has buffers is never written directly, so no
      direct write of it ever fails. */
  lemma FitsNeverStuck(c: Config, s: State, steps: seq<Step>, t: State)
    requires Init(c, s) && Runs(c, s, steps, t) && Total(c) <= StageDepth(c)
    ensures t.stuck == {} && forall k :: 0 <= k < |t.wk| ==> !t.wk[k].Direct?
  {
    assert NoDirect(s);
    hide Runs, Init, Inv;
    InitInv(c, s);
    NoDirectRun(c, s, steps, t);
  }

  // ---- any other may ----

  lemma IdlePool(c: Config, s: State)
    requires Good(c, s) && AllIdle(s.wk) && s.fl.pc.Probe?
    ensures s.rcv.free + |s.rcv.stage.Keys| == StageDepth(c) && s.rcv.stage.Keys <= s.rcv.bm
  {
    hide Inv, StageDepth, Total;
    PoolParts(c, s);
    SumIdle(HoldsBuf, s.wk);
  }

  lemma AllBut(got: set<nat>, i: nat, n: nat)
    requires i < n && forall y: nat :: y in got <==> y < n && y != i
    ensures |got| == n - 1
  {
    CountBelow(got + {i}, n);
    assert got == (got + {i}) - {i};
  }

  /** Hear blocks other than `i` until every buffer of the pool is taken. */
  lemma {:induction false} FillPool(c: Config, e: Policy, hs: seq<Step>, s: State, i: nat, x: nat)
    returns (ht: seq<Step>, t: State)
    requires Good(c, s) && AllIdle(s.wk) && s.fl.pc.Probe? && StageDepth(c) < Total(c)
    requires i < Total(c) && x <= Total(c)
    requires forall y: nat :: y < Total(c) && y !in s.rcv.bm ==> DataPdu(c, y) in s.net
    requires s.rcv.bm == s.rcv.stage.Keys && forall y: nat :: y in s.rcv.bm <==> y < x && y != i
    ensures Good(c, t) && Reaches(c, e, hs, s, ht, t) && AllIdle(t.wk)
    ensures t.rcv.free == 0 && i !in t.rcv.bm && DataPdu(c, i) in t.net
    decreases Total(c) - x
  {
    hide Good, Reaches, DataPdu, Total, StageDepth;
    IdlePool(c, s);
    if s.rcv.free == 0 {
      ht, t := hs, s;
      ReachSelf(c, e, hs, s);
    } else if x == Total(c) {
      AllBut(s.rcv.bm, i, Total(c));
      assert false;
    } else if x == i {
      ht, t := FillPool(c, e, hs, s, i, x + 1);
    } else {
      var hm, m := HearData(c, e, hs, s, x);
      PdusApart(c, x);
      IdlePool(c, m);
      ht, t := FillPool(c, e, hm, m, i, x + 1);
      ReachJoin(c, e, hs, s, hm, m, ht, t);
    }
  }

  /** With the pool empty, worker `w` is on its way to writing block `sn` directly. */
  predicate Overflows(s: State, w: nat, sn: nat) {
    && w < |s.wk| && s.rcv.free == 0 && Bearing(s.wk[w]) && s.wk[w].sn == sn
    && (s.wk[w].Fresh? || s.wk[w].Seen? || s.wk[w].Raised? ==> sn !in s.rcv.bm)
  }

  predicate Bearing(w: Worker) {
    w.Fresh? || w.Seen? || w.Raised? || w.Won? || w.Counted? || w.Tallied? || w.Direct?
  }

  lemma OverflowStep(c: Config, s: State, w: nat, sn: nat)
    requires Overflows(s, w, sn) && !s.wk[w].Direct?
    ensures Overflows(WorkApply(c, s, w), w, sn)
  {
  }

  lemma {:induction false} ToDirect(c: Config, e: Policy, hs: seq<Step>, s: State, w: nat, sn: nat)
    returns (ht: seq<Step>, t: State)
    requires Good(c, s) && Overflows(s, w, sn)
    ensures Good(c, t) && Reaches(c, e, hs, s, ht, t) && w < |t.wk| && t.wk[w].Direct? && t.wk[w].sn == sn
    decreases WorkLeft(s.wk[w])
  {
    hide Good, Reaches, WorkApply;
    if s.wk[w].Direct? {
      ht, t := hs, s;
      ReachSelf(c, e, hs, s);
    } else {
      WorkStep(c, s, w);
      OverflowStep(c, s, w, sn);
      var hm, m := GoWork(c, e, hs, s, w);
      ht, t := ToDirect(c, e, hm, m, w, sn);
      ReachJoin(c, e, hs, s, hm, m, ht, t);
    }
  }

  lemma HearAndOverflow(c: Config, e: Policy, hs: seq<Step>, s: State, i: nat) returns (ht: seq<Step>, t: State)
    requires Good(c, s) && AllIdle(s.wk) && i < Total(c) && DataPdu(c, i) in s.net
    requires s.rcv.free == 0 && i !in s.rcv.bm
    ensures Good(c, t) && Reaches(c, e, hs, s, ht, t) && |t.wk| > 0 && t.wk[0].Direct? && t.wk[0].sn == i
  {
    hide Good, Reaches;
    WorkerFacts(c, s);
    var p := DataPdu(c, i);
    var ha, a := GoDeliver(c, e, hs, s, p);
    assert a.wk == s.wk[0 := Fresh(i, p.payload)] && a.rcv.free == 0;
    ht, t := ToDirect(c, e, ha, a, 0, i);
    ReachJoin(c, e, hs, s, ha, a, ht, t);
  }

  lemma DirectHolds(c: Config, s: State)
    requires Good(c, s) && |s.wk| > 0 && s.wk[0].Direct?
    ensures s.wk[0].sn < Total(c) && s.wk[0].data == Block(c.src, c.bs, s.wk[0].sn)
  {
    hide OwnInv, FrontInv, StageInv, SinkInv, PoolInv, CountInv, ScanInv, FinishInv, NetInv, SendInv, AskedInv, DoneInv;
    Parts(c, s);
    assert WorkerInv(c, Limit(c, s.snd), s.rcv, s.wk[0]);
  }

  /** A direct write may fail anywhere: in every transfer of a file with more blocks than the
      pool has buffers, under every policy, for every block and every number of bytes of it,
      some run hears a poolful of other blocks before any is flushed and then fails to write
      this one. */
  lemma DirectWriteMayFail(c: Config, e: Policy, s: State, i: nat, k: nat) returns (ht: seq<Step>, t: State)
    requires Init(c, s) && StageDepth(c) < Total(c)
    requires i < Total(c) && k <= BlockLen(|c.src|, c.bs, i)
    ensures Follows(c, e, [], s, ht, t) && t.stuck == {i}
  {
    hide Follows, Init, Reaches, Inv, AllOut, DataPdu, Block, StageDepth;
    var ha, a := StartOver(c, e, s);
    var hb, b := FillPool(c, e, ha, a, i, 0);
    ReachJoin(c, e, [], s, ha, a, hb, b);
    var hd, d := HearAndOverflow(c, e, hb, b, i);
    ReachJoin(c, e, [], s, hb, b, hd, d);
    Begin(c, e, s);
    GoesOn(c, e, s, [], s, hd, d);
    DirectHolds(c, d);
    ht, t := Then(c, e, s, hd, d, DirectFail(0, k));
  }

  /** Everything is sent and nothing heard yet. */
  lemma StartOver(c: Config, e: Policy, s: State) returns (ht: seq<Step>, t: State)
    requires Init(c, s)
    ensures Good(c, t) && Reaches(c, e, [], s, ht, t) && AllIdle(t.wk) && t.fl.pc.Probe? && SenderOnly(s, t)
    ensures t.rcv.bm == {} && t.rcv.stage == map[] && TheFin(c) in t.net
    ensures forall x: nat :: x < Total(c) ==> DataPdu(c, x) in t.net
  {
    Begin(c, e, s);
    hide Follows, Reaches, Good, AllOut, DataPdu, NumBlocks;
    ht, t := SendEverything(c, e, [], s);
  }

  /** A caller can tell beforehand whether a direct write may fail: under every policy some
      run has a failed one if and only if the file has more blocks than the pool buffers. */
  lemma StuckIffOverflows(c: Config, e: Policy, s: State)
    requires Init(c, s)
    ensures (exists steps, t :: Follows(c, e, [], s, steps, t) && t.stuck != {}) <==> StageDepth(c) < Total(c)
  {
    hide Follows, Init, StageDepth;
    if StageDepth(c) < Total(c) {
      var ht, t := DirectWriteMayFail(c, e, s, 0, 0);
      assert t.stuck != {};
    } else {
      forall steps, t | Follows(c, e, [], s, steps, t)
        ensures t.stuck == {}
      {
        FollowsRuns(c, e, [], s, steps, t);
        FitsNeverStuck(c, s, steps, t);
      }
    }
  }
}
