/** When the sender, too, can finish: the receiver says DONE eight times and leaves, and
    the network may lose all eight. */
module TransferFinish {
  import opened LossTracker
  import opened TransferModel
  import opened TransferInvariant
  import opened TransferPolicy
  import opened TransferSafety
  import opened TransferTheorems
  import opened TransferDone
  import opened TransferProgress

  predicate SaysDone(c: Config, p: Packet) {
    Audible(c, p) && p.done
  }

  ghost predicate InFlight(c: Config, net: multiset<Packet>) {
    exists p :: p in net && SaysDone(c, p)
  }

  /** The sender knows, or its feedback thread is about to tell it. */
  predicate Told(d: Sender) {
    d.done || d.pacing.Left? || (!d.inbox.Waiting? && d.inbox.done)
  }

  /** The sender has heard a DONE, one is on its way, or the receiver has one yet to send. */
  ghost predicate CanHear(c: Config, s: State) {
    Told(s.snd) || InFlight(c, s.net) || !Silent(s.fb)
  }

  // ---- the receiver says DONE ----

  /** This tick will end with a DONE if the transfer is complete. */
  predicate Promising(b: Feedbacker) {
    match b.pc
    case Sleeping => false
    case LoadFlushed => b.fin
    case StoreHi => b.complete
    case CheckPeer => b.complete
    case Collecting => b.complete
    case Sending => b.complete
    case Counting => false
    case Gone => false
    case _ => true
  }

  lemma PromiseKept(c: Config, s: State, cap: nat)
    requires Complete(c, s) && s.rcv.peer.Some?
    requires Promising(s.fb) && !s.fb.pc.Sending? && FbEnabled(c, s, FbStep(s.fb, cap))
    ensures Promising(FbApply(c, s, FbStep(s.fb, cap)).fb)
  {
    hide PopOne, Top, CanPop, Reports, ScanOne, ScanEnd, DueAt, AdvanceOne, CanAdvance;
  }

  lemma SameCompletion(c: Config, s: State, t: State)
    requires FbOnly(s, t)
    ensures Complete(c, t) == Complete(c, s)
  {
  }

  /** A tick that sees completion ends with a DONE; past its `advance` loop it carries the
      mark that loop left. */
  lemma {:induction false} PromisedDone(c: Config, e: Policy, hs: seq<Step>, s: State)
      returns (ht: seq<Step>, t: State, p: Packet)
    requires Good(c, s) && Complete(c, s) && Promising(s.fb)
    ensures Good(c, t) && Reaches(c, e, hs, s, ht, t) && p in t.net && SaysDone(c, p)
    ensures !s.fb.pc.AdvancingMark? ==> p.hi == s.fb.sc.hi
    ensures Complete(c, t) && t.net == s.net + multiset{p} && t.snd == s.snd
    ensures t.fb.pc.Counting? && t.fb.complete && t.fb.doneSends == s.fb.doneSends
    decreases FbRank(s.fb.pc), FbLeft(s.fb)
  {
    hide Good, Reaches, FbApply, Promising, FbRank, FbLeft, SaysDone;
    WorkerFacts(c, s);
    Awake(s.fb);
    if s.fb.pc.Sending? {
      ht, t, p := SendsDone(c, e, hs, s);
    } else {
      var cap := Cap(c, e, hs);
      var st := FbStep(s.fb, cap);
      FbMoves(c, s, cap);
      PromiseKept(c, s, cap);
      FeedbackShape(c, s, st);
      FbFrame(c, s, st);
      var hm, m := GoFb(c, e, hs, s, st);
      SameCompletion(c, s, m);
      ht, t, p := PromisedDone(c, e, hm, m);
      ReachJoin(c, e, hs, s, hm, m, ht, t);
    }
  }

  lemma Awake(b: Feedbacker)
    requires Promising(b)
    ensures !b.pc.Sleeping? && !b.pc.Counting? && !b.pc.Gone? && (b.pc.Sending? ==> b.complete)
  {
  }

  lemma SendsDone(c: Config, e: Policy, hs: seq<Step>, s: State) returns (ht: seq<Step>, t: State, p: Packet)
    requires Good(c, s) && s.fb.pc.Sending? && s.fb.complete
    ensures Good(c, t) && Reaches(c, e, hs, s, ht, t) && p in t.net && SaysDone(c, p) && p.hi == s.fb.sc.hi
    ensures t == s.(fb := s.fb.(pc := Counting), net := s.net + multiset{p})
  {
    hide Good, Reaches;
    DoneIsBare(c, s);
    ht, t := GoFb(c, e, hs, s, Fb);
    p := Report(c, s.fb);
  }

  /** A report that says DONE asks for nothing. */
  lemma DoneIsBare(c: Config, s: State)
    requires Good(c, s) && s.fb.pc.Sending? && s.fb.complete
    ensures s.fb.out == []
  {
    hide HeardInv, OwnInv, FrontInv, StageInv, SinkInv, PoolInv, CountInv, ScanInv, NetInv, SendInv, AskedInv, DoneInv;
    Parts(c, s);
  }

  /** A tick that started too early to see completion runs out; the next one will see it. */
  lemma {:induction false} NextTick(c: Config, e: Policy, hs: seq<Step>, s: State) returns (ht: seq<Step>, t: State)
    requires Good(c, s) && Complete(c, s) && !Silent(s.fb)
    ensures Good(c, t) && Reaches(c, e, hs, s, ht, t) && Complete(c, t) && Promising(t.fb)
    decreases FbRank(s.fb.pc), FbLeft(s.fb)
  {
    hide Good, Reaches, FbRank, FbLeft, FbApply, Promising;
    if Promising(s.fb) {
      ht, t := hs, s;
      ReachSelf(c, e, hs, s);
    } else if s.fb.pc.Sleeping? {
      ht, t := WakeUp(c, e, hs, s);
    } else if s.fb.pc.Counting? && s.fb.complete {
      var ha, a := SleepAgain(c, e, hs, s);
      ht, t := WakeUp(c, e, ha, a);
      ReachJoin(c, e, hs, s, ha, a, ht, t);
    } else {
      var cap := Cap(c, e, hs);
      var st := FbStep(s.fb, cap);
      NotGone(s.fb);
      FbMoves(c, s, cap);
      NotYetSilent(c, s, cap);
      FeedbackShape(c, s, st);
      var hm, m := GoFb(c, e, hs, s, st);
      SameCompletion(c, s, m);
      ht, t := NextTick(c, e, hm, m);
      ReachJoin(c, e, hs, s, hm, m, ht, t);
    }
  }

  lemma NotGone(b: Feedbacker)
    requires !Silent(b)
    ensures !b.pc.Gone?
  {
  }

  lemma WakeUp(c: Config, e: Policy, hs: seq<Step>, s: State) returns (ht: seq<Step>, t: State)
    requires Good(c, s) && Complete(c, s) && s.fb.pc.Sleeping?
    ensures Good(c, t) && Reaches(c, e, hs, s, ht, t) && Complete(c, t) && Promising(t.fb)
    ensures t.net == s.net && t.snd == s.snd && t.fb.doneSends == s.fb.doneSends
  {
    hide Good, Reaches;
    ht, t := GoFb(c, e, hs, s, TickOf(e, hs, s.fb));
  }

  lemma SleepAgain(c: Config, e: Policy, hs: seq<Step>, s: State) returns (ht: seq<Step>, t: State)
    requires Good(c, s) && Complete(c, s) && s.fb.pc.Counting? && s.fb.complete && !Silent(s.fb)
    ensures Good(c, t) && Reaches(c, e, hs, s, ht, t) && Complete(c, t) && t.fb.pc.Sleeping?
  {
    hide Good, Reaches;
    ht, t := GoFb(c, e, hs, s, Fb);
  }

  lemma NotYetSilent(c: Config, s: State, cap: nat)
    requires FbEnabled(c, s, FbStep(s.fb, cap))
    requires !Promising(s.fb) && !(s.fb.pc.Counting? && s.fb.complete)
    ensures !Silent(FbApply(c, s, FbStep(s.fb, cap)).fb)
  {
    hide PopOne, Top, CanPop, Reports, ScanOne, ScanEnd, DueAt, AdvanceOne, CanAdvance;
  }

  // ---- the sender hears it and leaves ----

  lemma HearDone(c: Config, e: Policy, hs: seq<Step>, s: State) returns (ht: seq<Step>, t: State)
    requires Good(c, s) && (Told(s.snd) || InFlight(c, s.net))
    ensures Good(c, t) && Reaches(c, e, hs, s, ht, t) && (t.snd.done || t.snd.pacing.Left?)
  {
    hide Good, Reaches, SaysDone;
    if s.snd.pacing.Left? {
      ht, t := hs, s;
      ReachSelf(c, e, hs, s);
    } else {
      ht, t := ClearInbox(c, e, hs, s);
      if !t.snd.done {
        var ha, a := ht, t;
        var p :| p in a.net && SaysDone(c, p);
        ht, t := TakeDone(c, e, ha, a, p);
        ReachJoin(c, e, hs, s, ha, a, ht, t);
      }
    }
  }

  lemma TakeDone(c: Config, e: Policy, hs: seq<Step>, s: State, p: Packet) returns (ht: seq<Step>, t: State)
    requires Good(c, s) && s.snd.inbox.Waiting? && !s.snd.done && p in s.net && SaysDone(c, p)
    ensures Good(c, t) && Reaches(c, e, hs, s, ht, t) && t.snd.done
  {
    hide Good, Reaches;
    var ha, a := GoSend(c, e, hs, s, InRecv(p));
    assert a.snd == s.snd.(inbox := Got(p.nacks, true));
    var hb, b := GoSend(c, e, ha, a, InPush);
    assert b.snd.inbox == Pushed(true);
    ht, t := GoSend(c, e, hb, b, InDone);
    ReachJoin(c, e, hs, s, ha, a, hb, b);
    ReachJoin(c, e, hs, s, hb, b, ht, t);
  }

  lemma {:induction false} Leave(c: Config, e: Policy, hs: seq<Step>, s: State) returns (ht: seq<Step>, t: State)
    requires Good(c, s) && (s.snd.done || s.snd.pacing.Left?)
    ensures Good(c, t) && Reaches(c, e, hs, s, ht, t) && t.snd.pacing.Left?
    decreases Queue(s.snd), Cycle(s.snd.pacing)
  {
    hide Good, Reaches, SendInv, AskedInv, SenderApply;
    if s.snd.pacing.Left? {
      ht, t := hs, s;
      ReachSelf(c, e, hs, s);
    } else if s.snd.pacing.AtTop? {
      ht, t := LeaveTop(c, e, hs, s);
    } else {
      SenderFacts(c, s);
      PaceMoves(c, s);
      SenderFrames(c, s, PaceStep(s.snd));
      var hm, m := GoSend(c, e, hs, s, PaceStep(s.snd));
      ht, t := Leave(c, e, hm, m);
      ReachJoin(c, e, hs, s, hm, m, ht, t);
    }
  }

  lemma LeaveTop(c: Config, e: Policy, hs: seq<Step>, s: State) returns (ht: seq<Step>, t: State)
    requires Good(c, s) && s.snd.done && s.snd.pacing.AtTop?
    ensures Good(c, t) && Reaches(c, e, hs, s, ht, t) && t.snd.pacing.Left?
  {
    hide Good, Reaches;
    ht, t := GoSend(c, e, hs, s, PaceLeave);
  }

  lemma ToSenderDone(c: Config, e: Policy, hs: seq<Step>, s: State) returns (ht: seq<Step>, t: State)
    requires Good(c, s) && CanHear(c, s) && (ReportsFit(c) || Complete(c, s))
    ensures Reaches(c, e, hs, s, ht, t) && t.snd.pacing.Left?
  {
    hide Good, Reaches, Told, Silent, SaysDone;
    var ha, a := hs, s;
    if Told(s.snd) || InFlight(c, s.net) {
      ReachSelf(c, e, hs, s);
    } else {
      var hx, x := hs, s;
      if Complete(c, s) {
        ReachSelf(c, e, hs, s);
      } else {
        hx, x := ToCompletion(c, e, hs, s);
      }
      var hy, y := NextTick(c, e, hx, x);
      ReachJoin(c, e, hs, s, hx, x, hy, y);
      var p: Packet;
      ha, a, p := PromisedDone(c, e, hy, y);
      ReachJoin(c, e, hs, s, hy, y, ha, a);
    }
    var hb, b := HearDone(c, e, ha, a);
    ReachJoin(c, e, hs, s, ha, a, hb, b);
    ht, t := Leave(c, e, hb, b);
    ReachJoin(c, e, hs, s, hb, b, ht, t);
  }

  // ---- or never does ----

  lemma BatchIsData(c: Config, s: State)
    requires Inv(c, s)
    ensures forall p :: p in s.snd.batch ==> p.Data?
  {
    hide HeardInv, OwnInv, FrontInv, StageInv, SinkInv, PoolInv, CountInv, ScanInv, FinishInv, NetInv, AskedInv, DoneInv;
    Parts(c, s);
  }

  lemma QuietNet(c: Config, s: State, st: Step)
    requires SenderEnabled(c, s, st)
    requires forall p :: p in s.snd.batch ==> p.Data?
    ensures forall p :: p in SenderApply(c, s, st).net ==> p in s.net || !p.Feedback?
  {
    forall p | p in SenderApply(c, s, st).net
      ensures p in s.net || !p.Feedback?
    {
      assert p in multiset(s.snd.batch) ==> p in s.snd.batch;
    }
  }

  lemma QuietTold(c: Config, s: State, st: Step)
    requires SenderEnabled(c, s, st) && !Told(s.snd) && !InFlight(c, s.net)
    ensures !Told(SenderApply(c, s, st).snd)
  {
    hide BuildApply, Total;
    if BuildStep(st) {
      BuildFrame(c, s.snd, st);
    } else if st.InRecv? {
      assert !SaysDone(c, st.p);
    }
  }

  lemma QuietSender(c: Config, s: State, st: Step)
    requires Inv(c, s) && SenderEnabled(c, s, st) && !Told(s.snd) && !InFlight(c, s.net)
    ensures var t := SenderApply(c, s, st); !Told(t.snd) && !InFlight(c, t.net) && t.fb == s.fb
  {
    hide Inv, SenderApply, SenderEnabled;
    BatchIsData(c, s);
    QuietNet(c, s, st);
    QuietTold(c, s, st);
    SenderShape(c, s, st);
  }

  lemma QuietFeedback(c: Config, s: State, st: Step)
    requires FbEnabled(c, s, st) && Silent(s.fb)
    ensures var t := FbApply(c, s, st); Silent(t.fb) && t.net == s.net && t.snd == s.snd
  {
  }

  lemma QuietRest(c: Config, s: State, st: Step)
    requires Enabled(c, s, st) && !ActorOf(st).TheSender? && !ActorOf(st).TheReporter?
    ensures forall p :: p in Apply(c, s, st).net && SaysDone(c, p) ==> p in s.net
  {
    hide WorkApply, DeliverApply, FlushApply;
    match ActorOf(st)
    case TheNetwork =>
    case TheFlusher => FlushShape(c, s);
    case TheWorkers =>
      if st.Work? {
        WorkShape(c, s, st.w);
      } else if st.Deliver? {
        DeliverTakes(c, s, st.w, st.p, st.parsed);
      }
  }

  lemma DeliverTakes(c: Config, s: State, w: nat, p: Packet, parsed: bool)
    requires w < |s.wk| && !p.Feedback?
    ensures DeliverApply(c, s, w, p, parsed).net <= s.net
  {
  }

  lemma QuietStep(c: Config, s: State, st: Step)
    requires Inv(c, s) && Enabled(c, s, st) && !CanHear(c, s)
    ensures !CanHear(c, Apply(c, s, st))
  {
    hide Inv, SenderApply, FbApply, Told, Silent, SaysDone;
    if ActorOf(st).TheReporter? {
      QuietFeedback(c, s, st);
    } else if ActorOf(st).TheSender? {
      QuietSender(c, s, st);
    } else {
      hide Apply;
      OwnParts(c, s, st);
      QuietRest(c, s, st);
    }
  }

  lemma {:induction false} QuietRun(c: Config, s: State, steps: seq<Step>, t: State)
    requires Inv(c, s) && Runs(c, s, steps, t) && !CanHear(c, s)
    ensures !CanHear(c, t)
    decreases |steps|
  {
    hide Inv, Enabled, Apply, CanHear;
    if steps != [] {
      QuietStep(c, s, steps[0]);
      StepKeeps(c, s, steps[0]);
      QuietRun(c, Apply(c, s, steps[0]), steps[1..], t);
    }
  }

  /** Can the sender finish, by a run of the policy in which nothing more goes wrong? */
  ghost predicate MayFinish(c: Config, e: Policy, past: seq<Step>, s: State) {
    exists steps, t :: SmoothRun(c, e, past, s, steps, t) && t.snd.pacing.Left?
  }

  /** Whatever the policy, if reports fit or the transfer is complete already, the sender can
      finish by a run of it without further mishap from exactly those reachable states in
      which no direct write has failed and a DONE was heard, is in flight, or has yet to be
      said. Once all eight are lost and the receiver gone, nothing helps, whether reports
      fit or not. */
  lemma SenderCanFinish(c: Config, e: Policy, s0: State, past: seq<Step>, s: State)
    requires Init(c, s0) && Runs(c, s0, past, s)
    ensures MayFinish(c, e, past, s) ==> s.stuck == {} && CanHear(c, s)
    ensures ReportsFit(c) || Complete(c, s) ==> (MayFinish(c, e, past, s) <==> s.stuck == {} && CanHear(c, s))
  {
    hide Runs, Init, CanHear, Inv, Follows;
    ReachableInv(c, s0, past, s);
    if s.stuck == {} && CanHear(c, s) {
      if ReportsFit(c) || Complete(c, s) {
        assert Good(c, s);
        var ht, t := ToSenderDone(c, e, past, s);
        assert SmoothRun(c, e, past, s, ht[|past|..], t);
      }
    } else {
      forall steps, t | SmoothRun(c, e, past, s, steps, t)
        ensures !t.snd.pacing.Left?
      {
        FollowsRuns(c, e, past, s, steps, t);
        if s.stuck != {} {
          StuckRun(c, s, steps, t);
          RunKeeps(c, s, steps, t);
          NotComplete(c, t);
        } else {
          QuietRun(c, s, steps, t);
          NotTold(c, t);
        }
      }
    }
  }

  lemma NotComplete(c: Config, t: State)
    requires Inv(c, t) && !Complete(c, t)
    ensures !t.snd.pacing.Left?
  {
    Parts(c, t);
    if t.snd.pacing.Left? {
      DoneMeansComplete(c, t);
    }
  }

  lemma NotTold(c: Config, t: State)
    requires !CanHear(c, t)
    ensures !t.snd.pacing.Left?
  {
  }
}
