/** The fixed pool of receive slots of the registered-I/O receiver: who owns each slot
    while the kernel completes receives and refuses re-posts as it likes. */
module Rio {
  import opened Prelude

  const NSLOTS: nat := 4096
  const DEQ: nat := 512
  const CQ_SIZE: nat := 4112
  const SEND_CTX: nat := 0xFFFF_FFFF_FFFF_FFFF

  /** One completion: its request context, its status (0 is success) and its length. */
  datatype Completion = Completion(ctx: nat, status: nat, bytes: nat)

  /** Where the harvesting thread is. Between calls of `recv` it may read the batch. */
  datatype Phase =
    | Idle
    | Reposting(todo: seq<nat>)
    | Polling(first: bool)
    | Waiting

  datatype Pool = Pool(
    posted: set<nat>,               // slots the kernel may write into
    cq: seq<Completion>,            // the receive completion queue
    overflowed: bool,
    pending: seq<nat>,
    batch: seq<(nat, nat)>,         // slot and length of each datagram to read
    armed: bool,
    phase: Phase)

  datatype Step =
    | Land(done: Completion)        // the kernel completes a posted receive
    | Call | Post(ok: bool) | Clear
    | Dequeue | Corrupt
    | Arm(ok: bool) | Wait(signalled: bool)

  predicate IsSlot(k: nat) { k < NSLOTS }

  function AllSlots(): set<nat> { set k: nat | k < NSLOTS && IsSlot(k) }

  /** After `RioCore::new`: every receive is posted and the notification armed. */
  function Fresh(): Pool {
    Pool(AllSlots(), [], false, [], [], true, Idle)
  }

  function Take(cq: seq<Completion>): nat { if |cq| < DEQ then |cq| else DEQ }

  /** The batch made of some completions; send completions are skipped. */
  function Harvest(results: seq<Completion>): seq<(nat, nat)>
    decreases |results|
  {
    if results == [] then []
    else
      var init, r := Harvest(results[..|results| - 1]), results[|results| - 1];
      if r.ctx == SEND_CTX then init else init + [(r.ctx, if r.status == 0 then r.bytes else 0)]
  }

  function Slots(batch: seq<(nat, nat)>): (s: seq<nat>)
    ensures |s| == |batch|
  {
    seq(|batch|, i requires 0 <= i < |batch| => batch[i].0)
  }

  function Contexts(cq: seq<Completion>): (s: seq<nat>)
    ensures |s| == |cq|
  {
    seq(|cq|, i requires 0 <= i < |cq| => cq[i].ctx)
  }

  predicate Enabled(p: Pool, st: Step) {
    match st
    case Land(d) => d.ctx in p.posted
    case Call => p.phase.Idle?
    case Post(_) => p.phase.Reposting? && p.phase.todo != []
    case Clear => p.phase.Reposting? && p.phase.todo == []
    case Dequeue => p.phase.Polling? && !p.overflowed
    case Corrupt => p.phase.Polling? && p.overflowed
    case Arm(_) => p.phase.Waiting? && !p.armed
    case Wait(_) => p.phase.Waiting? && p.armed
  }

  function Apply(p: Pool, st: Step): Pool
    requires Enabled(p, st)
  {
    match st
    case Land(d) =>
      if |p.cq| < CQ_SIZE then p.(posted := p.posted - {d.ctx}, cq := p.cq + [d])
      else p.(posted := p.posted - {d.ctx}, overflowed := true)
    case Call => p.(phase := Reposting(p.pending), pending := [])
    case Post(ok) =>
      var idx, rest := p.phase.todo[0], p.phase.todo[1..];
      if ok then p.(phase := Reposting(rest), posted := p.posted + {idx})
      else p.(phase := Reposting(rest), pending := p.pending + [idx])
    case Clear => p.(phase := Polling(true), batch := [])
    case Dequeue =>
      var n := Take(p.cq);
      if n == 0 then p.(phase := if p.phase.first then Waiting else Idle)
      else
        var batch := Harvest(p.cq[..n]);
        p.(phase := Idle, cq := p.cq[n..], batch := batch, pending := p.pending + Slots(batch))
    case Corrupt => p.(phase := Idle)
    case Arm(ok) => if ok then p.(armed := true) else p.(phase := Idle)
    case Wait(signalled) => if signalled then p.(armed := false, phase := Polling(false)) else p.(phase := Idle)
  }

  ghost predicate Runs(p: Pool, steps: seq<Step>, q: Pool)
    decreases |steps|
  {
    if steps == [] then p == q
    else Enabled(p, steps[0]) && Runs(Apply(p, steps[0]), steps[1..], q)
  }

  // ---- ownership ----

  function Todo(p: Pool): seq<nat> { if p.phase.Reposting? then p.phase.todo else [] }

  /** Every slot has exactly one owner. */
  predicate Owned(p: Pool) {
    multiset(p.posted) + multiset(Contexts(p.cq)) + multiset(p.pending) + multiset(Todo(p)) == multiset(AllSlots())
  }

  /** Between calls, what can be read is pending: neither posted nor queued. */
  predicate BatchHeld(p: Pool) {
    p.phase.Idle? ==> multiset(Slots(p.batch)) <= multiset(p.pending)
  }

  predicate Inv(p: Pool) {
    Owned(p) && BatchHeld(p) && !p.overflowed && (p.phase.Polling? || p.phase.Waiting? ==> p.batch == [])
  }

  lemma QueueFits(p: Pool)
    requires Owned(p)
    ensures |p.posted| + |p.cq| + |p.pending| + |Todo(p)| == NSLOTS
  {
    CountBelow(AllSlots(), NSLOTS);
    assert |multiset(AllSlots())| == NSLOTS;
  }

  lemma {:induction false} HarvestSlots(results: seq<Completion>)
    requires forall i :: 0 <= i < |results| ==> results[i].ctx != SEND_CTX
    ensures Slots(Harvest(results)) == Contexts(results)
    decreases |results|
  {
    if results != [] {
      var init := results[..|results| - 1];
      HarvestSlots(init);
      assert Slots(Harvest(results)) == Slots(Harvest(init)) + [results[|results| - 1].ctx];
      assert Contexts(results) == Contexts(init) + [results[|results| - 1].ctx];
    }
  }

  lemma QueueHoldsSlots(p: Pool, i: nat)
    requires Owned(p) && i < |p.cq|
    ensures p.cq[i].ctx < NSLOTS
  {
    assert Contexts(p.cq)[i] == p.cq[i].ctx;
    assert p.cq[i].ctx in multiset(AllSlots());
  }

  lemma LandKeeps(p: Pool, d: Completion)
    requires Inv(p) && Enabled(p, Land(d))
    ensures Inv(Apply(p, Land(d)))
  {
    QueueFits(p);
    assert Contexts(p.cq + [d]) == Contexts(p.cq) + [d.ctx];
  }

  lemma PostKeeps(p: Pool, ok: bool)
    requires Inv(p) && Enabled(p, Post(ok))
    ensures Inv(Apply(p, Post(ok)))
  {
    var idx, rest := p.phase.todo[0], p.phase.todo[1..];
    assert p.phase.todo == [idx] + rest;
    assert multiset(p.phase.todo) == multiset{idx} + multiset(rest);
    assert multiset(AllSlots())[idx] <= 1;
  }

  lemma DequeueKeeps(p: Pool)
    requires Inv(p) && Enabled(p, Dequeue)
    ensures Inv(Apply(p, Dequeue))
  {
    var n := Take(p.cq);
    if n > 0 {
      var head, tail := p.cq[..n], p.cq[n..];
      forall i | 0 <= i < |head|
        ensures head[i].ctx != SEND_CTX
      {
        QueueHoldsSlots(p, i);
      }
      HarvestSlots(head);
      assert Contexts(p.cq) == Contexts(head) + Contexts(tail);
    }
  }

  lemma StepKeeps(p: Pool, st: Step)
    requires Inv(p) && Enabled(p, st)
    ensures Inv(Apply(p, st))
  {
    match st
    case Land(d) => LandKeeps(p, d);
    case Post(ok) => PostKeeps(p, ok);
    case Dequeue => DequeueKeeps(p);
    case Call =>
    case Clear =>
    case Corrupt =>
    case Arm(_) =>
    case Wait(_) =>
  }

  lemma {:induction false} RunKeeps(p: Pool, steps: seq<Step>, q: Pool)
    requires Inv(p) && Runs(p, steps, q)
    ensures Inv(q)
    decreases |steps|
  {
    hide Inv, Apply, Enabled;
    if steps != [] {
      StepKeeps(p, steps[0]);
      RunKeeps(Apply(p, steps[0]), steps[1..], q);
    }
  }

  // ---- what holds in every run ----

  function Owners(p: Pool, k: nat): nat {
    multiset(p.posted)[k] + multiset(Contexts(p.cq))[k] + multiset(p.pending)[k] + multiset(Todo(p))[k]
  }

  lemma FreshInv()
    ensures Inv(Fresh())
  {
  }

  /** However receives complete and whichever re-posts fail, each of the 4096 slots always
      has exactly one owner, and nothing else is ever owned: no slot leaks. */
  lemma SlotsConserved(steps: seq<Step>, q: Pool, k: nat)
    requires Runs(Fresh(), steps, q)
    ensures Owners(q, k) == if k < NSLOTS then 1 else 0
    ensures |q.posted| + |q.cq| + |q.pending| + |Todo(q)| == NSLOTS
  {
    FreshInv();
    RunKeeps(Fresh(), steps, q);
    QueueFits(q);
    assert multiset(AllSlots())[k] == if IsSlot(k) then 1 else 0;
  }

  /** The receive completion queue never overflows, so it is never reported corrupt. */
  lemma NeverOverflows(steps: seq<Step>, q: Pool)
    requires Runs(Fresh(), steps, q)
    ensures |q.cq| <= NSLOTS < CQ_SIZE && !Enabled(q, Corrupt)
  {
    FreshInv();
    RunKeeps(Fresh(), steps, q);
    QueueFits(q);
  }

  /** Between calls every slot that can be read belongs to the reader alone: it is a slot
      of the pool, not posted, not queued, and in the batch once. */
  lemma ReadableIsOwned(steps: seq<Step>, q: Pool, i: nat, j: nat)
    requires Runs(Fresh(), steps, q) && q.phase.Idle? && i < |q.batch| && j < |q.batch|
    ensures q.batch[i].0 < NSLOTS && q.batch[i].0 !in q.posted && q.batch[i].0 !in Contexts(q.cq)
    ensures q.batch[i].0 in q.pending
    ensures i != j ==> q.batch[i].0 != q.batch[j].0
  {
    FreshInv();
    RunKeeps(Fresh(), steps, q);
    var k := q.batch[i].0;
    assert Slots(q.batch)[i] == k && Slots(q.batch)[j] == q.batch[j].0;
    SlotsConserved(steps, q, k);
    assert multiset(Slots(q.batch))[k] <= multiset(q.pending)[k] <= 1;
    if i != j {
      TwiceCounts(Slots(q.batch), i, j);
    }
  }

  lemma TwiceCounts(s: seq<nat>, i: nat, j: nat)
    requires i < |s| && j < |s| && i != j
    ensures s[i] == s[j] ==> multiset(s)[s[i]] >= 2
  {
    var a, b := if i < j then i else j, if i < j then j else i;
    assert s == s[..a] + [s[a]] + s[a + 1..b] + [s[b]] + s[b + 1..];
  }

  /** The byte ranges that `message_mut` hands out for one batch lie in the region and do
      not overlap. */
  lemma ViewsDisjoint(steps: seq<Step>, q: Pool, bufLen: nat, i: nat, j: nat)
    requires Runs(Fresh(), steps, q) && q.phase.Idle? && i < |q.batch| && j < |q.batch| && i != j
    ensures var (a, b) := (View(q.batch[i], bufLen), View(q.batch[j], bufLen));
      a.1 <= NSLOTS * bufLen && (a.1 <= b.0 || b.1 <= a.0)
  {
    ReadableIsOwned(steps, q, i, j);
    var a, b := q.batch[i].0, q.batch[j].0;
    Stacked(a, NSLOTS, bufLen);
    if a < b {
      Stacked(a, b, bufLen);
    } else {
      Stacked(b, a, bufLen);
    }
  }

  /** `message_mut`: from where to where a datagram is read. */
  function View(msg: (nat, nat), bufLen: nat): (nat, nat) {
    (msg.0 * bufLen, msg.0 * bufLen + if msg.1 < bufLen then msg.1 else bufLen)
  }

  lemma Stacked(a: nat, b: nat, n: nat)
    requires a < b
    ensures a * n + n <= b * n
  {
    assert (a + 1) * n <= b * n;
  }

  // ---- the harvester ----

  lemma {:induction false} RunsThen(p: Pool, steps: seq<Step>, q: Pool, st: Step)
    requires Runs(p, steps, q) && Enabled(q, st)
    ensures Runs(p, steps + [st], Apply(q, st))
    decreases |steps|
  {
    if steps == [] {
      assert [st][1..] == [];
    } else {
      RunsThen(Apply(p, steps[0]), steps[1..], q, st);
      assert (steps + [st])[1..] == steps[1..] + [st];
    }
  }

  lemma NoSteps(p: Pool)
    ensures Runs(p, [], p)
  {
  }

  /** What the kernel does during one call of `recv`: which re-posts it refuses, what it
      completes before the first dequeue and while the thread waits, and how arming and
      waiting end. */
  datatype World = World(
    refused: set<nat>, landed: seq<Completion>, armOk: bool, signalled: bool, later: seq<Completion>)

  datatype Outcome = Got(n: nat) | WouldBlock | Failed

  /** `BatchReceiver`, with the kernel's queues that it reaches through `RioCore`. */
  class BatchReceiver {
    var posted: set<nat>
    var cq: seq<Completion>
    var overflowed: bool
    var pending: seq<nat>
    var batch: seq<(nat, nat)>
    var armed: bool

    ghost function InPhase(phase: Phase): Pool
      reads this
    {
      Pool(posted, cq, overflowed, pending, batch, armed, phase)
    }

    constructor (slots: set<nat>)
      ensures InPhase(Idle) == Pool(slots, [], false, [], [], true, Idle)
    {
      posted, cq, overflowed := slots, [], false;
      pending, batch, armed := [], [], true;
    }

    /** `post_recv` */
    method PostRecv(idx: nat, ok: bool)
      modifies this`posted
      ensures posted == old(posted) + if ok then {idx} else {}
    {
      if ok {
        posted := posted + {idx};
      }
    }

    /** The kernel completes those of `done` that are posted when their turn comes. */
    method Deliver(done: seq<Completion>, ghost phase: Phase, ghost start: Pool, ghost before: seq<Step>)
        returns (ghost steps: seq<Step>)
      requires Runs(start, before, InPhase(phase))
      modifies this`posted, this`cq, this`overflowed
      ensures Runs(start, steps, InPhase(phase))
    {
      steps := before;
      for i := 0 to |done|
        invariant Runs(start, steps, InPhase(phase))
      {
        var d := done[i];
        if d.ctx in posted {
          RunsThen(start, steps, InPhase(phase), Land(d));
          steps := steps + [Land(d)];
          posted := posted - {d.ctx};
          if |cq| < CQ_SIZE {
            cq := cq + [d];
          } else {
            overflowed := true;
          }
        }
      }
    }

    /** The `retain` at the top of `recv`: slots whose re-post fails stay pending. */
    method Repost(refused: set<nat>) returns (ghost steps: seq<Step>)
      modifies this`posted, this`pending
      ensures Runs(old(InPhase(Idle)), steps, InPhase(Reposting([])))
      ensures pending == Kept(old(pending), refused)
    {
      hide Runs;
      ghost var start := InPhase(Idle);
      var all := pending;
      assert Runs(start, [], start) by { NoSteps(start); }
      RunsThen(start, [], start, Call);
      steps := [] + [Call];
      pending := [];
      assert all[0..] == all;
      for i := 0 to |all|
        invariant Runs(start, steps, InPhase(Reposting(all[i..])))
        invariant pending == Kept(all[..i], refused)
      {
        var idx := all[i];
        var ok := idx !in refused;
        ghost var now := InPhase(Reposting(all[i..]));
        RunsThen(start, steps, now, Post(ok));
        steps := steps + [Post(ok)];
        PostRecv(idx, ok);
        if !ok {
          pending := pending + [idx];
        }
        assert all[i..][1..] == all[i + 1..] && all[..i + 1][..i] == all[..i];
        assert InPhase(Reposting(all[i + 1..])) == Apply(now, Post(ok));
      }
      assert all[..|all|] == all && all[|all|..] == [];
    }

    /** Turns the first `n` completions into the batch. */
    method Collect(n: nat)
      requires n <= |cq|
      modifies this`cq, this`batch, this`pending
      ensures cq == old(cq[n..]) && batch == Harvest(old(cq[..n])) && pending == old(pending) + Slots(batch)
    {
      var results := cq[..n];
      cq := cq[n..];
      batch := [];
      assert pending + Slots([]) == pending;
      for k := 0 to n
        invariant cq == old(cq[n..])
        invariant batch == Harvest(results[..k]) && pending == old(pending) + Slots(batch)
      {
        var res := results[k];
        assert results[..k + 1][..k] == results[..k];
        if res.ctx != SEND_CTX {
          var bytes := if res.status == 0 then res.bytes else 0;
          assert Slots(batch + [(res.ctx, bytes)]) == Slots(batch) + [res.ctx];
          batch := batch + [(res.ctx, bytes)];
          pending := pending + [res.ctx];
        }
      }
      assert results[..n] == results;
    }

    /** One look at the completion queue: nothing yet, trouble, or a batch. */
    method Poll(ghost first: bool, ghost start: Pool, ghost before: seq<Step>) returns (r: Outcome,
                ghost steps: seq<Step>)
      requires batch == [] && Runs(start, before, InPhase(Polling(first)))
      modifies this`cq, this`batch, this`pending
      ensures Runs(start, steps, InPhase(if first && r.WouldBlock? then Waiting else Idle))
      ensures pending == old(pending) + Slots(batch)
      ensures r.Got? ==> r.n == |batch|
      ensures !r.Got? ==> batch == []
    {
      hide Runs;
      ghost var now := InPhase(Polling(first));
      assert pending + Slots([]) == pending;
      if overflowed {
        RunsThen(start, before, now, Corrupt);
        return Failed, before + [Corrupt];
      }
      RunsThen(start, before, now, Dequeue);
      steps := before + [Dequeue];
      var n := Take(cq);
      if n == 0 {
        return WouldBlock, steps;
      }
      Collect(n);
      assert InPhase(Idle) == Apply(now, Dequeue);
      r := Got(|batch|);
    }

    /** Arms the notification if need be and waits; true if something was signalled. */
    method Await(armOk: bool, signalled: bool, ghost start: Pool, ghost before: seq<Step>)
        returns (r: Option<bool>, ghost steps: seq<Step>)
      requires Runs(start, before, InPhase(Waiting))
      modifies this`armed
      ensures Runs(start, steps, InPhase(if r == Some(true) then Polling(false) else Idle))
    {
      hide Runs;
      steps := before;
      if !armed {
        RunsThen(start, steps, InPhase(Waiting), Arm(armOk));
        steps := steps + [Arm(armOk)];
        if !armOk {
          return None, steps;
        }
        armed := true;
      }
      RunsThen(start, steps, InPhase(Waiting), Wait(signalled));
      steps := steps + [Wait(signalled)];
      if signalled {
        armed := false;
      }
      r := Some(signalled);
    }

    /** `recv`: a run of the pool from one idle state to the next. Every pending slot is
        tried again; the slots pending afterwards are those refused and those of the batch. */
    method Recv(w: World) returns (r: Outcome, ghost steps: seq<Step>)
      modifies this
      ensures Runs(old(InPhase(Idle)), steps, InPhase(Idle))
      ensures pending == Kept(old(pending), w.refused) + Slots(batch)
      ensures r.Got? ==> r.n == |batch|
      ensures !r.Got? ==> batch == []
    {
      hide Runs, Harvest, Kept;
      ghost var start := InPhase(Idle);
      steps := Repost(w.refused);
      RunsThen(start, steps, InPhase(Reposting([])), Clear);
      steps := steps + [Clear];
      batch := [];
      steps := Deliver(w.landed, Polling(true), start, steps);
      r, steps := Poll(true, start, steps);
      if r.WouldBlock? {
        var woken;
        woken, steps := Await(w.armOk, w.signalled, start, steps);
        if woken.None? {
          return Failed, steps;
        }
        if woken.value {
          steps := Deliver(w.later, Polling(false), start, steps);
          r, steps := Poll(false, start, steps);
        }
      }
    }
  }

  /** The slots that stay pending when the kernel refuses `refused`. */
  function Kept(pending: seq<nat>, refused: set<nat>): seq<nat>
    decreases |pending|
  {
    if pending == [] then []
    else
      var init, idx := Kept(pending[..|pending| - 1], refused), pending[|pending| - 1];
      if idx in refused then init + [idx] else init
  }

  /** `RioCore::new` posts every slot, gives up on the first refusal, and then arms the
      notification, which may fail as well. */
  method Open(refused: set<nat>, armOk: bool) returns (r: Option<BatchReceiver>)
    ensures r.Some? <==> refused !! AllSlots() && armOk
    ensures r.Some? ==> fresh(r.value) && r.value.InPhase(Idle) == Fresh()
  {
    var b := new BatchReceiver({});
    for i := 0 to NSLOTS
      invariant fresh(b) && b.InPhase(Idle) == Pool(b.posted, [], false, [], [], true, Idle)
      invariant forall k :: k in b.posted <==> 0 <= k < i
      invariant forall k: nat :: k < i ==> k !in refused
    {
      var ok := i !in refused;
      b.PostRecv(i, ok);
      if !ok {
        assert IsSlot(i);
        return None;
      }
    }
    assert b.posted == AllSlots();
    if !armOk {
      return None;
    }
    r := Some(b);
  }

  /** A slot stays pending exactly as often as it was, if its re-post is refused, and not
      at all otherwise: none is dropped and none invented. */
  lemma {:induction false} KeptExactly(pending: seq<nat>, refused: set<nat>, k: nat)
    ensures multiset(Kept(pending, refused))[k] == if k in refused then multiset(pending)[k] else 0
    decreases |pending|
  {
    if pending != [] {
      var init, idx := pending[..|pending| - 1], pending[|pending| - 1];
      KeptExactly(init, refused, k);
      assert pending == init + [idx];
    }
  }
}
