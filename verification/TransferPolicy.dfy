/** Runs of the program proper: how many packets a batch has, how many NACKs a report may
    carry, how long to wait before asking again and when the feedback thread wakes are
    computed by the code from rates, estimates and clocks. A policy stands for any way of
    computing them from all that has happened so far. */
module TransferPolicy {
  import opened Prelude
  import opened TransferModel

  type BatchSize = n: nat | 1 <= n <= MAX_BATCH witness 1
  type Positive = n: nat | 1 <= n witness 1
  type RtoMicros = r: real | 2000.0 <= r <= 4000000.0 witness 2000.0

  datatype Policy = Policy(
    batch: seq<Step> -> BatchSize,         // `recompute`
    perInterval: seq<Step> -> Positive,    // blocks the sender can resend in a feedback interval
    rto: seq<Step> -> RtoMicros,           // the path estimator
    wait: seq<Step> -> Positive)           // microseconds between two ticks

  /** `nack_cap` */
  function Cap(c: Config, e: Policy, past: seq<Step>): (cap: nat)
    ensures 1 <= cap <= c.maxNacks
  {
    if e.perInterval(past) < c.maxNacks then e.perInterval(past) else c.maxNacks
  }

  predicate Obeys(c: Config, e: Policy, past: seq<Step>, s: State, st: Step) {
    match st
    case PaceTop(n) => n == e.batch(past)
    case FbPeer(cap) => cap == Cap(c, e, past)
    case Tick(now, rto) => now == s.fb.now + e.wait(past) && rto == e.rto(past)
    case _ => true
  }

  /** A run from `s`, after the steps of `past`, whose every choice is the policy's. */
  predicate Follows(c: Config, e: Policy, past: seq<Step>, s: State, steps: seq<Step>, t: State)
    decreases |steps|
  {
    if steps == [] then s == t
    else
      && Enabled(c, s, steps[0]) && Obeys(c, e, past, s, steps[0])
      && Follows(c, e, past + [steps[0]], Apply(c, s, steps[0]), steps[1..], t)
  }

  predicate AllSmooth(steps: seq<Step>) {
    forall k :: 0 <= k < |steps| ==> Smooth(steps[k])
  }

  /** Such a run in which nothing goes wrong. */
  predicate SmoothRun(c: Config, e: Policy, past: seq<Step>, s: State, steps: seq<Step>, t: State) {
    Follows(c, e, past, s, steps, t) && AllSmooth(steps)
  }

  lemma {:induction false} FollowsRuns(c: Config, e: Policy, past: seq<Step>, s: State, steps: seq<Step>, t: State)
    requires Follows(c, e, past, s, steps, t)
    ensures Runs(c, s, steps, t)
    decreases |steps|
  {
    hide Enabled, Apply, Obeys;
    if steps != [] {
      FollowsRuns(c, e, past + [steps[0]], Apply(c, s, steps[0]), steps[1..], t);
    }
  }

  lemma {:induction false} FollowsJoin(c: Config, e: Policy, past: seq<Step>, s: State, a: seq<Step>, t: State,
                                       b: seq<Step>, u: State)
    requires Follows(c, e, past, s, a, t) && Follows(c, e, past + a, t, b, u)
    ensures Follows(c, e, past, s, a + b, u)
    decreases |a|
  {
    hide Enabled, Apply, Obeys;
    if a == [] {
      assert a + b == b && past + a == past;
    } else {
      assert past + [a[0]] + a[1..] == past + a;
      FollowsJoin(c, e, past + [a[0]], Apply(c, s, a[0]), a[1..], t, b, u);
      assert (a + b)[1..] == a[1..] + b;
    }
  }

  lemma FollowsOne(c: Config, e: Policy, past: seq<Step>, s: State, st: Step)
    requires Enabled(c, s, st) && Obeys(c, e, past, s, st)
    ensures Follows(c, e, past, s, [st], Apply(c, s, st))
  {
    hide Enabled, Apply, Obeys;
    var t := Apply(c, s, st);
    assert [st][1..] == [];
    assert Follows(c, e, past + [st], t, [], t);
  }
}
