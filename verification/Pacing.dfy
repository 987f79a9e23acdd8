/** The pacing loop's schedule: batches on absolute deadlines, and the token-bucket
    bound on what it can put on the wire in any window of time. */
module Pacing {
  import opened Prelude

  const HEADER_BYTES: nat := 36
  const MIN_BATCH_US: real := 5000.0
  const RESYNC: real := 100.0
  const MICROS: real := 1000000.0

  function BlockBits(bs: nat): (b: real)
    ensures b > 0.0
  {
    (bs + HEADER_BYTES) as real * 8.0
  }

  /** What `recompute` leaves behind: the rate, packets per batch, microseconds per batch. */
  datatype Plan = Plan(rate: nat, batch: nat, ipd: real)

  function PlanFor(bs: nat, target: nat): Plan {
    var rate := if target < 1 then 1 else target;
    var ipd := BlockBits(bs) / rate as real * MICROS;
    if ipd < MIN_BATCH_US then
      PositiveIpd(bs, rate);
      var wanted := (MIN_BATCH_US / ipd).Floor + 1;
      RatioPositive(ipd);
      var batch := if wanted > MAX_BATCH then MAX_BATCH else wanted;
      Plan(rate, batch, BlockBits(bs) * batch as real / rate as real * MICROS)
    else Plan(rate, 1, ipd)
  }

  lemma PositiveIpd(bs: nat, rate: nat)
    requires rate >= 1
    ensures BlockBits(bs) / rate as real * MICROS > 0.0
  {
    QuotientPositive(BlockBits(bs), rate as real);
  }

  lemma QuotientPositive(a: real, b: real)
    requires a > 0.0 && b > 0.0
    ensures a / b > 0.0
  {
    var q := a / b;
    assert q * b == a;
    if q <= 0.0 {
      ProductSign(q, b);
    }
  }

  lemma ProductSign(q: real, b: real)
    requires q <= 0.0 && b > 0.0
    ensures q * b <= 0.0
  {
  }

  lemma RatioPositive(ipd: real)
    requires 0.0 < ipd < MIN_BATCH_US
    ensures (MIN_BATCH_US / ipd).Floor >= 1
  {
    var q := MIN_BATCH_US / ipd;
    assert q * ipd == MIN_BATCH_US;
    if q < 1.0 {
      ScaleUp(ipd, q, 1.0);
    }
  }

  lemma ScaleUp(p: real, a: real, b: real)
    requires p >= 0.0 && a <= b
    ensures p * a <= p * b
    ensures a * p <= b * p
  {
  }

  /** Enough packets of `one` microseconds each to fill 5 ms. */
  lemma Fills(one: real, batch: nat)
    requires 0.0 < one < MIN_BATCH_US && batch == (MIN_BATCH_US / one).Floor + 1
    ensures batch as real * one >= MIN_BATCH_US
  {
    var q := MIN_BATCH_US / one;
    assert q * one == MIN_BATCH_US;
    assert q <= batch as real;
    ScaleUp(one, q, batch as real);
  }

  /** The plan in terms of the time `one` packet takes. */
  lemma PlanShape(bs: nat, target: nat)
    ensures var p := PlanFor(bs, target); var one := BlockBits(bs) / p.rate as real * MICROS;
      && p.rate == (if target < 1 then 1 else target)
      && one > 0.0 && 1 <= p.batch <= MAX_BATCH
      && p.ipd == BlockBits(bs) * p.batch as real / p.rate as real * MICROS
      && (one >= MIN_BATCH_US ==> p.batch == 1)
      && (one < MIN_BATCH_US && p.batch < MAX_BATCH ==> p.batch == (MIN_BATCH_US / one).Floor + 1)
  {
    var p := PlanFor(bs, target);
    PositiveIpd(bs, p.rate);
    var one := BlockBits(bs) / p.rate as real * MICROS;
    if one < MIN_BATCH_US {
      RatioPositive(one);
    } else {
      assert BlockBits(bs) * 1.0 == BlockBits(bs);
    }
  }

  /** A batch takes exactly as long as its bits need at the target rate; it has 1 to 64
      packets, and fewer than 64 only if it already fills 5 ms. */
  lemma PlanIsExact(bs: nat, target: nat)
    ensures var p := PlanFor(bs, target);
      && 1 <= p.batch <= MAX_BATCH && p.rate >= 1 && p.ipd > 0.0
      && p.batch as real * BlockBits(bs) == p.rate as real * p.ipd / MICROS
      && (p.batch < MAX_BATCH ==> p.ipd >= MIN_BATCH_US)
  {
    hide PlanFor, BlockBits;
    PlanShape(bs, target);
    var p := PlanFor(bs, target);
    var one, n := BlockBits(bs) / p.rate as real * MICROS, p.batch as real;
    BatchTime(BlockBits(bs), n, p.rate as real);
    AtLeastOne(one, n);
    if one < MIN_BATCH_US && p.batch < MAX_BATCH {
      Fills(one, p.batch);
    }
  }

  lemma AtLeastOne(one: real, n: real)
    requires one > 0.0 && n >= 1.0
    ensures n * one >= one
  {
    ScaleUp(one, 1.0, n);
  }

  lemma BatchTime(bits: real, batch: real, r: real)
    requires r > 0.0
    ensures bits * batch / r * MICROS == batch * (bits / r * MICROS)
    ensures r * (bits * batch / r * MICROS) / MICROS == batch * bits
  {
    var q := bits / r;
    assert q * r == bits;
    Shuffle(q, r, batch);
    DivideOut(q * batch, r);
    var x := q * batch;
    assert bits * batch / r == x;
    InAndOut(r, x);
    Shuffle(q, MICROS, batch);
  }

  lemma InAndOut(r: real, x: real)
    ensures r * (x * MICROS) / MICROS == r * x
  {
    assert r * (x * MICROS) == (r * x) * MICROS;
    var y := r * x;
    assert y * MICROS / MICROS == y;
  }

  lemma Shuffle(q: real, r: real, b: real)
    ensures q * r * b == (q * b) * r
    ensures r * (q * b) == b * (q * r)
  {
  }

  lemma DivideOut(x: real, r: real)
    requires r > 0.0
    ensures x * r / r == x
  {
  }

  /** The deadline after a batch: one interval on, unless the loop has fallen more than
      100 intervals behind the clock. */
  function NextDeadline(deadline: real, ipd: real, now: nat): real {
    var next := deadline + ipd;
    if now as real < next then next
    else if now as real - next > RESYNC * ipd then now as real
    else next
  }

  class Pacer {
    const bs: nat
    var plan: Plan
    var nextDeadline: real

    /** The plan is the one for the rate it names. */
    ghost predicate Valid()
      reads this
    {
      plan == PlanFor(bs, plan.rate)
    }

    constructor (bs: nat, target: nat, now: nat)
      ensures Valid() && this.bs == bs && plan == PlanFor(bs, target) && nextDeadline == now as real
    {
      this.bs := bs;
      plan := PlanFor(bs, target);
      nextDeadline := now as real;
    }

    /** Top of the loop: a changed target is planned afresh. */
    method Retarget(target: nat)
      requires Valid()
      modifies this`plan
      ensures Valid() && plan == PlanFor(bs, target)
    {
      if target != plan.rate {
        plan := PlanFor(bs, target);
      }
    }

    /** End of the loop: advance the deadline and say how long to sleep. */
    method EndBatch(now: nat) returns (sleep: real)
      modifies this`nextDeadline
      ensures nextDeadline == NextDeadline(old(nextDeadline), plan.ipd, now)
      ensures sleep == if now as real < nextDeadline then nextDeadline - now as real else 0.0
    {
      sleep := 0.0;
      nextDeadline := nextDeadline + plan.ipd;
      if now as real < nextDeadline {
        sleep := nextDeadline - now as real;
      } else if now as real - nextDeadline > RESYNC * plan.ipd {
        nextDeadline := now as real;
      }
    }
  }

  // ---- runs ----

  /** One round: the target in force, the PDU sizes flushed, the clock at the flush, at the
      reading after it, and when the sleep has ended. */
  datatype Round = Round(target: nat, sizes: seq<nat>, flushed: nat, now: nat, woke: nat)

  function SumSizes(sizes: seq<nat>): nat {
    if sizes == [] then 0 else sizes[0] + SumSizes(sizes[1..])
  }

  function Bits(r: Round): real {
    SumSizes(r.sizes) as real * 8.0
  }

  function Deadline(bs: nat, start: nat, run: seq<Round>, j: nat): real
    requires j <= |run|
  {
    if j == 0 then start as real
    else NextDeadline(Deadline(bs, start, run, j - 1), PlanFor(bs, run[j - 1].target).ipd, run[j - 1].now)
  }

  function ToMicros(x: real): nat {
    if x < 0.0 then 0 else x.Floor
  }

  /** A batch carries at most the planned packets, each of a header, a block and `extra`
      bytes, which are the cipher's tag; `precise_sleep_us` does not return before its own
      clock reading plus the whole microseconds asked for. */
  predicate ValidRound(bs: nat, extra: nat, start: nat, run: seq<Round>, j: nat)
    requires j < |run|
  {
    var r, next := run[j], Deadline(bs, start, run, j + 1);
    && |r.sizes| <= PlanFor(bs, r.target).batch
    && (forall k :: 0 <= k < |r.sizes| ==> r.sizes[k] <= bs + HEADER_BYTES + extra)
    && (if j == 0 then start else run[j - 1].woke) <= r.flushed <= r.now <= r.woke
    && (r.now as real < next ==> r.woke >= r.now + ToMicros(next - r.now as real))
  }

  predicate ValidRun(bs: nat, extra: nat, start: nat, run: seq<Round>) {
    forall j :: 0 <= j < |run| ==> ValidRound(bs, extra, start, run, j)
  }

  function IpdSum(bs: nat, run: seq<Round>, i: nat, k: nat): real
    requires i <= k <= |run|
    decreases k
  {
    if i == k then 0.0 else IpdSum(bs, run, i, k - 1) + PlanFor(bs, run[k - 1].target).ipd
  }

  function BitSum(run: seq<Round>, i: nat, k: nat): real
    requires i <= k <= |run|
    decreases k
  {
    if i == k then 0.0 else BitSum(run, i, k - 1) + Bits(run[k - 1])
  }

  /** How much longer a datagram is than `recompute` takes it to be. */
  function Swell(bs: nat, extra: nat): (f: real)
    ensures f >= 1.0 && (extra == 0 ==> f == 1.0)
  {
    SwellBound((bs + HEADER_BYTES) as real, extra as real);
    ((bs + HEADER_BYTES) as real + extra as real) / (bs + HEADER_BYTES) as real
  }

  lemma SwellBound(a: real, x: real)
    requires a > 0.0 && x >= 0.0
    ensures (a + x) / a >= 1.0 && (x == 0.0 ==> (a + x) / a == 1.0)
  {
    var q := (a + x) / a;
    assert q * a == a + x;
    if q < 1.0 {
      ScaleUp(a, q, 1.0);
    }
  }

  lemma {:induction false} SumBound(sizes: seq<nat>, each: nat)
    requires forall k :: 0 <= k < |sizes| ==> sizes[k] <= each
    ensures SumSizes(sizes) <= |sizes| * each
  {
    if sizes != [] {
      forall k | 0 <= k < |sizes[1..]|
        ensures sizes[1..][k] <= each
      {
        assert sizes[1..][k] == sizes[k + 1];
      }
      SumBound(sizes[1..], each);
      assert |sizes| * each == each + |sizes[1..]| * each;
    }
  }

  lemma CountBound(n: nat, batch: nat, each: nat, total: nat)
    requires n <= batch && total <= n * each
    ensures total as real * 8.0 <= batch as real * (each as real * 8.0)
  {
    assert n * each <= batch * each;
    assert (batch * each) as real == batch as real * each as real;
  }

  lemma Over(a: real, b: real)
    requires a <= b
    ensures a / MICROS <= b / MICROS
  {
  }

  /** The bits of a full datagram, tag included. */
  function FullBits(bs: nat, extra: nat): real {
    (bs + HEADER_BYTES + extra) as real * 8.0
  }

  lemma FullIsSwollen(bs: nat, extra: nat)
    ensures FullBits(bs, extra) == Swell(bs, extra) * BlockBits(bs)
  {
    var a, x := (bs + HEADER_BYTES) as real, extra as real;
    var q := (a + x) / a;
    assert q * a == a + x;
    assert q * (a * 8.0) == (q * a) * 8.0;
  }

  /** A batch never holds more bits than its interval allows at its rate, tags apart. */
  lemma RoundBits(bs: nat, extra: nat, r: Round, top: nat)
    requires |r.sizes| <= PlanFor(bs, r.target).batch
    requires forall k :: 0 <= k < |r.sizes| ==> r.sizes[k] <= bs + HEADER_BYTES + extra
    requires r.target <= top && top >= 1
    ensures Bits(r) <= Swell(bs, extra) * (top as real * PlanFor(bs, r.target).ipd / MICROS)
  {
    hide PlanFor, SumSizes, Swell, BlockBits;
    PlanRate(bs, r.target);
    var p, f := PlanFor(bs, r.target), Swell(bs, extra);
    PlanIsExact(bs, r.target);
    SumBound(r.sizes, bs + HEADER_BYTES + extra);
    CountBound(|r.sizes|, p.batch, bs + HEADER_BYTES + extra, SumSizes(r.sizes));
    FullIsSwollen(bs, extra);
    FasterFits(p.ipd, p.rate, top);
    Chain(Bits(r), p.batch as real, FullBits(bs, extra), f, BlockBits(bs),
          p.rate as real * p.ipd / MICROS, top as real * p.ipd / MICROS);
  }

  lemma Chain(bits: real, n: real, full: real, f: real, b: real, x: real, y: real)
    requires bits <= n * full && full == f * b && n * b == x && x <= y && f >= 0.0
    ensures bits <= f * y
  {
    Regroup(n, f, b);
    ScaleUp(f, x, y);
  }

  lemma Regroup(n: real, f: real, b: real)
    ensures n * (f * b) == f * (n * b)
  {
  }

  lemma FasterFits(ipd: real, rate: nat, top: nat)
    requires ipd > 0.0 && rate <= top
    ensures rate as real * ipd / MICROS <= top as real * ipd / MICROS
  {
    Faster(ipd, rate as real, top as real);
  }

  lemma Faster(ipd: real, a: real, b: real)
    requires ipd > 0.0 && a <= b
    ensures a * ipd / MICROS <= b * ipd / MICROS
  {
    ScaleUp(ipd, a, b);
    var x, y := a * ipd, b * ipd;
    Over(x, y);
  }

  lemma Wider(t: real, a: real, b: real)
    requires t >= 0.0 && a <= b
    ensures t * a / MICROS <= t * b / MICROS
  {
    ScaleUp(t, a, b);
    var x, y := t * a, t * b;
    Over(x, y);
  }

  lemma PlanRate(bs: nat, target: nat)
    ensures PlanFor(bs, target).rate == if target < 1 then 1 else target
  {
  }

  /** Deadlines climb at least one interval per batch. */
  lemma {:induction false} DeadlinesClimb(bs: nat, start: nat, run: seq<Round>, i: nat, k: nat)
    requires i <= k <= |run|
    ensures Deadline(bs, start, run, k) >= Deadline(bs, start, run, i) + IpdSum(bs, run, i, k)
    decreases k
  {
    hide PlanFor;
    if i < k {
      DeadlinesClimb(bs, start, run, i, k - 1);
      PlanIsExact(bs, run[k - 1].target);
      StepClimbs(Deadline(bs, start, run, k - 1), PlanFor(bs, run[k - 1].target).ipd, run[k - 1].now);
    }
  }

  lemma StepClimbs(deadline: real, ipd: real, now: nat)
    requires ipd > 0.0
    ensures NextDeadline(deadline, ipd, now) >= deadline + ipd
    ensures NextDeadline(deadline, ipd, now) >= now as real - RESYNC * ipd
  {
  }

  /** No flush, the first one included, is a microsecond or more ahead of its deadline. */
  lemma FlushWaits(bs: nat, extra: nat, start: nat, run: seq<Round>, j: nat)
    requires ValidRun(bs, extra, start, run) && j < |run|
    ensures run[j].flushed as real > Deadline(bs, start, run, j) - 1.0
  {
    hide PlanFor, NextDeadline;
    assert ValidRound(bs, extra, start, run, j);
    if j > 0 {
      assert ValidRound(bs, extra, start, run, j - 1);
    }
  }

  lemma {:induction false} BitsFollow(bs: nat, extra: nat, start: nat, run: seq<Round>, i: nat, k: nat, top: nat)
    requires ValidRun(bs, extra, start, run) && i <= k <= |run| && top >= 1
    requires forall j :: i <= j < k ==> run[j].target <= top
    ensures BitSum(run, i, k) <= Swell(bs, extra) * (top as real * IpdSum(bs, run, i, k) / MICROS)
    decreases k
  {
    hide PlanFor, Bits, Deadline, Swell;
    var f, t := Swell(bs, extra), top as real;
    if i < k {
      BitsFollow(bs, extra, start, run, i, k - 1, top);
      assert ValidRound(bs, extra, start, run, k - 1);
      RoundBits(bs, extra, run[k - 1], top);
      var a, b := IpdSum(bs, run, i, k - 1), PlanFor(bs, run[k - 1].target).ipd;
      Spread(t, a, b);
      Distribute(f, t * a / MICROS, t * b / MICROS);
    } else {
      Vanish(f, t);
    }
  }

  lemma Distribute(f: real, a: real, b: real)
    ensures f * (a + b) == f * a + f * b
  {
  }

  lemma Vanish(f: real, t: real)
    ensures f * (t * 0.0 / MICROS) == 0.0
  {
  }

  lemma Spread(t: real, a: real, b: real)
    ensures t * (a + b) / MICROS == t * a / MICROS + t * b / MICROS
  {
    assert t * (a + b) == t * a + t * b;
  }

  /** The intervals strictly inside a window fit into it, give or take the resync lag and
      the sleep's microsecond. */
  lemma IntervalsFit(bs: nat, extra: nat, start: nat, run: seq<Round>, i: nat, k: nat, s: nat, t: nat)
    requires ValidRun(bs, extra, start, run) && i < k < |run|
    requires s <= run[i].flushed && run[k].flushed <= t
    ensures IpdSum(bs, run, i + 1, k) <= (t - s) as real + 1.0 + RESYNC * PlanFor(bs, run[i].target).ipd
  {
    hide PlanFor;
    DeadlinesClimb(bs, start, run, i + 1, k);
    FlushWaits(bs, extra, start, run, k);
    assert ValidRound(bs, extra, start, run, i);
    PlanIsExact(bs, run[i].target);
    StepClimbs(Deadline(bs, start, run, i), PlanFor(bs, run[i].target).ipd, run[i].now);
  }

  lemma {:induction false} IpdSplit(bs: nat, run: seq<Round>, i: nat, k: nat)
    requires i < k <= |run|
    ensures IpdSum(bs, run, i, k) == PlanFor(bs, run[i].target).ipd + IpdSum(bs, run, i + 1, k)
    decreases k
  {
    hide PlanFor;
    if i + 1 < k {
      IpdSplit(bs, run, i, k - 1);
    }
  }

  /** Token bucket, at rates that may change from batch to batch but never exceed `top`:
      the DATA bits flushed in any window [s, t] are at most `top` times the window plus a
      microsecond, plus a burst of 101 intervals of its first batch and one of its last,
      all swollen by the tags that the plan leaves out. */
  lemma TokenBucket(bs: nat, extra: nat, start: nat, run: seq<Round>, i: nat, k: nat, s: nat, t: nat, top: nat)
    requires ValidRun(bs, extra, start, run) && i <= k < |run| && top >= 1
    requires s <= run[i].flushed && run[k].flushed <= t
    requires forall j :: i <= j <= k ==> run[j].target <= top
    ensures BitSum(run, i, k + 1)
      <= Swell(bs, extra) * (top as real * ((t - s) as real + 1.0 + 101.0 * PlanFor(bs, run[i].target).ipd
                                            + PlanFor(bs, run[k].target).ipd) / MICROS)
  {
    hide PlanFor, ValidRound, Bits, Swell, IpdSum, BitSum;
    BitsFollow(bs, extra, start, run, i, k + 1, top);
    WindowSum(bs, extra, start, run, i, k, s, t);
    var bound := (t - s) as real + 1.0 + 101.0 * PlanFor(bs, run[i].target).ipd + PlanFor(bs, run[k].target).ipd;
    var sum := IpdSum(bs, run, i, k + 1);
    Wider(top as real, sum, bound);
    ScaleUp(Swell(bs, extra), top as real * sum / MICROS, top as real * bound / MICROS);
  }

  lemma WindowSum(bs: nat, extra: nat, start: nat, run: seq<Round>, i: nat, k: nat, s: nat, t: nat)
    requires ValidRun(bs, extra, start, run) && i <= k < |run|
    requires s <= run[i].flushed && run[k].flushed <= t
    ensures IpdSum(bs, run, i, k + 1)
      <= (t - s) as real + 1.0 + 101.0 * PlanFor(bs, run[i].target).ipd + PlanFor(bs, run[k].target).ipd
  {
    hide PlanFor, ValidRound;
    PlanIsExact(bs, run[i].target);
    if i < k {
      IpdSplit(bs, run, i, k);
      IntervalsFit(bs, extra, start, run, i, k, s, t);
    }
  }

  /** The bound the plan aims at: rate times window plus a microsecond, and 102 batches. */
  function Bucket(bs: nat, rate: nat, window: nat): real {
    rate as real * (window as real + 1.0) / MICROS + 102.0 * (PlanFor(bs, rate).batch as real * BlockBits(bs))
  }

  /** At a constant rate that is the rate times the window plus a microsecond, and a fixed
      burst of 102 full batches, all swollen by the tags. */
  lemma TokenBucketAtConstantRate(bs: nat, extra: nat, start: nat, run: seq<Round>, i: nat, k: nat, s: nat, t: nat,
                                  rate: nat)
    requires ValidRun(bs, extra, start, run) && i <= k < |run| && rate >= 1
    requires s <= run[i].flushed && run[k].flushed <= t
    requires forall j :: i <= j <= k ==> run[j].target == rate
    ensures s <= t && BitSum(run, i, k + 1) <= Swell(bs, extra) * Bucket(bs, rate, t - s)
  {
    hide PlanFor, ValidRun, BitSum, BlockBits, Swell;
    Ordered(bs, extra, start, run, i, k);
    TokenBucket(bs, extra, start, run, i, k, s, t, rate);
    PlanIsExact(bs, rate);
    PlanRate(bs, rate);
    var p := PlanFor(bs, rate);
    BucketSum(rate as real, (t - s) as real + 1.0, p.ipd, p.batch as real * BlockBits(bs));
  }

  lemma BucketSum(r: real, w: real, ipd: real, bits: real)
    requires r * ipd / MICROS == bits
    ensures r * (w + 101.0 * ipd + ipd) / MICROS == r * w / MICROS + 102.0 * bits
  {
    var x, y := r * w, r * ipd;
    Spread(r, w, 102.0 * ipd);
    assert w + 101.0 * ipd + ipd == w + 102.0 * ipd;
    assert r * (102.0 * ipd) == 102.0 * y;
  }

  lemma {:induction false} Ordered(bs: nat, extra: nat, start: nat, run: seq<Round>, i: nat, k: nat)
    requires ValidRun(bs, extra, start, run) && i <= k < |run|
    ensures run[i].flushed <= run[k].flushed
    decreases k
  {
    hide PlanFor, Deadline;
    if i < k {
      Ordered(bs, extra, start, run, i, k - 1);
      assert ValidRound(bs, extra, start, run, k - 1) && ValidRound(bs, extra, start, run, k);
    }
  }

  // ---- tags break the bound the plan aims at ----

  /** A rate at which one packet takes exactly 10 ms. */
  function EvenRate(bs: nat): nat { (bs + HEADER_BYTES) * 800 }

  lemma EvenPlan(bs: nat)
    ensures PlanFor(bs, EvenRate(bs)) == Plan(EvenRate(bs), 1, 10000.0)
  {
    var a := (bs + HEADER_BYTES) as real;
    assert EvenRate(bs) as real == a * 800.0;
    EvenIpd(a);
  }

  lemma EvenIpd(a: real)
    requires a > 0.0
    ensures a * 8.0 / (a * 800.0) * MICROS == 10000.0
  {
    assert 0.01 * (a * 800.0) == a * 8.0;
    DivideOut(0.01, a * 800.0);
  }

  /** Full datagrams with `extra` bytes of tag, one every 10 ms, on time. */
  function EvenRun(bs: nat, extra: nat, n: nat): seq<Round> {
    seq(n, j requires 0 <= j < n =>
      Round(EvenRate(bs), [bs + HEADER_BYTES + extra], 10000 * j, 10000 * j, 10000 * (j + 1)))
  }

  lemma {:induction false} EvenDeadline(bs: nat, extra: nat, n: nat, j: nat)
    requires j <= n
    ensures Deadline(bs, 0, EvenRun(bs, extra, n), j) == (10000 * j) as real
    decreases j
  {
    hide PlanFor;
    if j > 0 {
      EvenDeadline(bs, extra, n, j - 1);
      EvenPlan(bs);
    }
  }

  lemma EvenIsValid(bs: nat, extra: nat, n: nat)
    ensures ValidRun(bs, extra, 0, EvenRun(bs, extra, n))
  {
    hide PlanFor, Deadline;
    var run := EvenRun(bs, extra, n);
    forall j | 0 <= j < n
      ensures ValidRound(bs, extra, 0, run, j)
    {
      EvenDeadline(bs, extra, n, j + 1);
      EvenPlan(bs);
    }
  }

  lemma {:induction false} EvenBits(bs: nat, extra: nat, n: nat, k: nat)
    requires k <= n
    ensures BitSum(EvenRun(bs, extra, n), 0, k) == k as real * FullBits(bs, extra)
    decreases k
  {
    hide FullBits;
    if k > 0 {
      EvenBits(bs, extra, n, k - 1);
      OneDatagram(bs, extra, EvenRun(bs, extra, n)[k - 1]);
      NextMultiple(k - 1, FullBits(bs, extra));
    } else {
      NoMultiple(FullBits(bs, extra));
    }
  }

  lemma NoMultiple(x: real)
    ensures 0.0 * x == 0.0
  {
  }

  lemma NextMultiple(k: nat, x: real)
    ensures (k + 1) as real * x == k as real * x + x
  {
    var y := k as real;
    assert (k + 1) as real == y + 1.0;
  }

  lemma OneDatagram(bs: nat, extra: nat, r: Round)
    requires r.sizes == [bs + HEADER_BYTES + extra]
    ensures Bits(r) == FullBits(bs, extra)
  {
    assert SumSizes(r.sizes[1..]) == 0;
  }

  lemma EvenBucket(bs: nat, n: nat)
    requires n >= 1
    ensures Bucket(bs, EvenRate(bs), 10000 * (n - 1)) < (n + 102) as real * BlockBits(bs)
  {
    hide PlanFor;
    EvenPlan(bs);
    var a, m := (bs + HEADER_BYTES) as real, (n - 1) as real;
    assert EvenRate(bs) as real == a * 800.0;
    assert (10000 * (n - 1)) as real == 10000.0 * m;
    EvenWindow(a, m);
    assert (n + 102) as real == m + 103.0;
    assert 1.0 * BlockBits(bs) == BlockBits(bs);
    EvenSum(a * 8.0, m);
  }

  lemma EvenWindow(a: real, m: real)
    requires a > 0.0
    ensures a * 800.0 * (10000.0 * m + 1.0) / MICROS < a * 8.0 * m + a * 8.0
  {
    var x := a * m;
    assert a * 800.0 * (10000.0 * m + 1.0) == 8000000.0 * x + a * 800.0;
    assert (8000000.0 * x + a * 800.0) / MICROS == 8.0 * x + a * 0.0008;
    assert a * 8.0 * m == 8.0 * x;
  }

  lemma EvenSum(b: real, m: real)
    ensures b * m + b + 102.0 * b == (m + 103.0) * b
  {
  }

  lemma TagsAddUp(bs: nat, extra: nat, n: nat)
    requires extra >= 1 && n == 102 * (bs + HEADER_BYTES)
    ensures n as real * FullBits(bs, extra) >= (n + 102) as real * BlockBits(bs)
  {
    hide FullBits, BlockBits;
    BitsAre(bs, extra);
    TagProduct((bs + HEADER_BYTES) as real, extra as real, n as real, FullBits(bs, extra),
               (n + 102) as real, BlockBits(bs));
  }

  lemma BitsAre(bs: nat, extra: nat)
    ensures FullBits(bs, extra) == 8.0 * (bs + HEADER_BYTES) as real + 8.0 * extra as real
    ensures BlockBits(bs) == 8.0 * (bs + HEADER_BYTES) as real
  {
  }

  lemma TagProduct(a: real, x: real, n: real, full: real, m: real, block: real)
    requires a > 0.0 && x >= 1.0
    requires n == 102.0 * a && full == 8.0 * a + 8.0 * x
    requires m == 102.0 * a + 102.0 && block == 8.0 * a
    ensures n * full >= m * block
  {
    var q, r := a * a, a * x;
    assert n * full == 816.0 * q + 816.0 * r;
    assert m * block == 816.0 * q + 816.0 * a;
    assert r >= a by {
      ScaleUp(a, 1.0, x);
    }
  }

  predicate AtRate(run: seq<Round>, k: nat, rate: nat)
    requires k < |run|
  {
    forall j :: 0 <= j <= k ==> run[j].target == rate
  }

  /** Does every run at a constant rate stay within the bound the plan aims at? */
  ghost predicate StaysInBucket(bs: nat, extra: nat) {
    forall run: seq<Round>, k: nat, rate: nat ::
      ValidRun(bs, extra, 0, run) && k < |run| && rate >= 1 && AtRate(run, k, rate)
      ==> BitSum(run, 0, k + 1) <= Bucket(bs, rate, run[k].flushed)
  }

  /** Without the swelling the bound holds of every run if and only if nothing is added to
      the datagrams that the plan does not count: with tags of any length, enough full
      datagrams at a constant rate exceed it, at every block size. */
  lemma BucketIffUntagged(bs: nat, extra: nat)
    ensures StaysInBucket(bs, extra) <==> extra == 0
  {
    hide ValidRun, Bucket, BitSum, EvenRun;
    if extra == 0 {
      forall run: seq<Round>, k: nat, rate: nat
        | ValidRun(bs, extra, 0, run) && k < |run| && rate >= 1 && AtRate(run, k, rate)
        ensures BitSum(run, 0, k + 1) <= Bucket(bs, rate, run[k].flushed)
      {
        TokenBucketAtConstantRate(bs, 0, 0, run, 0, k, 0, run[k].flushed, rate);
        assert 1.0 * Bucket(bs, rate, run[k].flushed) == Bucket(bs, rate, run[k].flushed);
      }
    } else {
      EvenBreaks(bs, extra);
      var n := 102 * (bs + HEADER_BYTES);
      var run := EvenRun(bs, extra, n);
      assert AtRate(run, n - 1, EvenRate(bs));
    }
  }

  lemma EvenBreaks(bs: nat, extra: nat)
    requires extra >= 1
    ensures var n := 102 * (bs + HEADER_BYTES); var run := EvenRun(bs, extra, n);
      && ValidRun(bs, extra, 0, run) && |run| == n >= 1
      && (forall j :: 0 <= j < n ==> run[j].target == EvenRate(bs)) && EvenRate(bs) >= 1
      && BitSum(run, 0, n - 1 + 1) > Bucket(bs, EvenRate(bs), run[n - 1].flushed)
  {
    hide ValidRun, Bucket, BitSum, FullBits, BlockBits;
    var n := 102 * (bs + HEADER_BYTES);
    EvenIsValid(bs, extra, n);
    EvenBits(bs, extra, n, n);
    EvenBucket(bs, n);
    TagsAddUp(bs, extra, n);
  }
}
