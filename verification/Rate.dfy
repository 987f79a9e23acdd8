/** Round-trip estimation and the injection-rate controller, over exact reals. */
module Rate {
  const RTT_GAIN: real := 0.125
  const RTT_ATTEN_K: real := 4.0
  const RTT_RTO_K: real := 4.0
  const MIN_RTO_US: real := 2000.0
  const MAX_RTO_US: real := 4000000.0

  function Abs(x: real): real { if x < 0.0 then -x else x }
  function Min(a: real, b: real): real { if a < b then a else b }
  function Max(a: real, b: real): real { if a > b then a else b }

  function Clamp(x: real, lo: real, hi: real): real
    requires lo <= hi
  {
    if x < lo then lo else if x > hi then hi else x
  }

  function Gap(x: real, y: real): real { Abs(x - y) }

  predicate Within(x: real, lo: real, hi: real) { lo <= x <= hi }

  /** `x` is in the range, and nothing in the range is nearer to what was wanted. */
  ghost predicate Nearest(x: real, want: real, lo: real, hi: real) {
    Within(x, lo, hi) && forall y: real :: Within(y, lo, hi) ==> Gap(x, want) <= Gap(y, want)
  }

  /** Clamping gives the nearest value of the range, and no other value is. */
  lemma ClampIsNearest(want: real, lo: real, hi: real)
    requires lo <= hi
    ensures forall x: real :: Nearest(x, want, lo, hi) <==> x == Clamp(want, lo, hi)
  {
    var near := Clamp(want, lo, hi);
    assert Within(near, lo, hi);
    forall y: real | Within(y, lo, hi)
      ensures Gap(near, want) <= Gap(y, want) && (y != near ==> Gap(near, want) < Gap(y, want))
    {
    }
  }

  // ---- RTT estimator ----

  datatype Rtt = Rtt(srtt: real, vrtt: real, minRtt: real, haveAny: bool)

  const NewRtt: Rtt := Rtt(0.0, 0.0, 0.0, false)

  function Sampled(e: Rtt, rtt: real): Rtt {
    var r := Max(rtt, 0.0);
    if !e.haveAny then Rtt(r, r / 2.0, r, true)
    else
      var err := r - e.srtt;
      Rtt(e.srtt + RTT_GAIN * err, e.vrtt + (Abs(err) - e.vrtt) / RTT_ATTEN_K, Min(r, e.minRtt), true)
  }

  function Seeded(e: Rtt, srtt: nat, minRtt: nat): Rtt {
    if srtt == 0 then e
    else Rtt(srtt as real, Max(srtt as real / 4.0, 1.0),
             if minRtt == 0 || minRtt > srtt then srtt as real else minRtt as real, true)
  }

  function Rto(e: Rtt): (r: real)
    ensures MIN_RTO_US <= r <= MAX_RTO_US
  {
    Clamp(e.srtt + RTT_RTO_K * e.vrtt, MIN_RTO_US, MAX_RTO_US)
  }

  class RttEstimator {
    var srtt: real
    var vrtt: real
    var minRtt: real
    var haveAny: bool

    function View(): Rtt
      reads this
    {
      Rtt(srtt, vrtt, minRtt, haveAny)
    }

    constructor ()
      ensures View() == NewRtt
    {
      srtt, vrtt, minRtt, haveAny := 0.0, 0.0, 0.0, false;
    }

    method Sample(rtt: real) returns (rto: real)
      modifies this
      ensures View() == Sampled(old(View()), rtt)
      ensures rto == Rto(View())
    {
      var r := rtt;
      if r < 0.0 {
        r := 0.0;
      }
      if !haveAny {
        srtt := r;
        vrtt := r / 2.0;
        minRtt := r;
        haveAny := true;
      } else {
        var err := r - srtt;
        srtt := srtt + RTT_GAIN * err;
        vrtt := vrtt + (Abs(err) - vrtt) / RTT_ATTEN_K;
        if r < minRtt {
          minRtt := r;
        }
      }
      rto := Rto(View());
    }

    method Seed(srttUs: nat, minRttUs: nat)
      modifies this
      ensures View() == Seeded(old(View()), srttUs, minRttUs)
    {
      if srttUs == 0 {
        return;
      }
      srtt := srttUs as real;
      vrtt := Max(srttUs as real / 4.0, 1.0);
      minRtt := if minRttUs == 0 || minRttUs > srttUs then srttUs as real else minRttUs as real;
      haveAny := true;
    }
  }

  datatype RttOp = SampleOp(rtt: real) | SeedOp(srtt: nat, minRtt: nat)

  function RttRun(e: Rtt, ops: seq<RttOp>): Rtt
    decreases |ops|
  {
    if ops == [] then e
    else
      var last := ops[|ops| - 1];
      var before := RttRun(e, ops[..|ops| - 1]);
      match last
      case SampleOp(rtt) => Sampled(before, rtt)
      case SeedOp(s, m) => Seeded(before, s, m)
  }

  /** Whatever is sampled or seeded: the base RTT never exceeds the smoothed one, the
      deviation is never negative and the RTO stays between 2 ms and 4 s. */
  lemma {:induction false} RttAlwaysSane(ops: seq<RttOp>)
    ensures var e := RttRun(NewRtt, ops);
      0.0 <= e.minRtt <= e.srtt && 0.0 <= e.vrtt && MIN_RTO_US <= Rto(e) <= MAX_RTO_US
    decreases |ops|
  {
    if ops != [] {
      RttAlwaysSane(ops[..|ops| - 1]);
    }
  }

  /** SRTT and RTTVAR as sections 2.2 and 2.3 of RFC 6298 compute them from the
      measurements R: `alpha` = 1/8, `beta` = 1/4, RTTVAR from the SRTT before the update. */
  function Rfc6298(rs: seq<real>): (real, real)
    requires rs != []
    decreases |rs|
  {
    var r := rs[|rs| - 1];
    if |rs| == 1 then (r, r / 2.0)
    else
      var (srtt, rttvar) := Rfc6298(rs[..|rs| - 1]);
      ((1.0 - 0.125) * srtt + 0.125 * r, (1.0 - 0.25) * rttvar + 0.25 * Abs(srtt - r))
  }

  function Samples(rs: seq<real>): seq<RttOp> {
    seq(|rs|, i requires 0 <= i < |rs| => SampleOp(rs[i]))
  }

  /** The least of a sequence of measurements, as the base RTT should be. */
  predicate IsLeast(m: real, rs: seq<real>) {
    m in rs && forall i :: 0 <= i < |rs| ==> m <= rs[i]
  }

  lemma SampledIsRfc(e: Rtt, r: real)
    requires e.haveAny && r >= 0.0
    ensures var f := Sampled(e, r);
      && f.haveAny
      && f.srtt == (1.0 - 0.125) * e.srtt + 0.125 * r
      && f.vrtt == (1.0 - 0.25) * e.vrtt + 0.25 * Abs(e.srtt - r)
      && f.minRtt == Min(r, e.minRtt)
  {
  }

  lemma LeastSnoc(m: real, init: seq<real>, r: real)
    requires IsLeast(m, init)
    ensures IsLeast(Min(r, m), init + [r])
  {
    var i :| 0 <= i < |init| && init[i] == m;
    assert (init + [r])[i] == m && (init + [r])[|init|] == r;
  }

  lemma RunSnoc(rs: seq<real>)
    requires rs != []
    ensures var n := |rs| - 1;
      RttRun(NewRtt, Samples(rs)) == Sampled(RttRun(NewRtt, Samples(rs[..n])), rs[n])
  {
    assert Samples(rs)[..|rs| - 1] == Samples(rs[..|rs| - 1]);
  }

  /** Unseeded, the estimator is RFC 6298's up to the clamp, and its base RTT is the
      smallest measurement. */
  lemma {:induction false} MatchesRfc6298(rs: seq<real>)
    requires rs != [] && forall i :: 0 <= i < |rs| ==> rs[i] >= 0.0
    ensures var e := RttRun(NewRtt, Samples(rs)); var (srtt, rttvar) := Rfc6298(rs);
      && e.haveAny && e.srtt == srtt && e.vrtt == rttvar && IsLeast(e.minRtt, rs)
      && Rto(e) == Clamp(srtt + 4.0 * rttvar, MIN_RTO_US, MAX_RTO_US)
    decreases |rs|
  {
    hide Sampled, RttRun, Samples, IsLeast;
    var n := |rs| - 1;
    var init, r := rs[..n], rs[n];
    assert rs == init + [r];
    RunSnoc(rs);
    if n > 0 {
      MatchesRfc6298(init);
      SampledIsRfc(RttRun(NewRtt, Samples(init)), r);
      LeastSnoc(RttRun(NewRtt, Samples(init)).minRtt, init, r);
    } else {
      FirstSample(rs);
    }
  }

  lemma FirstSample(rs: seq<real>)
    requires |rs| == 1 && rs[0] >= 0.0
    ensures Sampled(RttRun(NewRtt, Samples(rs[..0])), rs[0]) == Rtt(rs[0], rs[0] / 2.0, rs[0], true)
    ensures IsLeast(rs[0], rs)
  {
    assert Samples(rs[..0]) == [];
  }

  function Pow(b: real, n: nat): real {
    if n == 0 then 1.0 else b * Pow(b, n - 1)
  }

  function Repeat(e: Rtt, rtt: real, n: nat): Rtt {
    if n == 0 then e else Sampled(Repeat(e, rtt, n - 1), rtt)
  }

  lemma {:induction false} PowPositive(b: real, n: nat)
    requires b >= 0.0
    ensures Pow(b, n) >= 0.0
  {
    if n > 0 {
      PowPositive(b, n - 1);
      NonNegProduct(b, Pow(b, n - 1));
    }
  }

  lemma PowStep(b: real, n: nat)
    ensures Pow(b, n) == if n == 0 then 1.0 else b * Pow(b, n - 1)
  {
  }

  lemma NonNegProduct(a: real, b: real)
    requires a >= 0.0 && b >= 0.0
    ensures a * b >= 0.0
  {
  }

  lemma AbsScale(a: real, x: real)
    requires a >= 0.0
    ensures Abs(a * x) == a * Abs(x)
  {
    NonNegProduct(a, Abs(x));
  }

  /** One sample of `rtt`, seen from the error `p * d` and a deviation bound `m * p`. */
  lemma ConvergeStep(e: Rtt, rtt: real, p: real, d: real, m: real, q: real)
    requires e.haveAny && rtt >= 0.0 && p >= 0.0 && q == 0.875 * p
    requires e.srtt - rtt == p * d && 2.0 * Abs(d) <= m && e.vrtt <= m * p
    ensures var f := Sampled(e, rtt); f.haveAny && f.srtt - rtt == q * d && f.vrtt <= m * q
  {
    hide Sampled, Abs;
    SampledIsRfc(e, rtt);
    ErrorSize(e.srtt, rtt, p, d);
    ErrorShrinks(e.srtt, rtt, p, d);
    DeviationShrinks(e.vrtt, p, Abs(d), m);
  }

  lemma ErrorSize(srtt: real, rtt: real, p: real, d: real)
    requires p >= 0.0 && srtt - rtt == p * d
    ensures Abs(srtt - rtt) == p * Abs(d)
  {
    AbsScale(p, d);
  }

  lemma ErrorShrinks(srtt: real, rtt: real, p: real, d: real)
    requires srtt - rtt == p * d
    ensures (1.0 - 0.125) * srtt + 0.125 * rtt - rtt == 0.875 * p * d
  {
    var x := p * d;
    assert 0.875 * p * d == 0.875 * x;
  }

  lemma DeviationShrinks(vrtt: real, p: real, a: real, m: real)
    requires p >= 0.0 && 2.0 * a <= m && vrtt <= m * p
    ensures (1.0 - 0.25) * vrtt + 0.25 * (p * a) <= m * (0.875 * p)
  {
    ScaleMono(p, 2.0 * a, m);
    var x, y := p * a, m * p;
    Commute(m, p);
    assert p * (2.0 * a) == 2.0 * x;
    assert m * (0.875 * p) == 0.875 * y;
  }

  lemma {:induction false} ConvergeBy(e: Rtt, rtt: real, d: real, m: real, n: nat)
    requires e.haveAny && rtt >= 0.0 && d == e.srtt - rtt && 2.0 * Abs(d) <= m && e.vrtt <= m
    ensures var f := Repeat(e, rtt, n);
      f.haveAny && f.srtt - rtt == Pow(0.875, n) * d && f.vrtt <= m * Pow(0.875, n)
  {
    hide Sampled, Abs, Pow;
    PowStep(0.875, n);
    if n > 0 {
      ConvergeBy(e, rtt, d, m, n - 1);
      PowPositive(0.875, n - 1);
      ConvergeStep(Repeat(e, rtt, n - 1), rtt, Pow(0.875, n - 1), d, m, Pow(0.875, n));
    }
  }

  /** Under a constant measurement the error shrinks by exactly 7/8 a sample, and the
      deviation at least as fast. */
  lemma RttConverges(e: Rtt, rtt: real, n: nat)
    requires e.haveAny && rtt >= 0.0
    ensures var f := Repeat(e, rtt, n);
      && Abs(f.srtt - rtt) == Pow(0.875, n) * Abs(e.srtt - rtt)
      && f.vrtt <= Max(e.vrtt, 2.0 * Abs(e.srtt - rtt)) * Pow(0.875, n)
  {
    hide Repeat, Pow, Abs, Max;
    var d, p := e.srtt - rtt, Pow(0.875, n);
    PowPositive(0.875, n);
    AbsScale(p, d);
    MaxAbove(e.vrtt, 2.0 * Abs(d));
    ConvergeBy(e, rtt, d, Max(e.vrtt, 2.0 * Abs(d)), n);
    assert Repeat(e, rtt, n).srtt - rtt == p * d;
  }

  lemma MaxAbove(a: real, b: real)
    ensures a <= Max(a, b) && b <= Max(a, b)
  {
  }

  lemma ScaleMono(p: real, a: real, b: real)
    requires p >= 0.0 && a <= b
    ensures p * a <= p * b
  {
  }

  // ---- rate controller ----

  datatype Mode = Fixed | Adaptive

  datatype RateConfig = RateConfig(mode: Mode, target: nat, min: nat, max: nat, alpha: real)

  /** Zero fields stand for the defaults. */
  function Filled(cfg: RateConfig): RateConfig {
    cfg.(min := if cfg.min == 0 then 64000 else cfg.min,
         max := if cfg.max == 0 then 10000000000 else cfg.max,
         alpha := if cfg.alpha == 0.0 then 30000000.0 else cfg.alpha)
  }

  function StartRate(cfg: RateConfig): real {
    var start := cfg.target as real;
    if cfg.mode.Fixed? then start
    else
      var capped := if start == 0.0 || start > cfg.max as real then cfg.max as real else start;
      Max(capped * 0.05, cfg.min as real)
  }

  /** Share of the smoothed RTT that is not queueing. */
  function BaseAvg(srtt: real, base: real): (b: real)
    requires srtt > 0.0
    ensures 0.0 <= b <= 1.0
  {
    if Quiet(srtt, base) then 1.0 else Clamp(base / srtt, 0.0, 1.0)
  }

  /** Round trips too short to tell queueing from noise. */
  predicate Quiet(srtt: real, base: real) {
    base < 5000.0 && srtt < 20000.0
  }

  function Blend(rate: real, b: real, alpha: real): real {
    0.5 * (rate * b + rate + alpha)
  }

  /** One adaptive update with base-to-smoothed ratio `b`. */
  function Adapted(cfg: RateConfig, rate: real, b: real): real
    requires cfg.min <= cfg.max
  {
    Clamp(Blend(rate, b, cfg.alpha), cfg.min as real, cfg.max as real)
  }

  function Updated(cfg: RateConfig, rate: real, srtt: real, base: real): real
    requires cfg.mode.Adaptive? ==> cfg.min <= cfg.max
  {
    if cfg.mode.Fixed? then cfg.target as real
    else if srtt <= 0.0 then rate
    else Adapted(cfg, rate, BaseAvg(srtt, base))
  }

  /** `rate as u64`, for rates in range. */
  function ToBps(rate: real): nat {
    if rate < 0.0 then 0 else rate.Floor
  }

  class RateController {
    const cfg: RateConfig
    var rate: real

    /** An adaptive rate is within its bounds. */
    ghost predicate Bounded()
      reads this
    {
      cfg.mode.Adaptive? ==> cfg.min as real <= rate <= cfg.max as real
    }

    /** Whatever is left at zero gets a positive default and the rest is kept; the first
        rate is a fixed controller's target, and within the bounds of an adaptive one. */
    constructor (cfg: RateConfig)
      ensures this.cfg == Filled(cfg) && rate == StartRate(Filled(cfg))
      ensures this.cfg.min > 0 && this.cfg.max > 0 && this.cfg.alpha != 0.0
      ensures cfg.mode.Fixed? ==> rate == cfg.target as real
      ensures this.cfg.min <= this.cfg.max ==> Bounded()
    {
      var full := cfg;
      if full.min == 0 {
        full := full.(min := 64000);
      }
      if full.max == 0 {
        full := full.(max := 10000000000);
      }
      if full.alpha == 0.0 {
        full := full.(alpha := 30000000.0);
      }
      var start := full.target as real;
      if full.mode.Adaptive? {
        if start == 0.0 || start > full.max as real {
          start := full.max as real;
        }
        start := start * 0.05;
        if start < full.min as real {
          start := full.min as real;
        }
      }
      this.cfg := full;
      this.rate := start;
    }

    method Update(srtt: real, base: real) returns (bps: nat)
      requires cfg.mode.Adaptive? ==> cfg.min <= cfg.max
      modifies this
      ensures rate == Updated(cfg, old(rate), srtt, base) && bps == ToBps(rate)
    {
      if cfg.mode.Fixed? {
        rate := cfg.target as real;
        return ToBps(rate);
      }
      if srtt <= 0.0 {
        return ToBps(rate);
      }
      var baseAvg := 1.0;
      if !Quiet(srtt, base) {
        baseAvg := Clamp(base / srtt, 0.0, 1.0);
      }
      rate := 0.5 * (rate * baseAvg + rate + cfg.alpha);
      rate := Clamp(rate, cfg.min as real, cfg.max as real);
      bps := ToBps(rate);
    }

    /** Zero asks for nothing; any other request gets the rate within the bounds that is
        nearest to it. */
    method SetRate(bps: nat)
      requires bps > 0 ==> cfg.min <= cfg.max
      modifies this
      ensures bps == 0 ==> rate == old(rate)
      ensures bps > 0 ==> Nearest(rate, bps as real, cfg.min as real, cfg.max as real)
    {
      if bps == 0 {
        return;
      }
      rate := Clamp(bps as real, cfg.min as real, cfg.max as real);
      ClampIsNearest(bps as real, cfg.min as real, cfg.max as real);
    }
  }

  datatype RateOp = UpdateOp(srtt: real, base: real) | SetOp(bps: nat)

  function RateRun(cfg: RateConfig, ops: seq<RateOp>): real
    requires cfg.min <= cfg.max
    decreases |ops|
  {
    if ops == [] then StartRate(cfg)
    else
      var before := RateRun(cfg, ops[..|ops| - 1]);
      match ops[|ops| - 1]
      case UpdateOp(srtt, base) => Updated(cfg, before, srtt, base)
      case SetOp(bps) => if bps == 0 then before else Clamp(bps as real, cfg.min as real, cfg.max as real)
  }

  /** Adaptive rates stay within their bounds over every run, first value included. */
  lemma {:induction false} RateStaysInBounds(cfg: RateConfig, ops: seq<RateOp>)
    requires cfg.mode.Adaptive? && cfg.min <= cfg.max
    ensures cfg.min as real <= RateRun(cfg, ops) <= cfg.max as real
    decreases |ops|
  {
    if ops != [] {
      RateStaysInBounds(cfg, ops[..|ops| - 1]);
    }
  }

  predicate RunInBounds(cfg: RateConfig, ops: seq<RateOp>)
    requires cfg.min <= cfg.max
  {
    cfg.min as real <= RateRun(cfg, ops) <= cfg.max as real
  }

  /** A fixed rate stays in bounds over every run exactly when the target itself is. */
  lemma FixedRateInBounds(cfg: RateConfig)
    requires cfg.mode.Fixed? && cfg.min <= cfg.max
    ensures (forall ops: seq<RateOp> :: RunInBounds(cfg, ops)) <==> cfg.min <= cfg.target <= cfg.max
  {
    hide RunInBounds;
    FixedStart(cfg);
    if cfg.min <= cfg.target <= cfg.max {
      forall ops: seq<RateOp>
        ensures RunInBounds(cfg, ops)
      {
        FixedRun(cfg, ops);
      }
    }
  }

  lemma FixedStart(cfg: RateConfig)
    requires cfg.mode.Fixed? && cfg.min <= cfg.max
    ensures RunInBounds(cfg, []) <==> cfg.min <= cfg.target <= cfg.max
  {
  }

  lemma {:induction false} FixedRun(cfg: RateConfig, ops: seq<RateOp>)
    requires cfg.mode.Fixed? && cfg.min <= cfg.target <= cfg.max
    ensures RunInBounds(cfg, ops)
    decreases |ops|
  {
    if ops != [] {
      FixedRun(cfg, ops[..|ops| - 1]);
    }
  }

  /** A larger rate, or less queueing, never gives a smaller next rate. */
  lemma AdaptedMonotone(cfg: RateConfig, r1: real, r2: real, b1: real, b2: real)
    requires cfg.min <= cfg.max && 0.0 <= r1 <= r2 && 0.0 <= b1 <= b2
    ensures Adapted(cfg, r1, b1) <= Adapted(cfg, r2, b2)
  {
    ProductMono(r1, r2, b1, b2);
    var p, q := r1 * b1, r2 * b2;
    assert p + r1 + cfg.alpha <= q + r2 + cfg.alpha;
    hide Clamp;
    ClampMono(0.5 * (p + r1 + cfg.alpha), 0.5 * (q + r2 + cfg.alpha), cfg.min as real, cfg.max as real);
  }

  /** A larger ratio of base to smoothed RTT gives a larger share except where only the
      smaller one falls under the cut-off for short round trips, and then only if the
      larger one shows queueing at all. */
  lemma ShareMonotone(srtt1: real, base1: real, srtt2: real, base2: real)
    requires srtt1 > 0.0 && srtt2 > 0.0 && base1 / srtt1 <= base2 / srtt2
    ensures BaseAvg(srtt1, base1) <= BaseAvg(srtt2, base2)
       <==> (Quiet(srtt1, base1) ==> Quiet(srtt2, base2) || base2 >= srtt2)
  {
    ClampMono(base1 / srtt1, base2 / srtt2, 0.0, 1.0);
    AtLeastWhole(base2, srtt2);
  }

  lemma AtLeastWhole(a: real, b: real)
    requires b > 0.0
    ensures a / b >= 1.0 <==> a >= b
  {
    var q := a / b;
    assert q * b == a;
    if q >= 1.0 {
      ScaleMono(b, 1.0, q);
    } else {
      assert (1.0 - q) * b > 0.0;
    }
  }

  /** Is `update` monotone in the rate while base and smoothed RTT go from one pair to the
      other? */
  ghost predicate NeverLower(cfg: RateConfig, srtt1: real, base1: real, srtt2: real, base2: real)
    requires cfg.min <= cfg.max
  {
    forall r1: real, r2: real :: 0.0 <= r1 <= r2 ==> Updated(cfg, r1, srtt1, base1) <= Updated(cfg, r2, srtt2, base2)
  }

  /** As the ratio of base to smoothed RTT grows, an adaptive `update` gives no smaller rate
      if and only if it is not the case that only the smaller ratio falls under the cut-off
      for short round trips while the larger one shows queueing. */
  lemma UpdatedMonotone(cfg: RateConfig, srtt1: real, base1: real, srtt2: real, base2: real)
    requires cfg.mode.Adaptive? && cfg.min < cfg.max && cfg.alpha / 2.0 < cfg.max as real
    requires srtt1 > 0.0 && srtt2 > 0.0 && base1 / srtt1 <= base2 / srtt2
    ensures NeverLower(cfg, srtt1, base1, srtt2, base2)
       <==> (Quiet(srtt1, base1) ==> Quiet(srtt2, base2) || base2 >= srtt2)
  {
    hide BaseAvg, Adapted;
    ShareMonotone(srtt1, base1, srtt2, base2);
    var b1, b2 := BaseAvg(srtt1, base1), BaseAvg(srtt2, base2);
    if b1 <= b2 {
      forall r1: real, r2: real | 0.0 <= r1 <= r2
        ensures Updated(cfg, r1, srtt1, base1) <= Updated(cfg, r2, srtt2, base2)
      {
        AdaptedMonotone(cfg, r1, r2, b1, b2);
      }
    } else {
      var r := cfg.max as real - cfg.alpha / 2.0;
      QuietShare(srtt1, base1);
      LowerAtTop(cfg, r, b2);
      assert Updated(cfg, r, srtt1, base1) > Updated(cfg, r, srtt2, base2);
    }
  }

  lemma QuietShare(srtt: real, base: real)
    requires srtt > 0.0 && Quiet(srtt, base)
    ensures BaseAvg(srtt, base) == 1.0
  {
  }

  /** At a rate that one update without queueing takes to the ceiling, one with queueing
      falls short of it. */
  lemma LowerAtTop(cfg: RateConfig, r: real, b: real)
    requires cfg.min < cfg.max && r == cfg.max as real - cfg.alpha / 2.0 && r > 0.0 && b < 1.0
    ensures Adapted(cfg, r, b) < Adapted(cfg, r, 1.0)
  {
    assert r * b < r * 1.0;
    assert Blend(r, 1.0, cfg.alpha) == cfg.max as real;
    assert Blend(r, b, cfg.alpha) < cfg.max as real;
  }

  /** It does happen: at 1 Gbit/s with the default bounds and alpha, the ratio rises from
      0.4 to 0.5 and the next rate falls. */
  lemma RateFalls()
    ensures var cfg := Filled(RateConfig(Adaptive, 0, 0, 0, 0.0));
      && cfg.min < cfg.max && cfg.alpha / 2.0 < cfg.max as real
      && 4000.0 / 10000.0 < 15000.0 / 30000.0
      && Updated(cfg, 1000000000.0, 10000.0, 4000.0) > Updated(cfg, 1000000000.0, 30000.0, 15000.0)
  {
    assert BaseAvg(30000.0, 15000.0) == 0.5;
  }

  lemma ProductMono(r1: real, r2: real, b1: real, b2: real)
    requires 0.0 <= r1 <= r2 && 0.0 <= b1 <= b2
    ensures r1 * b1 <= r2 * b2
  {
    ScaleMono(r1, b1, b2);
    ScaleMono(b2, r1, r2);
    Commute(r1, b2);
    Commute(r2, b2);
  }

  lemma Commute(a: real, b: real)
    ensures a * b == b * a
  {
  }

  lemma ClampMono(x: real, y: real, lo: real, hi: real)
    requires lo <= hi && x <= y
    ensures Clamp(x, lo, hi) <= Clamp(y, lo, hi)
  {
  }

  /** The rate at which an update changes nothing, pulled into the bounds. */
  function Equilibrium(cfg: RateConfig, b: real): real
    requires cfg.min <= cfg.max && b < 1.0
  {
    Clamp(cfg.alpha / (1.0 - b), cfg.min as real, cfg.max as real)
  }

  lemma EquilibriumEquation(alpha: real, b: real)
    requires b < 1.0
    ensures var q := alpha / (1.0 - b); q * b + q + alpha == 2.0 * q
  {
    var q := alpha / (1.0 - b);
    assert q * (1.0 - b) == alpha;
    assert q * (1.0 - b) == q - q * b;
  }

  /** The unclamped update moves from `x` towards `alpha / (1 - b)`. */
  lemma TowardsEquilibrium(alpha: real, b: real, x: real)
    requires 0.0 <= b < 1.0
    ensures var q := alpha / (1.0 - b);
      && (x <= q ==> 0.5 * (x * b + x + alpha) >= x)
      && (x >= q ==> 0.5 * (x * b + x + alpha) <= x)
  {
    var q := alpha / (1.0 - b);
    EquilibriumEquation(alpha, b);
    if x <= q {
      ScaleMono(1.0 - b, x, q);
    } else {
      ScaleMono(1.0 - b, q, x);
    }
    assert (1.0 - b) * x == x - x * b;
    assert (1.0 - b) * q == q - q * b;
  }

  /** The equilibrium, in or at the edge of the bounds, is a fixed point. */
  lemma EquilibriumIsFixed(cfg: RateConfig, b: real)
    requires cfg.min <= cfg.max && 0.0 <= b < 1.0
    ensures Adapted(cfg, Equilibrium(cfg, b), b) == Equilibrium(cfg, b)
  {
    var q := cfg.alpha / (1.0 - b);
    EquilibriumEquation(cfg.alpha, b);
    TowardsEquilibrium(cfg.alpha, b, cfg.min as real);
    TowardsEquilibrium(cfg.alpha, b, cfg.max as real);
  }

  lemma ClampNearer(x: real, y: real, lo: real, hi: real)
    requires lo <= hi
    ensures Abs(Clamp(x, lo, hi) - Clamp(y, lo, hi)) <= Abs(x - y)
  {
  }

  /** Two rates come together by a factor (1 + b) / 2 per update, clamped or not. */
  lemma AdaptedContracts(cfg: RateConfig, x: real, y: real, b: real)
    requires cfg.min <= cfg.max && 0.0 <= b <= 1.0
    ensures Abs(Adapted(cfg, x, b) - Adapted(cfg, y, b)) <= (1.0 + b) / 2.0 * Abs(x - y)
  {
    var u, v := Blend(x, b, cfg.alpha), Blend(y, b, cfg.alpha);
    hide Blend;
    ClampNearer(u, v, cfg.min as real, cfg.max as real);
    BlendsApart(x, y, b, cfg.alpha);
    ShrinkBy(Adapted(cfg, x, b) - Adapted(cfg, y, b), u - v, (1.0 + b) / 2.0, x - y);
  }

  lemma ShrinkBy(c: real, w: real, k: real, d: real)
    requires k >= 0.0 && Abs(c) <= Abs(w) && w == k * d
    ensures Abs(c) <= k * Abs(d)
  {
    AbsScale(k, d);
  }

  lemma BlendsApart(x: real, y: real, b: real, alpha: real)
    ensures Blend(x, b, alpha) - Blend(y, b, alpha) == (1.0 + b) / 2.0 * (x - y)
  {
    var p, q, d := x * b, y * b, x - y;
    assert d * b == p - q;
    assert (1.0 + b) * d == d + d * b;
  }

  lemma MulAssoc(a: real, b: real, c: real)
    ensures a * (b * c) == a * b * c
  {
  }

  lemma AdaptedAtOne(cfg: RateConfig, r: real)
    requires cfg.min <= cfg.max && cfg.alpha >= 0.0 && cfg.min as real <= r
    ensures Adapted(cfg, r, 1.0) == Min(r + cfg.alpha / 2.0, cfg.max as real)
  {
  }

  function Steady(cfg: RateConfig, rate: real, b: real, n: nat): real
    requires cfg.min <= cfg.max
  {
    if n == 0 then rate else Adapted(cfg, Steady(cfg, rate, b, n - 1), b)
  }

  /** With a constant ratio below one the rate closes in on the equilibrium by at least
      the factor (1 + b) / 2 per update from any start, also when alpha / (1 - b) lies
      outside the bounds. */
  lemma {:induction false} RateConverges(cfg: RateConfig, rate: real, b: real, n: nat)
    requires cfg.min <= cfg.max && 0.0 <= b < 1.0
    ensures Abs(Steady(cfg, rate, b, n) - Equilibrium(cfg, b))
         <= Pow((1.0 + b) / 2.0, n) * Abs(rate - Equilibrium(cfg, b))
  {
    hide Adapted, Equilibrium, Abs;
    var k, q := (1.0 + b) / 2.0, Equilibrium(cfg, b);
    if n > 0 {
      RateConverges(cfg, rate, b, n - 1);
      var r := Steady(cfg, rate, b, n - 1);
      EquilibriumIsFixed(cfg, b);
      AdaptedContracts(cfg, r, q, b);
      ScaleMono(k, Abs(r - q), Pow(k, n - 1) * Abs(rate - q));
      MulAssoc(k, Pow(k, n - 1), Abs(rate - q));
    }
  }

  function Climb(n: nat, h: real): real {
    n as real * h
  }

  lemma ClimbStep(n: nat, h: real)
    requires h >= 0.0
    ensures Climb(n, h) >= 0.0 && Climb(0, h) == 0.0
    ensures Climb(n + 1, h) == Climb(n, h) + h
  {
    NonNegProduct(n as real, h);
    var x := n as real;
    assert (n + 1) as real == x + 1.0;
    assert (x + 1.0) * h == x * h + h;
  }

  /** Without queueing (ratio one) the rate climbs by alpha / 2 per update until it sits
      at the ceiling. */
  lemma {:induction false} RateRamps(cfg: RateConfig, rate: real, n: nat)
    requires cfg.min <= cfg.max && cfg.alpha >= 0.0 && cfg.min as real <= rate <= cfg.max as real
    ensures Steady(cfg, rate, 1.0, n) == Min(rate + Climb(n, cfg.alpha / 2.0), cfg.max as real)
  {
    hide Adapted, Climb;
    var h := cfg.alpha / 2.0;
    if n == 0 {
      ClimbStep(0, h);
    } else {
      RateRamps(cfg, rate, n - 1);
      ClimbStep(n - 1, h);
      RampStep(cfg, rate, Climb(n - 1, h));
    }
  }

  lemma RampStep(cfg: RateConfig, rate: real, gain: real)
    requires cfg.min <= cfg.max && cfg.alpha >= 0.0 && cfg.min as real <= rate <= cfg.max as real && gain >= 0.0
    ensures Adapted(cfg, Min(rate + gain, cfg.max as real), 1.0)
         == Min(rate + (gain + cfg.alpha / 2.0), cfg.max as real)
  {
    MinStep(rate + gain, cfg.alpha / 2.0, cfg.min as real, cfg.max as real);
    AdaptedAtOne(cfg, Min(rate + gain, cfg.max as real));
  }

  lemma MinStep(x: real, h: real, lo: real, hi: real)
    requires h >= 0.0 && lo <= x && lo <= hi
    ensures lo <= Min(x, hi) && Min(Min(x, hi) + h, hi) == Min(x + h, hi)
  {
  }
}
