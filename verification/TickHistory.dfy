/** Every run of ticks between a receiver and a sender whose clocks differ by any amount
    and tick at any phase: ticks sent in FEEDBACK, lost, repeated or overwritten, then
    echoed in DATA. Time is real; each host reads whole microseconds since its own epoch. */
module TickHistory {
  import opened Prelude

  const MAX_SAMPLE_US: int := 60_000_000

  /** The true times at which the two hosts' clocks read zero. */
  datatype Epochs = Epochs(receiver: real, sender: real)

  /** `now_micros` */
  function Reading(time: real, epoch: real): int { (time - epoch).Floor }

  /** The code keeps only clock readings; `sent`, `heard` and `stamped` are the true times
      at which they were taken. */
  datatype Tick = Tick(reading: int, isNet: bool, sent: real)

  datatype Stored = Stored(id: nat, reading: int, isNet: bool, t2: int, sent: real, heard: real)

  datatype Echo = Echo(id: nat, echo: int, isNet: bool, sent: real, heard: real, stamped: real)

  datatype Sample = Sample(value: int, from: Echo, arrived: real)

  datatype State = State(
    now: real,
    ticks: set<Tick>,            // every FEEDBACK sent; the network may deliver each any number of times
    stored: Option<Stored>,      // the sender's tick slot
    taken: Option<Stored>,       // taken out of the slot, not yet stamped
    echoes: seq<Echo>,           // every DATA sent with a tick; delivered any number of times
    samples: seq<Sample>,        // what reached an estimator
    dropped: seq<Sample>,        // what `apply_tick` threw away
    stores: nat)                 // ticks stored so far, which number them

  datatype Step =
    | Pass(us: real)             // time goes by
    | Send(isNet: bool)          // the receiver's feedback thread sends a tick
    | Hear(tick: Tick)           // the sender's feedback thread stores one, over whatever was there
    | Take                       // `attach_tick` under the lock
    | Stamp                      // the rest of `attach_tick`
    | Apply(echo: Echo)          // `apply_tick`

  predicate Init(s: State) {
    s == State(s.now, {}, None, None, [], [], [], 0)
  }

  predicate Enabled(s: State, st: Step) {
    match st
    case Pass(us) => us >= 0.0
    case Send(_) => true
    case Hear(t) => t in s.ticks
    case Take => s.stored.Some? && s.taken.None?
    case Stamp => s.taken.Some?
    case Apply(e) => e in s.echoes
  }

  function After(c: Epochs, s: State, st: Step): State
    requires Enabled(s, st)
  {
    var rx, tx := Reading(s.now, c.receiver), Reading(s.now, c.sender);
    match st
    case Pass(us) => s.(now := s.now + us)
    case Send(isNet) => s.(ticks := s.ticks + {Tick(rx, isNet, s.now)})
    case Hear(t) =>
      s.(stored := Some(Stored(s.stores, t.reading, t.isNet, tx, t.sent, s.now)), stores := s.stores + 1)
    case Take => s.(taken := s.stored, stored := None)
    case Stamp =>
      var k := s.taken.value;
      var echo := if k.isNet then k.reading + (tx - k.t2) else k.reading;
      s.(taken := None, echoes := s.echoes + [Echo(k.id, echo, k.isNet, k.sent, k.heard, s.now)])
    case Apply(e) =>
      var sample := Sample(rx - e.echo, e, s.now);
      if 0 <= sample.value <= MAX_SAMPLE_US then s.(samples := s.samples + [sample])
      else s.(dropped := s.dropped + [sample])
  }

  ghost predicate Runs(c: Epochs, s: State, steps: seq<Step>, t: State)
    decreases |steps|
  {
    if steps == [] then s == t
    else Enabled(s, steps[0]) && Runs(c, After(c, s, steps[0]), steps[1..], t)
  }

  // ---- invariant ----

  predicate TickOk(c: Epochs, now: real, t: Tick) {
    t.reading == Reading(t.sent, c.receiver) && t.sent <= now
  }

  predicate StoredOk(c: Epochs, now: real, k: Stored) {
    && k.reading == Reading(k.sent, c.receiver) && k.t2 == Reading(k.heard, c.sender)
    && k.sent <= k.heard <= now
  }

  predicate EchoOk(c: Epochs, now: real, e: Echo) {
    && e.echo == Reading(e.sent, c.receiver)
                 + (if e.isNet then Reading(e.stamped, c.sender) - Reading(e.heard, c.sender) else 0)
    && e.sent <= e.heard <= e.stamped <= now
  }

  /** How long the tick itself was travelling, out in FEEDBACK and back in DATA. */
  function Travel(x: Sample): real { (x.from.heard - x.from.sent) + (x.arrived - x.from.stamped) }

  /** How long the sender sat on it. */
  function Holding(x: Sample): real { x.from.stamped - x.from.heard }

  predicate InOrder(x: Sample) {
    x.from.sent <= x.from.heard <= x.from.stamped <= x.arrived
  }

  predicate SampleOk(c: Epochs, x: Sample) {
    && InOrder(x)
    && x.value == Reading(x.arrived, c.receiver) - Reading(x.from.sent, c.receiver)
                  - (if x.from.isNet then Reading(x.from.stamped, c.sender) - Reading(x.from.heard, c.sender) else 0)
  }

  predicate ReadingsInv(c: Epochs, s: State) {
    && (forall t :: t in s.ticks ==> TickOk(c, s.now, t))
    && (s.stored.Some? ==> StoredOk(c, s.now, s.stored.value))
    && (s.taken.Some? ==> StoredOk(c, s.now, s.taken.value))
    && (forall i :: 0 <= i < |s.echoes| ==> EchoOk(c, s.now, s.echoes[i]))
  }

  /** No number occurs twice among the echoes and the ticks still waiting. */
  predicate OnceInv(s: State) {
    && (s.stored.Some? ==> NewId(s, s.stored.value.id))
    && (s.taken.Some? ==> NewId(s, s.taken.value.id))
    && (s.stored.Some? && s.taken.Some? ==> s.stored.value.id != s.taken.value.id)
    && (forall i :: 0 <= i < |s.echoes| ==> s.echoes[i].id < s.stores)
    && (forall i, j :: 0 <= i < j < |s.echoes| ==> s.echoes[i].id != s.echoes[j].id)
  }

  predicate NewId(s: State, id: nat) {
    id < s.stores && forall i :: 0 <= i < |s.echoes| ==> s.echoes[i].id != id
  }

  predicate SamplesInv(c: Epochs, s: State) {
    && (forall i :: 0 <= i < |s.samples| ==> SampleOk(c, s.samples[i]) && 0 <= s.samples[i].value <= MAX_SAMPLE_US)
    && (forall i :: 0 <= i < |s.dropped| ==> SampleOk(c, s.dropped[i]) && !(0 <= s.dropped[i].value <= MAX_SAMPLE_US))
  }

  predicate Inv(c: Epochs, s: State) {
    ReadingsInv(c, s) && OnceInv(s) && SamplesInv(c, s)
  }

  lemma ReadingsKept(c: Epochs, s: State, st: Step)
    requires ReadingsInv(c, s) && Enabled(s, st)
    ensures ReadingsInv(c, After(c, s, st))
  {
    hide Reading;
  }

  lemma OnceKept(c: Epochs, s: State, st: Step)
    requires OnceInv(s) && Enabled(s, st)
    ensures OnceInv(After(c, s, st))
  {
    hide Reading;
  }

  lemma SamplesKept(c: Epochs, s: State, st: Step)
    requires ReadingsInv(c, s) && SamplesInv(c, s) && Enabled(s, st)
    ensures SamplesInv(c, After(c, s, st))
  {
    hide Reading;
    if st.Apply? {
      assert EchoOk(c, s.now, st.echo);
    }
  }

  lemma StepKeeps(c: Epochs, s: State, st: Step)
    requires Inv(c, s) && Enabled(s, st)
    ensures Inv(c, After(c, s, st))
  {
    hide ReadingsInv, OnceInv, SamplesInv, After, Enabled;
    ReadingsKept(c, s, st);
    OnceKept(c, s, st);
    SamplesKept(c, s, st);
  }

  lemma {:induction false} RunKeeps(c: Epochs, s: State, steps: seq<Step>, t: State)
    requires Inv(c, s) && Runs(c, s, steps, t)
    ensures Inv(c, t)
    decreases |steps|
  {
    hide Inv;
    if steps != [] {
      StepKeeps(c, s, steps[0]);
      RunKeeps(c, After(c, s, steps[0]), steps[1..], t);
    }
  }

  // ---- readings ----

  /** A clock's reading is less than a microsecond behind the time. */
  lemma Behind(time: real, epoch: real)
    ensures 0.0 <= time - epoch - Reading(time, epoch) as real < 1.0
  {
  }

  /** What a path sample, or a network sample, is off by. */
  lemma Rounding(c: Epochs, x: Sample)
    requires SampleOk(c, x)
    ensures Travel(x) >= 0.0 && Holding(x) >= 0.0
    ensures !x.from.isNet ==> -1.0 < x.value as real - (Travel(x) + Holding(x)) < 1.0
    ensures x.from.isNet ==> -2.0 < x.value as real - Travel(x) < 2.0
  {
    hide Reading;
    Behind(x.arrived, c.receiver);
    Behind(x.from.sent, c.receiver);
    Behind(x.from.stamped, c.sender);
    Behind(x.from.heard, c.sender);
  }

  /** Two readings of one clock are apart by the whole part of the time between them, or
      one more. */
  lemma Apart(a: real, b: real, epoch: real)
    requires a <= b
    ensures (b - a).Floor <= Reading(b, epoch) - Reading(a, epoch) <= (b - a).Floor + 1
  {
    Behind(a, epoch);
    Behind(b, epoch);
  }

  /** No sample is below -1; a path sample is never negative, and a network sample of -1
      means that the tick travelled for less than a microsecond. */
  lemma BarelyNegative(c: Epochs, x: Sample)
    requires SampleOk(c, x)
    ensures x.value >= 0 || (x.value == -1 && x.from.isNet && Travel(x) < 1.0)
  {
    hide Reading;
    Apart(x.from.sent, x.arrived, c.receiver);
    Apart(x.from.heard, x.from.stamped, c.sender);
    FloorsClimb(x.from.stamped - x.from.heard, x.arrived - x.from.sent);
    Rounding(c, x);
  }

  lemma FloorsClimb(a: real, b: real)
    requires 0.0 <= a <= b
    ensures 0 <= a.Floor <= b.Floor
  {
  }

  // ---- what holds in every run ----

  /** Whatever the clocks' offsets and phases and whatever ticks were lost, repeated or
      overwritten: a network sample is within 2 us of the travelling time of its tick, and
      a path sample within 1 us of that plus the sender's holding time. */
  lemma SamplesAreTrue(c: Epochs, s: State, steps: seq<Step>, t: State, i: nat)
    requires Init(s) && Runs(c, s, steps, t) && i < |t.samples|
    ensures var x := t.samples[i];
      && Travel(x) >= 0.0 && Holding(x) >= 0.0
      && (x.from.isNet ==> -2.0 < x.value as real - Travel(x) < 2.0)
      && (!x.from.isNet ==> -1.0 < x.value as real - (Travel(x) + Holding(x)) < 1.0)
  {
    RunKeeps(c, s, steps, t);
    Rounding(c, t.samples[i]);
  }

  predicate Whole(x: real) { x == x.Floor as real }

  /** The clocks read `x`'s events to the microsecond. */
  predicate OnTheTick(c: Epochs, x: Sample) {
    && Whole(x.from.sent - c.receiver) && Whole(x.arrived - c.receiver)
    && Whole(x.from.heard - c.sender) && Whole(x.from.stamped - c.sender)
  }

  /** Apart from rounding there is no error at all: between events on whole microseconds of
      the clocks that read them, a network sample is the travelling time and a path sample
      that plus the holding time, whatever the offset between the clocks. */
  lemma SamplesAreExact(c: Epochs, s: State, steps: seq<Step>, t: State, i: nat)
    requires Init(s) && Runs(c, s, steps, t) && i < |t.samples| && OnTheTick(c, t.samples[i])
    ensures var x := t.samples[i];
      x.value as real == Travel(x) + (if x.from.isNet then 0.0 else Holding(x))
  {
    RunKeeps(c, s, steps, t);
    Exactly(c, t.samples[i]);
  }

  lemma Exactly(c: Epochs, x: Sample)
    requires SampleOk(c, x) && OnTheTick(c, x)
    ensures x.value as real == Travel(x) + (if x.from.isNet then 0.0 else Holding(x))
  {
  }

  /** Exactly two kinds of sample are thrown away: those over a minute, and network samples
      of -1, which only a tick that travelled for less than a microsecond can give. */
  lemma DroppedExactly(c: Epochs, s: State, steps: seq<Step>, t: State, e: Echo)
    requires Init(s) && Runs(c, s, steps, t) && e in t.echoes
    ensures var u := After(c, t, Apply(e)); var x := Sample(Reading(t.now, c.receiver) - e.echo, e, t.now);
      && (u.dropped == t.dropped + [x] <==> x.value > MAX_SAMPLE_US || x.value == -1)
      && (u.samples == t.samples + [x] <==> 0 <= x.value <= MAX_SAMPLE_US)
      && (x.value == -1 ==> x.from.isNet && Travel(x) < 1.0)
  {
    RunKeeps(c, s, steps, t);
    assert EchoOk(c, t.now, e);
    var x := Sample(Reading(t.now, c.receiver) - e.echo, e, t.now);
    hide Inv, Reading;
    BarelyNegative(c, x);
  }

  /** Such a sample does occur: with clocks half a microsecond out of phase, a network tick
      that spends 0.09 us on the way is measured as -1 and dropped. */
  lemma MinusOneHappens() returns (c: Epochs, s: State, steps: seq<Step>, t: State)
    ensures Init(s) && Runs(c, s, steps, t)
    ensures |t.dropped| == 1 && t.dropped[0].value == -1 && t.dropped[0].from.isNet
  {
    hide Reading, Runs;
    c, s := Epochs(0.0, 0.5), State(1.45, {}, None, None, [], [], [], 0);
    SmallReadings();
    var tick, echo := Tick(1, true, 1.45), Echo(0, 2, true, 1.45, 1.49, 1.5);
    var kept := Stored(0, 1, true, 0, 1.45, 1.49);
    var s1 := State(1.45, {tick}, None, None, [], [], [], 0);
    var s2 := s1.(now := 1.49);
    var s3 := s2.(stored := Some(kept), stores := 1);
    var s4 := s3.(now := 1.5);
    var s5 := s4.(stored := None, taken := Some(kept));
    var s6 := s5.(taken := None, echoes := [echo]);
    var s7 := s6.(now := 1.55);
    t := s7.(dropped := [Sample(-1, echo, 1.55)]);
    Here(c, t);
    steps := Before(c, s7, Apply(echo), t, [], t);
    steps := Before(c, s6, Pass(0.05), s7, steps, t);
    steps := Before(c, s5, Stamp, s6, steps, t);
    steps := Before(c, s4, Take, s5, steps, t);
    steps := Before(c, s3, Pass(0.01), s4, steps, t);
    steps := Before(c, s2, Hear(tick), s3, steps, t);
    steps := Before(c, s1, Pass(0.04), s2, steps, t);
    steps := Before(c, s, Send(true), s1, steps, t);
  }

  lemma Here(c: Epochs, t: State)
    ensures Runs(c, t, [], t)
  {
  }

  lemma Before(c: Epochs, s: State, st: Step, m: State, rest: seq<Step>, t: State) returns (steps: seq<Step>)
    requires Enabled(s, st) && After(c, s, st) == m && Runs(c, m, rest, t)
    ensures Runs(c, s, steps, t)
  {
    hide Enabled, After;
    steps := [st] + rest;
    assert steps[1..] == rest;
  }

  lemma SmallReadings()
    ensures Reading(1.45, 0.0) == 1 && Reading(1.55, 0.0) == 1
    ensures Reading(1.49, 0.5) == 0 && Reading(1.5, 0.5) == 1
  {
  }

  /** Each stored tick is stamped into at most one datagram. */
  lemma StampedOnce(c: Epochs, s: State, steps: seq<Step>, t: State, i: nat, j: nat)
    requires Init(s) && Runs(c, s, steps, t) && i < j < |t.echoes|
    ensures t.echoes[i].id != t.echoes[j].id
  {
    RunKeeps(c, s, steps, t);
    assert OnceInv(t);
  }
}
