/** The per-tick updaters of the ride-tracking simulation: each is a pure
    function of the previous value, as the state-updater callbacks of the
    tracking interval are. Positions are integer points; the ETA and distance
    labels are kept as the values their text encodes. */
module RideSimulation {

  /** A simulated map position (percent of the map's width and height). */
  datatype Point = Point(x: int, y: int)

  /** The ETA label: "n mins", or the terminal "Arriving". */
  datatype Eta = Mins(minutes: int) | Arriving

  /** The distance label: "x km" with x held in tenths of a kilometre (the label
      is printed with one decimal), or the terminal "Arrived". */
  datatype Distance = Km(tenths: int) | Arrived

  /** What one tick of the interval updates. */
  datatype Progress = Progress(driver: Point, eta: Eta, distance: Distance)

  /** How far a driver coordinate moves per tick. */
  const Step := 5
  /** How far the distance drops per tick: 0.5 km. */
  const DistanceStep := 5

  const DefaultDriver := Point(30, 30)
  const DefaultPassenger := Point(70, 70)
  /** "15 mins" and "5.2 km". */
  const DefaultProgress := Progress(DefaultDriver, Mins(15), Km(52))
  /** The tick on which the default driver reaches the default passenger. */
  const ArrivalTick := 8

  /** One coordinate moves up by a full step while it is below the target, and
      stays put otherwise; nothing clamps it at the target. */
  function StepAxis(c: int, target: int): (r: int)
    ensures c < target ==> r == c + Step
    ensures target <= c ==> r == c
  {
    if c < target then c + Step else c
  }

  function NextPoint(p: Point, target: Point): (r: Point)
    ensures p.x <= r.x && p.y <= r.y
  {
    Point(StepAxis(p.x, target.x), StepAxis(p.y, target.y))
  }

  /** The condition on which the interval is cleared and the arrival dwell is
      scheduled. */
  predicate Reached(p: Point, target: Point) {
    p.x >= target.x && p.y >= target.y
  }

  /** `a` is no later an ETA than `b`: "Arriving" is below every "n mins". */
  predicate EtaAtMost(a: Eta, b: Eta) {
    a.Arriving? || (b.Mins? && a.minutes <= b.minutes)
  }

  /** "n mins" counts down while n > 1 and then becomes "Arriving", which the
      parse of the label (not a number) maps to itself. */
  function NextEta(e: Eta): (r: Eta)
    ensures EtaAtMost(r, e)
    ensures e.Arriving? ==> r.Arriving?
    ensures r.Mins? <==> e.Mins? && e.minutes > 1
    ensures r.Mins? ==> r.minutes == e.minutes - 1
  {
    match e
    case Mins(m) => if m > 1 then Mins(m - 1) else Arriving
    case Arriving => Arriving
  }

  /** `a` is no further a distance than `b`: "Arrived" is below every "x km". */
  predicate DistanceAtMost(a: Distance, b: Distance) {
    a.Arrived? || (b.Km? && a.tenths <= b.tenths)
  }

  /** "x km" drops by 0.5 km while x > 0.1 and then becomes "Arrived", which is
      absorbing. The test is on the old value, so 0.2 km becomes -0.3 km. */
  function NextDistance(d: Distance): (r: Distance)
    ensures DistanceAtMost(r, d)
    ensures d.Arrived? ==> r.Arrived?
    ensures r.Km? <==> d.Km? && d.tenths > 1
    ensures r.Km? ==> r.tenths == d.tenths - DistanceStep
  {
    match d
    case Km(t) => if t > 1 then Km(t - DistanceStep) else Arrived
    case Arrived => Arrived
  }

  /** One firing of the interval: all three updaters run, including on the
      tick that reaches the target. */
  function Advance(p: Progress, target: Point): Progress {
    Progress(NextPoint(p.driver, target), NextEta(p.eta), NextDistance(p.distance))
  }

  function ProgressAfter(p: Progress, target: Point, n: nat): Progress {
    if n == 0 then p else Advance(ProgressAfter(p, target, n - 1), target)
  }

  function AxisAfter(c: int, target: int, n: nat): int {
    if n == 0 then c else StepAxis(AxisAfter(c, target, n - 1), target)
  }

  function EtaAfter(e: Eta, n: nat): Eta {
    if n == 0 then e else NextEta(EtaAfter(e, n - 1))
  }

  function DistanceAfter(d: Distance, n: nat): Distance {
    if n == 0 then d else NextDistance(DistanceAfter(d, n - 1))
  }

  /** The number of ticks one coordinate needs to reach its target. */
  function AxisTicks(c: int, target: int): nat {
    if target <= c then 0 else (target - c + Step - 1) / Step
  }

  function Max(a: nat, b: nat): nat { if a < b then b else a }

  /** The tick on which the interval is cleared: the later of the two axes'
      arrivals, but at least the first tick, which runs before any test. */
  function StopTick(p: Point, target: Point): nat {
    Max(1, Max(AxisTicks(p.x, target.x), AxisTicks(p.y, target.y)))
  }

  /** n ticks act on the three parts of the progress independently. */
  lemma {:induction false} ProgressAfterParts(p: Progress, target: Point, n: nat)
    ensures ProgressAfter(p, target, n) ==
      Progress(Point(AxisAfter(p.driver.x, target.x, n), AxisAfter(p.driver.y, target.y, n)),
               EtaAfter(p.eta, n), DistanceAfter(p.distance, n))
  {
    if n > 0 {
      ProgressAfterParts(p, target, n - 1);
    }
  }

  /** A coordinate never decreases over any number of ticks. */
  lemma {:induction false} AxisAfterMonotone(c: int, target: int, n: nat)
    ensures c <= AxisAfter(c, target, n)
  {
    if n > 0 {
      AxisAfterMonotone(c, target, n - 1);
    }
  }

  /** While every step so far started below the target, each tick added
      exactly one step. */
  lemma {:induction false} AxisAfterBelow(c: int, target: int, n: nat)
    requires n == 0 || c + Step * (n - 1) < target
    ensures AxisAfter(c, target, n) == c + Step * n
  {
    if n > 0 {
      AxisAfterBelow(c, target, n - 1);
    }
  }

  /** A coordinate at or past its target does not move again. */
  lemma {:induction false} AxisAfterStays(c: int, target: int, n: nat)
    requires target <= c
    ensures AxisAfter(c, target, n) == c
  {
    if n > 0 {
      AxisAfterStays(c, target, n - 1);
    }
  }

  /** A coordinate is at or past its target exactly from tick `AxisTicks` on,
      and on that tick it has overshot the target by less than one step. */
  lemma {:induction false} AxisReachedIff(c: int, target: int, n: nat)
    ensures AxisAfter(c, target, n) >= target <==> n >= AxisTicks(c, target)
    ensures c < target ==>
      AxisAfter(c, target, AxisTicks(c, target)) == c + Step * AxisTicks(c, target) < target + Step
  {
    if target <= c {
      AxisAfterStays(c, target, n);
      AxisAfterStays(c, target, 0);
    } else {
      var k := AxisTicks(c, target);
      AxisAfterBelow(c, target, k);
      if n <= k {
        AxisAfterBelow(c, target, n);
      } else {
        AxisReachedIff(c, target, n - 1);
      }
    }
  }

  /** The interval is cleared on tick `StopTick` and on no earlier tick. */
  lemma IntervalStopsAt(p: Point, target: Point, n: nat)
    requires n >= 1
    ensures Reached(Point(AxisAfter(p.x, target.x, n), AxisAfter(p.y, target.y, n)), target)
      <==> n >= StopTick(p, target)
  {
    AxisReachedIff(p.x, target.x, n);
    AxisReachedIff(p.y, target.y, n);
  }

  /** "m mins" counts down one minute per tick until it turns to "Arriving". */
  lemma {:induction false} EtaAfterMins(m: int, n: nat)
    requires m >= 1
    ensures EtaAfter(Mins(m), n) == if n < m then Mins(m - n) else Arriving
  {
    if n > 0 {
      EtaAfterMins(m, n - 1);
    }
  }

  /** "Arriving" is absorbing. */
  lemma {:induction false} EtaAfterArriving(n: nat)
    ensures EtaAfter(Arriving, n) == Arriving
  {
    if n > 0 {
      EtaAfterArriving(n - 1);
    }
  }

  /** The distance drops by 0.5 km per tick while the value before each tick
      was above 0.1 km. */
  lemma {:induction false} DistanceAfterKm(t: int, n: nat)
    requires n == 0 || t - DistanceStep * (n - 1) > 1
    ensures DistanceAfter(Km(t), n) == Km(t - DistanceStep * n)
  {
    if n > 0 {
      DistanceAfterKm(t, n - 1);
    }
  }

  /** "Arrived" is absorbing. */
  lemma {:induction false} DistanceAfterArrived(n: nat)
    ensures DistanceAfter(Arrived, n) == Arrived
  {
    if n > 0 {
      DistanceAfterArrived(n - 1);
    }
  }

  /** Neither label ever rises over any number of ticks. */
  lemma {:induction false} LabelsNonIncreasing(p: Progress, n: nat)
    ensures EtaAtMost(EtaAfter(p.eta, n), p.eta)
    ensures DistanceAtMost(DistanceAfter(p.distance, n), p.distance)
  {
    if n > 0 {
      LabelsNonIncreasing(p, n - 1);
    }
  }

  /** The progress after k ticks from the defaults, in closed form. */
  function DefaultAfter(k: nat): Progress {
    Progress(Point(30 + Step * k, 30 + Step * k), Mins(15 - k), Km(52 - DistanceStep * k))
  }

  /** From (30,30) towards (70,70), the k-th tick is at (30+5k, 30+5k) with
      "15-k mins" and 5.2-0.5k km, and the target is reached on tick 8 and on
      no earlier tick; the ride therefore stops at "7 mins" and "1.2 km" and
      never shows "Arriving" or "Arrived". */
  lemma DefaultRideProgress(k: nat)
    requires k <= ArrivalTick
    ensures ProgressAfter(DefaultProgress, DefaultPassenger, k) == DefaultAfter(k)
    ensures Reached(DefaultAfter(k).driver, DefaultPassenger) <==> k == ArrivalTick
  {
    ProgressAfterParts(DefaultProgress, DefaultPassenger, k);
    AxisAfterBelow(30, 70, k);
    EtaAfterMins(15, k);
    DistanceAfterKm(52, k);
  }

  /** Without clamping a coordinate can pass its target: from 32 towards 70 the
      eighth step lands on 72. */
  lemma OvershootExample()
    ensures AxisTicks(32, 70) == 8 && AxisAfter(32, 70, 8) == 72
  {
    AxisReachedIff(32, 70, 8);
  }

  /** Because the test is on the value before the tick, 0.2 km becomes -0.3 km. */
  lemma NegativeDistanceExample()
    ensures NextDistance(Km(2)) == Km(-3)
  {
  }
}
