/** The live-tracking screen of one ride: its status machine
    (upcoming, in-progress, completed), the simulated driver position with the
    ETA and distance labels, and the emergency SOS button. Every timer callback
    and the SOS click is one event method of `TrackingPage`; the browser's
    geolocation answer and the backend's answer are parameters of the click. */
module Tracking {
  import opened Ui
  import opened RideSimulation

  datatype RideStatus = Upcoming | InProgress | Completed

  /** The status strings the page stores and pushes to its parent. */
  function StatusLabel(s: RideStatus): string {
    match s
    case Upcoming => "upcoming"
    case InProgress => "in-progress"
    case Completed => "completed"
  }

  /** The only order in which a ride passes through its statuses. */
  const Lifecycle := [Upcoming, InProgress, Completed]

  /** The coordinates a successful geolocation request yields. */
  datatype Coords = Coords(latitude: real, longitude: real)

  const RideStartedText := "Your ride has started!"
  const ReachedText := "You have reached your destination!"
  const GeolocationMissingText := "Geolocation is not supported by your browser"
  const SosSentText := "Emergency SOS triggered! Help is on the way."
  const SosFailedText := "Failed to trigger SOS. Please try again."
  const RatingRoute := "/rating"

  /** The parent's ride record with only its status replaced: what
      `{...activeRide, status}` builds. */
  function WithStatus(ride: Payload, s: RideStatus): (r: Payload)
    ensures r.Keys == ride.Keys + {"status"}
    ensures r["status"] == Str(StatusLabel(s))
    ensures forall k :: k in ride && k != "status" ==> r[k] == ride[k]
  {
    ride["status" := Str(StatusLabel(s))]
  }

  /** What a status change tells the parent: a copy of its ride with the new
      status, or nothing when the page was opened without a ride. */
  function StatusPush(activeRide: Option<Payload>, s: RideStatus): seq<Effect> {
    if activeRide.Some? then [PushRide(WithStatus(activeRide.value, s))] else []
  }

  /** The ride the page shows: the parent's ride, or a placeholder that carries
      the page's own status. */
  function RideDetails(activeRide: Option<Payload>, status: RideStatus): (r: Payload)
    ensures activeRide.Some? ==> r == activeRide.value
    ensures activeRide.None? ==>
      "id" in r && r["id"] == Int(1) && "status" in r && r["status"] == Str(StatusLabel(status))
  {
    match activeRide
    case Some(ride) => ride
    case None =>
      map["id" := Int(1), "driverName" := Str("John Smith"),
          "driverPhone" := Str("+1 (555) 123-4567"), "carModel" := Str("Toyota Camry"),
          "carNumber" := Str("ABC-123"), "departure" := Str("Downtown"),
          "destination" := Str("Airport"), "date" := Str("2023-06-15"),
          "time" := Str("09:30 AM"), "status" := Str(StatusLabel(status))]
  }

  /** The body of the SOS post. A ride without an `id` yields an undefined
      `rideId`, which the JSON body leaves out. */
  function SosReport(ride: Payload, at: Coords): (r: Payload)
    ensures "latitude" in r && r["latitude"] == Real(at.latitude)
    ensures "longitude" in r && r["longitude"] == Real(at.longitude)
    ensures "rideId" in r <==> "id" in ride
    ensures "id" in ride ==> r["rideId"] == ride["id"]
    ensures r.Keys <= {"rideId", "latitude", "longitude"}
  {
    var position := map["latitude" := Real(at.latitude), "longitude" := Real(at.longitude)];
    if "id" in ride then position["rideId" := ride["id"]] else position
  }

  class TrackingPage {
    var rideStatus: RideStatus
    var driverLocation: Point
    /** Held in component state but never updated. */
    const passengerLocation: Point
    var eta: Eta
    var distance: Distance
    var sosTriggered: bool
    var isLoading: bool
    /** The parent's ride, as the timer callbacks captured it; the page pushes
        copies and never changes it. */
    const activeRide: Option<Payload>

    // Pending timers: the start timeout, the position interval, the arrival
    // dwell timeout, the redirect to the rating page, and the SOS resets.
    var startPending: bool
    var intervalRunning: bool
    var dwellPending: bool
    var ratingPending: bool
    var sosResets: nat

    /** Toasts, parent updates, requests and navigation, in order. */
    var log: seq<Effect>

    /** Statuses taken so far, and ticks of the interval so far. */
    ghost var history: seq<RideStatus>
    ghost var ticks: nat

    ghost predicate Valid()
      reads this
    {
      passengerLocation == DefaultPassenger &&
      // the status only ever walks along the lifecycle, one step at a time
      1 <= |history| <= |Lifecycle| && history == Lifecycle[..|history|] &&
      rideStatus == history[|history| - 1] &&
      // which timer is pending in which status
      (startPending <==> rideStatus == Upcoming) &&
      (rideStatus == InProgress <==> intervalRunning || dwellPending) &&
      !(intervalRunning && dwellPending) &&
      (ratingPending ==> rideStatus == Completed) &&
      // the simulated progress is that of `ticks` ticks from the defaults
      // (DefaultAfter(k) == ProgressAfter(DefaultProgress, DefaultPassenger, k),
      // by DefaultRideProgress)
      ticks <= ArrivalTick && Progress(driverLocation, eta, distance) == DefaultAfter(ticks) &&
      (rideStatus == Upcoming ==> ticks == 0) &&
      (intervalRunning ==> ticks < ArrivalTick) &&
      (rideStatus != Upcoming && !intervalRunning ==> ticks == ArrivalTick) &&
      // a raised SOS always has a reset pending; no click is in flight
      (sosTriggered ==> sosResets > 0) &&
      !isLoading
    }

    /** Mounting the page: default state, and the start timer scheduled
        because the status is "upcoming". */
    constructor (activeRide: Option<Payload>)
      ensures Valid()
      ensures rideStatus == Upcoming && history == [Upcoming]
      ensures driverLocation == DefaultDriver && passengerLocation == DefaultPassenger
      ensures eta == Mins(15) && distance == Km(52)
      ensures !sosTriggered && !isLoading && this.activeRide == activeRide
      ensures startPending && !intervalRunning && !dwellPending && !ratingPending && sosResets == 0
      ensures log == []
    {
      rideStatus := Upcoming;
      driverLocation := DefaultDriver;
      passengerLocation := DefaultPassenger;
      eta := Mins(15);
      distance := Km(52);
      sosTriggered := false;
      isLoading := false;
      this.activeRide := activeRide;
      startPending := true;
      intervalRunning := false;
      dwellPending := false;
      ratingPending := false;
      sosResets := 0;
      log := [];
      history := [Upcoming];
      ticks := 0;
    }

    /** Sets the local status and pushes the updated ride to the parent, if
        there is one. Only the two timers call it, each for one step forward. */
    method UpdateRideStatus(status: RideStatus)
      requires (rideStatus, status) == (Upcoming, InProgress) || (rideStatus, status) == (InProgress, Completed)
      modifies this`rideStatus, this`log
      ensures rideStatus == status
      ensures log == old(log) + StatusPush(activeRide, status)
    {
      rideStatus := status;
      if activeRide.Some? {
        log := log + [PushRide(WithStatus(activeRide.value, status))];
      }
    }

    /** The start timeout: the ride goes in progress and the interval starts. */
    method StartTimerFired()
      requires Valid() && startPending
      modifies this
      ensures Valid()
      ensures old(rideStatus) == Upcoming && rideStatus == InProgress
      ensures history == old(history) + [InProgress]
      ensures log == old(log) + StatusPush(activeRide, InProgress) + [Toast(RideStartedText, Info)]
      ensures !startPending && intervalRunning && !dwellPending && !ratingPending
      ensures driverLocation == old(driverLocation) && eta == old(eta) && distance == old(distance)
      ensures ticks == old(ticks) && sosTriggered == old(sosTriggered) && sosResets == old(sosResets)
      ensures isLoading == old(isLoading)
    {
      UpdateRideStatus(InProgress);
      log := log + [Toast(RideStartedText, Info)];
      startPending := false;
      intervalRunning := true;
      history := history + [InProgress];
    }

    /** One firing of the interval: each driver coordinate below the
        passenger's rises by a step, the labels count down, and once both
        coordinates are at or past the passenger's the interval is cleared and
        the arrival dwell scheduled. With the defaults that happens on the
        eighth tick, at (70,70), "7 mins" and "1.2 km". */
    method Tick()
      requires Valid() && intervalRunning
      modifies this
      ensures Valid()
      ensures Progress(driverLocation, eta, distance) ==
        Advance(old(Progress(driverLocation, eta, distance)), passengerLocation)
      ensures old(driverLocation.x) <= driverLocation.x && old(driverLocation.y) <= driverLocation.y
      ensures intervalRunning == !Reached(driverLocation, passengerLocation)
      ensures dwellPending == Reached(driverLocation, passengerLocation)
      ensures dwellPending <==> ticks == ArrivalTick
      ensures dwellPending ==> driverLocation == Point(70, 70) && eta == Mins(7) && distance == Km(12)
      ensures ticks == old(ticks) + 1
      ensures rideStatus == old(rideStatus) == InProgress && history == old(history)
      ensures !startPending && !ratingPending && log == old(log)
      ensures sosTriggered == old(sosTriggered) && sosResets == old(sosResets)
      ensures isLoading == old(isLoading)
    {
      var newX := StepAxis(driverLocation.x, passengerLocation.x);
      var newY := StepAxis(driverLocation.y, passengerLocation.y);
      if newX >= passengerLocation.x && newY >= passengerLocation.y {
        intervalRunning := false;
        dwellPending := true;
      }
      driverLocation := Point(newX, newY);
      eta := NextEta(eta);
      distance := NextDistance(distance);
      ticks := ticks + 1;
    }

    /** The arrival dwell timeout: the ride completes and the redirect to the
        rating page is scheduled. */
    method ArrivalDwellFired()
      requires Valid() && dwellPending
      modifies this
      ensures Valid()
      ensures old(rideStatus) == InProgress && rideStatus == Completed
      ensures history == old(history) + [Completed]
      ensures log == old(log) + StatusPush(activeRide, Completed) + [Toast(ReachedText, Success)]
      ensures !startPending && !intervalRunning && !dwellPending && ratingPending
      ensures driverLocation == old(driverLocation) && eta == old(eta) && distance == old(distance)
      ensures ticks == old(ticks) && sosTriggered == old(sosTriggered) && sosResets == old(sosResets)
      ensures isLoading == old(isLoading)
    {
      UpdateRideStatus(Completed);
      log := log + [Toast(ReachedText, Success)];
      dwellPending := false;
      ratingPending := true;
      history := history + [Completed];
    }

    /** The redirect timeout after completion. */
    method RatingRedirectFired()
      requires Valid() && ratingPending
      modifies this`ratingPending, this`log
      ensures Valid()
      ensures log == old(log) + [Navigate(RatingRoute)]
      ensures !ratingPending
    {
      log := log + [Navigate(RatingRoute)];
      ratingPending := false;
    }

    /** The SOS button. Without geolocation support only a toast is shown.
        Otherwise the SOS is raised only when the position is obtained, the
        page has a ride to report and the post succeeds; every failure,
        including the missing ride (whose `id` cannot be read), leaves
        `sosTriggered` as it was. Loading ends in all these cases. */
    method SosClick(geolocationSupported: bool, position: Option<Coords>, post: Outcome<()>)
      requires Valid()
      modifies this
      ensures Valid()
      ensures sosTriggered == (old(sosTriggered) ||
        (geolocationSupported && position.Some? && activeRide.Some? && post.Ok?))
      ensures sosResets == old(sosResets) +
        (if geolocationSupported && position.Some? && activeRide.Some? && post.Ok? then 1 else 0)
      ensures !geolocationSupported ==> log == old(log) + [Toast(GeolocationMissingText, Error)]
      ensures geolocationSupported && (position.None? || activeRide.None?) ==>
        log == old(log) + [Toast(SosFailedText, Error)]
      ensures geolocationSupported && position.Some? && activeRide.Some? ==>
        log == old(log) + [Request(TriggerSos, SosReport(activeRide.value, position.value)),
                           Toast(if post.Ok? then SosSentText else SosFailedText, Error)]
      ensures !isLoading
      ensures rideStatus == old(rideStatus) && history == old(history) && ticks == old(ticks)
      ensures driverLocation == old(driverLocation) && eta == old(eta) && distance == old(distance)
      ensures startPending == old(startPending) && intervalRunning == old(intervalRunning)
      ensures dwellPending == old(dwellPending) && ratingPending == old(ratingPending)
    {
      if !geolocationSupported {
        log := log + [Toast(GeolocationMissingText, Error)];
        return;
      }
      isLoading := true;
      if position.None? || activeRide.None? {
        log := log + [Toast(SosFailedText, Error)];
      } else {
        log := log + [Request(TriggerSos, SosReport(activeRide.value, position.value))];
        if post.Ok? {
          sosTriggered := true;
          log := log + [Toast(SosSentText, Error)];
          sosResets := sosResets + 1;
        } else {
          log := log + [Toast(SosFailedText, Error)];
        }
      }
      isLoading := false;
    }

    /** One SOS reset timeout, ten seconds after a successful click. */
    method SosResetFired()
      requires Valid() && sosResets > 0
      modifies this`sosTriggered, this`sosResets
      ensures Valid()
      ensures !sosTriggered && sosResets == old(sosResets) - 1
    {
      sosTriggered := false;
      sosResets := sosResets - 1;
    }
  }

  /** The whole timer chain of a page opened on `activeRide`: the start timer,
      the interval until it clears itself, the arrival dwell and the redirect.
      The ride completes after exactly eight ticks at (70,70), "7 mins" and
      "1.2 km"; the parent sees "in-progress" then "completed". */
  method DefaultRideRun(activeRide: Option<Payload>)
    returns (status: RideStatus, driver: Point, eta: Eta, distance: Distance,
             tickCount: nat, effects: seq<Effect>)
    ensures status == Completed && tickCount == ArrivalTick
    ensures driver == Point(70, 70) && eta == Mins(7) && distance == Km(12)
    ensures effects == StatusPush(activeRide, InProgress) + [Toast(RideStartedText, Info)] +
                       StatusPush(activeRide, Completed) + [Toast(ReachedText, Success), Navigate(RatingRoute)]
  {
    var t := new TrackingPage(activeRide);
    t.StartTimerFired();
    tickCount := 0;
    while t.intervalRunning
      invariant t.Valid() && t.rideStatus == InProgress && t.activeRide == activeRide
      invariant tickCount == t.ticks <= ArrivalTick
      invariant t.log == StatusPush(activeRide, InProgress) + [Toast(RideStartedText, Info)]
      decreases ArrivalTick - tickCount
    {
      t.Tick();
      tickCount := tickCount + 1;
    }
    t.ArrivalDwellFired();
    t.RatingRedirectFired();
    status, driver, eta, distance, effects := t.rideStatus, t.driverLocation, t.eta, t.distance, t.log;
  }

  /** A successful SOS on a page with a ride: raised at once with exactly one
      report carrying the ride's id and the coordinates, and cleared by its
      reset timeout. */
  method SosRun(ride: Payload, at: Coords)
    returns (raised: bool, cleared: bool, effects: seq<Effect>)
    ensures raised && !cleared
    ensures effects == [Request(TriggerSos, SosReport(ride, at)), Toast(SosSentText, Error)]
  {
    var t := new TrackingPage(Some(ride));
    t.SosClick(true, Some(at), Ok(()));
    raised := t.sosTriggered;
    t.SosResetFired();
    cleared := t.sosTriggered;
    effects := t.log;
  }
}
