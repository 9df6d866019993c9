/** The ride search form: the seat choices, the submit handler's check, the
    query it sends, and how the result list and the `searched` flag follow
    the backend's answer. */
module SearchRides {
  import opened Ui

  /** The options of the seat select. */
  const SeatChoices := [1, 2, 3, 4]

  const FillAllText := "Please fill in all fields"
  const NoRidesText := "No rides found for your search criteria"
  const SearchFailedText := "Failed to search rides. Please try again."

  /** Every field is truthy: the strings are non-empty and the seat count is
      not zero. */
  predicate QueryComplete(departure: string, destination: string, date: string, seats: int) {
    Filled(departure) && Filled(destination) && Filled(date) && seats != 0
  }

  /** The warning the submit handler shows, if any. */
  function SearchWarning(departure: string, destination: string, date: string, seats: int): (w: Option<string>)
    ensures w.None? <==> QueryComplete(departure, destination, date, seats)
    ensures w.Some? ==> w.value == FillAllText
  {
    if QueryComplete(departure, destination, date, seats) then None else Some(FillAllText)
  }

  /** The query parameters of the search. */
  function SearchParams(departure: string, destination: string, date: string, seats: int): (r: Payload)
    ensures r.Keys == {"departure", "destination", "date", "seats"}
    ensures r["departure"] == Str(departure) && r["destination"] == Str(destination)
    ensures r["date"] == Str(date) && r["seats"] == Int(seats)
  {
    map["departure" := Str(departure), "destination" := Str(destination),
        "date" := Str(date), "seats" := Int(seats)]
  }

  /** A seat count the select can produce never blocks a search on its own. */
  lemma {:induction false} ChosenSeatsAreTruthy(seats: int)
    requires seats in SeatChoices
    ensures 1 <= seats <= 4
    ensures forall dep, dest, date ::
      SearchWarning(dep, dest, date, seats).None? <==> Filled(dep) && Filled(dest) && Filled(date)
  {
  }

  class SearchRidesPage {
    var departure: string
    var destination: string
    var date: string
    var seats: int
    /** The rides of the last successful search, as the backend sent them. */
    var rides: seq<Payload>
    var searched: bool
    var isLoading: bool
    /** Toasts and requests, in order. */
    var log: seq<Effect>

    /** The seat count is always one of the select's options. */
    ghost predicate Valid()
      reads this
    {
      seats in SeatChoices
    }

    constructor ()
      ensures Valid()
      ensures departure == "" && destination == "" && date == "" && seats == 1
      ensures rides == [] && !searched && !isLoading && log == []
    {
      departure := "";
      destination := "";
      date := "";
      seats := 1;
      rides := [];
      searched := false;
      isLoading := false;
      log := [];
    }

    /** The text and date inputs' change handlers. */
    method EditQuery(departure: string, destination: string, date: string)
      requires Valid()
      modifies this`departure, this`destination, this`date
      ensures Valid()
      ensures this.departure == departure && this.destination == destination && this.date == date
    {
      this.departure := departure;
      this.destination := destination;
      this.date := date;
    }

    /** The seat select's change handler, given the option picked. */
    method SelectSeats(choice: nat)
      requires choice < |SeatChoices|
      modifies this`seats
      ensures Valid()
      ensures seats == SeatChoices[choice]
    {
      seats := SeatChoices[choice];
    }

    /** The submit handler, given how the search call ends. A failed check
        shows its warning and changes nothing else. On success the rides are
        replaced by the answer and `searched` is set, with an info toast when
        the answer is empty; on failure an error toast is shown and the
        previous rides and `searched` stay. Loading ends either way. Since the
        seat count is always an option of the select, only the three text
        inputs can cause the warning. */
    method HandleSearch(response: Outcome<seq<Payload>>)
      requires Valid()
      modifies this`rides, this`searched, this`isLoading, this`log
      ensures Valid()
      ensures SearchWarning(departure, destination, date, seats).None? <==>
        Filled(departure) && Filled(destination) && Filled(date)
      ensures var w := SearchWarning(departure, destination, date, seats);
        w.Some? ==>
          log == old(log) + [Toast(w.value, Warning)] &&
          rides == old(rides) && searched == old(searched) && isLoading == old(isLoading)
      ensures var w := SearchWarning(departure, destination, date, seats);
        w.None? && response.Ok? ==>
          rides == response.data && searched && !isLoading &&
          log == old(log) + [Request(SearchRides, SearchParams(departure, destination, date, seats))] +
                 (if response.data == [] then [Toast(NoRidesText, Info)] else [])
      ensures var w := SearchWarning(departure, destination, date, seats);
        w.None? && !response.Ok? ==>
          rides == old(rides) && searched == old(searched) && !isLoading &&
          log == old(log) + [Request(SearchRides, SearchParams(departure, destination, date, seats)),
                             Toast(SearchFailedText, Error)]
    {
      ChosenSeatsAreTruthy(seats);
      if !QueryComplete(departure, destination, date, seats) {
        log := log + [Toast(FillAllText, Warning)];
        return;
      }

      isLoading := true;
      log := log + [Request(SearchRides, SearchParams(departure, destination, date, seats))];
      match response {
        case Ok(found) =>
          rides := found;
          searched := true;
          if |found| == 0 {
            log := log + [Toast(NoRidesText, Info)];
          }
        case _ =>
          log := log + [Toast(SearchFailedText, Error)];
      }
      isLoading := false;
    }
  }
}
