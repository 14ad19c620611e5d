/** The EFA bee: on a "departures" action it looks up a stop through an EFA
    transit-data client and fires one "departure" event per upcoming
    departure. */
module EfaBee {
  import opened Bees

  /** The EFA client: all it holds is the endpoint it queries. */
  datatype Efa = Efa(baseURL: string)

  datatype Station = Station(stopName: string, stopID: int)

  datatype ServingLine = ServingLine(number: string, direction: string)

  datatype Departure = Departure(countdown: int, servingLine: ServingLine)

  /** How many departures one action asks for. */
  const DepartureLimit := 3

  /** The "stop" value the option loop ends with when it starts at `stop`:
      each "stop" option overwrites it, and the type assertion panics
      (`Failure`) on the first "stop" option whose value is not a string. */
  function ScanStop(opts: seq<Placeholder>, stop: string): (r: Result<string, Placeholder>)
  {
    if opts == [] then Success(stop)
    else if opts[0].name == "stop" then
      if opts[0].value.Str? then ScanStop(opts[1..], opts[0].value.s) else Failure(opts[0])
    else ScanStop(opts[1..], stop)
  }

  /** The option loop of a "departures" action. */
  method SelectStop(opts: seq<Placeholder>) returns (r: Result<string, Placeholder>)
    ensures r == ScanStop(opts, "")
  {
    var stop := "";
    var i := 0;
    while i < |opts|
      invariant 0 <= i <= |opts|
      invariant ScanStop(opts[i..], stop) == ScanStop(opts, "")
    {
      assert opts[i..][1..] == opts[i + 1..];
      if opts[i].name == "stop" {
        if !opts[i].value.Str? {
          return Failure(opts[i]);
        }
        stop := opts[i].value.s;
      }
      i := i + 1;
    }
    r := Success(stop);
  }

  ghost predicate NonStringStop(p: Placeholder)
  {
    p.name == "stop" && !p.value.Str?
  }

  /** The option scan panics exactly when some "stop" option holds a
      non-string, and then on the first such option. */
  lemma {:induction false} ScanStopPanics(opts: seq<Placeholder>, stop: string)
    ensures ScanStop(opts, stop).Failure? <==> exists i :: 0 <= i < |opts| && NonStringStop(opts[i])
    ensures ScanStop(opts, stop).Failure? ==>
      exists i :: 0 <= i < |opts| && NonStringStop(opts[i]) && ScanStop(opts, stop).error == opts[i] &&
        forall j :: 0 <= j < i ==> !NonStringStop(opts[j])
  {
    if opts != [] {
      var next := if opts[0].name == "stop" && opts[0].value.Str? then opts[0].value.s else stop;
      ScanStopPanics(opts[1..], next);
      if !NonStringStop(opts[0]) {
        assert ScanStop(opts, stop) == ScanStop(opts[1..], next);
        if exists i :: 0 <= i < |opts| && NonStringStop(opts[i]) {
          var i :| 0 <= i < |opts| && NonStringStop(opts[i]);
          assert opts[1..][i - 1] == opts[i];
        }
        if ScanStop(opts, stop).Failure? {
          var i :| 0 <= i < |opts[1..]| && NonStringStop(opts[1..][i]) &&
            ScanStop(opts[1..], next).error == opts[1..][i] &&
            forall j :: 0 <= j < i ==> !NonStringStop(opts[1..][j]);
          assert forall j :: 0 <= j < i + 1 ==> !NonStringStop(opts[j]) by {
            forall j | 0 <= j < i + 1 ensures !NonStringStop(opts[j]) {
              if j > 0 { assert opts[j] == opts[1..][j - 1]; }
            }
          }
          assert opts[i + 1] == opts[1..][i];
        }
      }
    }
  }

  /** When the option scan does not panic, the last "stop" option wins, and
      without any "stop" option the starting value is kept. */
  lemma {:induction false} ScanStopLastWins(opts: seq<Placeholder>, stop: string)
    requires ScanStop(opts, stop).Success?
    ensures (forall i :: 0 <= i < |opts| ==> opts[i].name != "stop") ==> ScanStop(opts, stop).value == stop
    ensures forall i :: 0 <= i < |opts| && opts[i].name == "stop" &&
                        (forall j :: i < j < |opts| ==> opts[j].name != "stop") ==>
                        opts[i].value == Str(ScanStop(opts, stop).value)
  {
    if opts != [] {
      var next := if opts[0].name == "stop" then opts[0].value.s else stop;
      ScanStopLastWins(opts[1..], next);
      forall i | 0 <= i < |opts| && opts[i].name == "stop" &&
                 (forall j :: i < j < |opts| ==> opts[j].name != "stop")
        ensures opts[i].value == Str(ScanStop(opts, stop).value)
      {
        if i == 0 {
          assert forall j :: 0 <= j < |opts[1..]| ==> opts[1..][j].name != "stop" by {
            forall j | 0 <= j < |opts[1..]| ensures opts[1..][j].name != "stop" {
              assert opts[1..][j] == opts[j + 1];
            }
          }
        } else {
          assert opts[1..][i - 1] == opts[i];
          assert forall j :: i - 1 < j < |opts[1..]| ==> opts[1..][j].name != "stop" by {
            forall j | i - 1 < j < |opts[1..]| ensures opts[1..][j].name != "stop" {
              assert opts[1..][j] == opts[j + 1];
            }
          }
        }
      }
      if forall i :: 0 <= i < |opts| ==> opts[i].name != "stop" {
        assert forall j :: 0 <= j < |opts[1..]| ==> opts[1..][j].name != "stop" by {
          forall j | 0 <= j < |opts[1..]| ensures opts[1..][j].name != "stop" {
            assert opts[1..][j] == opts[j + 1];
          }
        }
      }
    }
  }

  /** The event fired for one departure. */
  function DepartureEvent(bee: string, d: Departure): (ev: Event)
  {
    Event(bee, "departure", [
      Placeholder("eta", "int", Int(d.countdown)),
      Placeholder("route", "string", Str(d.servingLine.number)),
      Placeholder("destination", "string", Str(d.servingLine.direction))
    ])
  }

  /** The events fired for `ds`, one per departure, in order. */
  function DepartureEvents(bee: string, ds: seq<Departure>): (evs: seq<Event>)
  {
    if ds == [] then [] else DepartureEvents(bee, ds[..|ds| - 1]) + [DepartureEvent(bee, ds[|ds| - 1])]
  }

  /** Exactly one event per departure, in the order the client returned
      them, each a "departure" event of `bee` carrying "eta", "route" and
      "destination" in that order. */
  lemma {:induction false} DepartureEventsAt(bee: string, ds: seq<Departure>)
    ensures |DepartureEvents(bee, ds)| == |ds|
    ensures forall i :: 0 <= i < |ds| ==>
      && DepartureEvents(bee, ds)[i].bee == bee
      && DepartureEvents(bee, ds)[i].name == "departure"
      && DepartureEvents(bee, ds)[i].options == [
           Placeholder("eta", "int", Int(ds[i].countdown)),
           Placeholder("route", "string", Str(ds[i].servingLine.number)),
           Placeholder("destination", "string", Str(ds[i].servingLine.direction))]
  {
    if ds != [] {
      DepartureEventsAt(bee, ds[..|ds| - 1]);
    }
  }

  class EfaBee {
    const name: string
    var baseURL: string
    var efa: Option<Efa>
    var eventChan: EventChan?

    constructor (name: string, baseURL: string)
      ensures this.name == name && this.baseURL == baseURL
      ensures efa == None && eventChan == null
    {
      this.name := name;
      this.baseURL := baseURL;
      efa := None;
      eventChan := null;
    }

    /** Stores the channel and creates a client for `baseURL`. */
    method Run(eventChan: EventChan)
      modifies this
      ensures this.eventChan == eventChan
      ensures efa == Some(Efa(baseURL))
      ensures baseURL == old(baseURL)
    {
      this.eventChan := eventChan;
      efa := Some(Efa(baseURL));
    }

    /** Performs an action, asking the client through `findStation` and
        `departures`. "departures" resolves the selected stop, asks for
        `DepartureLimit` departures of that station and fires one event per
        departure; a failure of either call fires nothing. Any other action
        name panics. */
    method Action(action: Bees.Action,
                  findStation: (Efa, string) -> Result<Station, string>,
                  departures: (Efa, Station, int) -> Result<seq<Departure>, string>)
      returns (outcome: Outcome)
      requires action.name == "departures" ==> eventChan != null && efa.Some?
      modifies eventChan
      ensures action.name != "departures" ==>
        && outcome == Panicked(UnknownAction(UnknownActionMessage(name, action.name)))
        && (eventChan != null ==> eventChan.events == old(eventChan.events))
      ensures action.name == "departures" ==>
        match ScanStop(action.options, "")
        case Failure(opt) =>
          outcome == Panicked(TypeAssertion(opt)) && eventChan.events == old(eventChan.events)
        case Success(stop) =>
          && outcome == Returned([])
          && match findStation(efa.value, stop)
             case Failure(_) => eventChan.events == old(eventChan.events)
             case Success(station) =>
               match departures(efa.value, station, DepartureLimit)
               case Failure(_) => eventChan.events == old(eventChan.events)
               case Success(ds) => eventChan.events == old(eventChan.events) + DepartureEvents(name, ds)
    {
      var outs := [];
      if action.name == "departures" {
        var selected := SelectStop(action.options);
        if selected.Failure? {
          return Panicked(TypeAssertion(selected.error));
        }
        var stop := selected.value;
        var station := findStation(efa.value, stop);
        if station.Failure? {
          return Returned(outs);
        }
        var ds := departures(efa.value, station.value, DepartureLimit);
        if ds.Failure? {
          return Returned(outs);
        }
        var i := 0;
        while i < |ds.value|
          invariant 0 <= i <= |ds.value|
          invariant eventChan.events == old(eventChan.events) + DepartureEvents(name, ds.value[..i])
        {
          var d := ds.value[i];
          var ev := Event(name, "departure", [
            Placeholder("eta", "int", Int(d.countdown)),
            Placeholder("route", "string", Str(d.servingLine.number)),
            Placeholder("destination", "string", Str(d.servingLine.direction))
          ]);
          assert ds.value[..i + 1][..i] == ds.value[..i];
          eventChan.Send(ev);
          i := i + 1;
        }
        assert ds.value[..i] == ds.value;
      } else {
        return Panicked(UnknownAction(UnknownActionMessage(name, action.name)));
      }
      outcome := Returned(outs);
    }
  }
}
