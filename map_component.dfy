/** MapComponent: the flight-marker table it updates on every poll, and the
    on/off switch of the poll itself. */
module FlightMap {
  import opened Flights

  datatype Option<T> = None | Some(value: T)

  /** One firing of the poll, as the subscriber sees it: the fetched rows, or
      the fetch error. */
  datatype Tick = Batch(rows: seq<Row>) | Failed

  /** The handle subscribing to the poll returns. Once closed it delivers
      nothing more. */
  class Subscription {
    var closed: bool

    constructor ()
      ensures !closed
    {
      closed := false;
    }

    method Unsubscribe()
      modifies this
      ensures closed
    {
      closed := true;
    }
  }

  class MapComponent {
    var flightMarkers: map<string, Marker>
    /** The ids whose markers were added to the map, in the order they were added. */
    ghost var layer: seq<string>
    var flightsSubscription: Option<Subscription>
    var isFlightsActive: bool
    /** Every subscription the component has opened, oldest first. */
    ghost var subscriptions: seq<Subscription>

    /** The flag is set exactly when a subscription is held; that one is the
        latest and still open, and every earlier one has been closed, so no
        poll is left running behind the component's back. */
    ghost predicate Valid()
      reads this, subscriptions
    {
      && (isFlightsActive <==> flightsSubscription.Some?)
      && (flightsSubscription.Some? ==>
            && |subscriptions| > 0
            && flightsSubscription.value == subscriptions[|subscriptions| - 1]
            && !flightsSubscription.value.closed)
      && (forall i :: 0 <= i < |subscriptions| - (if isFlightsActive then 1 else 0) ==> subscriptions[i].closed)
      && OneMarkerPerId(Markers(flightMarkers, layer))
    }

    constructor ()
      ensures Valid()
      ensures !isFlightsActive && flightsSubscription == None
      ensures flightMarkers == map[] && layer == [] && subscriptions == []
    {
      flightMarkers := map[];
      layer := [];
      flightsSubscription := None;
      isFlightsActive := false;
      subscriptions := [];
    }

    /** After the map is set up, the component turns polling on. */
    method NgOnInit()
      requires Valid()
      modifies this, subscriptions
      ensures Valid()
      ensures isFlightsActive == !old(isFlightsActive)
      ensures old(isFlightsActive) ==> flightsSubscription == None && subscriptions == old(subscriptions)
      ensures old(isFlightsActive) ==> forall s :: s in subscriptions ==> s.closed
      ensures !old(isFlightsActive) ==> flightsSubscription.Some? && fresh(flightsSubscription.value)
      ensures !old(isFlightsActive) ==> subscriptions == old(subscriptions) + [flightsSubscription.value]
      ensures flightMarkers == old(flightMarkers) && layer == old(layer)
    {
      ShowFlights();
    }

    /** Teardown stops polling unconditionally. */
    method NgOnDestroy()
      requires Valid()
      modifies this, subscriptions
      ensures Valid()
      ensures !isFlightsActive && flightsSubscription == None
      ensures subscriptions == old(subscriptions)
      ensures forall s :: s in subscriptions ==> s.closed
      ensures flightMarkers == old(flightMarkers) && layer == old(layer)
    {
      StopFlights();
    }

    /** The toggle: stop when polling, start when idle. */
    method ShowFlights()
      requires Valid()
      modifies this, subscriptions
      ensures Valid()
      ensures isFlightsActive == !old(isFlightsActive)
      ensures old(isFlightsActive) ==> flightsSubscription == None && subscriptions == old(subscriptions)
      ensures old(isFlightsActive) ==> forall s :: s in subscriptions ==> s.closed
      ensures !old(isFlightsActive) ==> flightsSubscription.Some? && fresh(flightsSubscription.value)
      ensures !old(isFlightsActive) ==> subscriptions == old(subscriptions) + [flightsSubscription.value]
      ensures flightMarkers == old(flightMarkers) && layer == old(layer)
    {
      if isFlightsActive {
        StopFlights();
      } else {
        StartFlights();
      }
    }

    /** Raise the flag and subscribe to a fresh poll. Only the toggle calls
        this, and only while idle. */
    method StartFlights()
      requires Valid() && !isFlightsActive
      modifies this
      ensures Valid()
      ensures isFlightsActive && flightsSubscription.Some? && fresh(flightsSubscription.value)
      ensures subscriptions == old(subscriptions) + [flightsSubscription.value]
      ensures flightMarkers == old(flightMarkers) && layer == old(layer)
    {
      isFlightsActive := true;
      var s := new Subscription();
      flightsSubscription := Some(s);
      subscriptions := subscriptions + [s];
    }

    /** Unsubscribe if subscribed, then lower the flag. Stopping an idle
        component changes nothing. */
    method StopFlights()
      requires Valid()
      modifies this, subscriptions
      ensures Valid()
      ensures !isFlightsActive && flightsSubscription == None
      ensures subscriptions == old(subscriptions)
      ensures forall s :: s in subscriptions ==> s.closed
      ensures flightMarkers == old(flightMarkers) && layer == old(layer)
      ensures old(flightsSubscription).None? ==> unchanged(this) && unchanged(subscriptions)
    {
      if flightsSubscription.Some? {
        flightsSubscription.value.Unsubscribe();
        flightsSubscription := None;
      }
      isFlightsActive := false;
    }

    /** A poll delivery through subscription `s`. A closed subscription
        delivers nothing; through the open one, rows are reconciled into the
        marker table and an error stops polling. */
    method OnTick(s: Subscription, tick: Tick)
      requires Valid() && s in subscriptions
      modifies this, subscriptions
      ensures Valid()
      ensures subscriptions == old(subscriptions)
      ensures old(s.closed) ==> unchanged(this) && unchanged(subscriptions)
      ensures !old(s.closed) ==> old(flightsSubscription) == Some(s)
      ensures !old(s.closed) && tick.Batch? ==>
                && isFlightsActive && flightsSubscription == old(flightsSubscription)
                && Markers(flightMarkers, layer) == Reconcile(old(Markers(flightMarkers, layer)), tick.rows)
      ensures !old(s.closed) && tick.Failed? ==>
                && !isFlightsActive && flightsSubscription == None && s.closed
                && flightMarkers == old(flightMarkers) && layer == old(layer)
    {
      if !s.closed {
        match tick
        case Batch(rows) =>
          UpdateFlightMarkers(rows);
        case Failed =>
          StopFlights();
      }
    }

    /** Walk the batch in order: a known id has its marker moved, re-iconed
        and re-labelled; a new id gets a marker that is added to the map and
        filed under the id. */
    method UpdateFlightMarkers(data: seq<Row>)
      modifies this`flightMarkers, this`layer
      ensures Markers(flightMarkers, layer) == Reconcile(old(Markers(flightMarkers, layer)), data)
    {
      ghost var start := Markers(flightMarkers, layer);
      var i := 0;
      while i < |data|
        invariant 0 <= i <= |data|
        invariant Markers(flightMarkers, layer) == Reconcile(start, data[..i])
      {
        var flight := data[i];
        ghost var before := Markers(flightMarkers, layer);
        var flightId := FlightId(flight);
        if flightId in flightMarkers {
          var marker := flightMarkers[flightId];
          marker := marker.(lat := Field(flight, LatField), lng := Field(flight, LngField));
          marker := marker.(heading := Field(flight, HeadingField));
          marker := marker.(popup := PopupText(flight));
          assert marker == Refreshed(before.table[flightId], flight);
          flightMarkers := flightMarkers[flightId := marker];
        } else {
          var marker := NewMarker(flight);
          layer := layer + [flightId];
          flightMarkers := flightMarkers[flightId := marker];
        }
        assert Markers(flightMarkers, layer) == Upsert(before, flight);
        ReconcileStep(start, data, i);
        i := i + 1;
      }
      assert data[..|data|] == data;
    }
  }

  /** Pressing the toggle twice with no error in between returns the
      component to where it was. Exactly one subscription is opened on the
      way, and every subscription held before is closed afterwards. */
  method ToggleTwice(c: MapComponent)
    requires c.Valid()
    modifies c, c.subscriptions
    ensures c.Valid()
    ensures c.isFlightsActive == old(c.isFlightsActive)
    ensures c.flightsSubscription.Some? == old(c.flightsSubscription.Some?)
    ensures |c.subscriptions| == |old(c.subscriptions)| + 1
    ensures c.subscriptions[..|old(c.subscriptions)|] == old(c.subscriptions)
    ensures forall i :: 0 <= i < |old(c.subscriptions)| ==> c.subscriptions[i].closed
    ensures !c.isFlightsActive ==> forall s :: s in c.subscriptions ==> s.closed
    ensures c.flightMarkers == old(c.flightMarkers) && c.layer == old(c.layer)
  {
    c.ShowFlights();
    c.ShowFlights();
  }
}
