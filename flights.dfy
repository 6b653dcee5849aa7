/** Flight rows and the marker table they are reconciled into: the pure
    specification of MapComponent.updateFlightMarkers. */
module Flights {

  /** One cell of a positional flight row, as the endpoint's JSON delivers it.
      Coordinates and headings are never computed on, only stored and shown,
      so a number is carried by the text JavaScript prints for it. `Undefined`
      is what reading past the end of a row gives. */
  datatype Value = Undefined | Null | Bool(b: bool) | Num(text: string) | Str(s: string)

  type Row = seq<Value>

  // Fixed positions of the fields in a row.
  const IdField: nat := 0
  const CallsignField: nat := 1
  const CountryField: nat := 2
  const LngField: nat := 5
  const LatField: nat := 6
  const HeadingField: nat := 10

  /** JavaScript's String(v): what a template literal interpolates and what an
      object property key is converted to. */
  function Show(v: Value): string {
    match v
    case Undefined => "undefined"
    case Null => "null"
    case Bool(b) => if b then "true" else "false"
    case Num(text) => text
    case Str(s) => s
  }

  /** flight[i]: an index past the end of the row reads as undefined. */
  function Field(row: Row, i: nat): Value {
    if i < |row| then row[i] else Undefined
  }

  /** The key a row is filed under in the marker table: the first cell,
      converted to a property key. */
  function FlightId(row: Row): string {
    Show(Field(row, IdField))
  }

  /** The popup text bound to a flight's marker, the same on both paths. */
  function PopupText(row: Row): string {
    "Flight " + Show(Field(row, CallsignField))
      + "<br>Country: " + Show(Field(row, CountryField))
      + "<br>Lat: " + Show(Field(row, LatField))
      + ", Lng: " + Show(Field(row, LngField))
  }

  /** What the model keeps of a map marker: its position, the heading its icon
      is rotated by, and its popup text. */
  datatype Marker = Marker(lat: Value, lng: Value, heading: Value, popup: string)

  /** The create path: a marker at [lat, lng] with the rotated icon, and the popup bound. */
  function NewMarker(row: Row): Marker {
    Marker(Field(row, LatField), Field(row, LngField), Field(row, HeadingField), PopupText(row))
  }

  /** The update path: setLatLng, then setIcon, then bindPopup on the existing
      marker. Nothing of the old marker survives, so the result is exactly the
      marker the create path would have built. */
  function Refreshed(m: Marker, row: Row): (r: Marker)
    ensures r == NewMarker(row)
  {
    m.(lat := Field(row, LatField), lng := Field(row, LngField))
     .(heading := Field(row, HeadingField))
     .(popup := PopupText(row))
  }

  /** The marker table together with the map layer. The layer lists, in the
      order they were added, the ids whose markers were added to the map. */
  datatype Markers = Markers(table: map<string, Marker>, layer: seq<string>)

  /** Each id owns one marker and that marker was added to the map exactly once. */
  ghost predicate OneMarkerPerId(m: Markers) {
    && (forall i, j :: 0 <= i < j < |m.layer| ==> m.layer[i] != m.layer[j])
    && (forall id :: id in m.table <==> id in m.layer)
  }

  /** One row of the batch: update the marker of a known id, or create one,
      add it to the map and file it under the id. */
  function Upsert(m: Markers, row: Row): (r: Markers)
    ensures r.table == m.table[FlightId(row) := NewMarker(row)]
    ensures FlightId(row) in m.table ==> r.layer == m.layer
    ensures FlightId(row) !in m.table ==> r.layer == m.layer + [FlightId(row)]
    ensures OneMarkerPerId(m) ==> OneMarkerPerId(r)
  {
    var id := FlightId(row);
    if id in m.table then
      Markers(m.table[id := Refreshed(m.table[id], row)], m.layer)
    else
      Markers(m.table[id := NewMarker(row)], m.layer + [id])
  }

  /** The whole batch, row by row in batch order. */
  function Reconcile(m: Markers, rows: seq<Row>): (r: Markers)
    ensures OneMarkerPerId(m) ==> OneMarkerPerId(r)
    decreases |rows|
  {
    if rows == [] then m
    else Upsert(Reconcile(m, rows[..|rows| - 1]), rows[|rows| - 1])
  }

  /** Reconciling one more row of the batch is one more upsert. */
  lemma ReconcileStep(m: Markers, rows: seq<Row>, i: nat)
    requires i < |rows|
    ensures Reconcile(m, rows[..i + 1]) == Upsert(Reconcile(m, rows[..i]), rows[i])
  {
    assert rows[..i + 1][..i] == rows[..i];
  }

  /** The ids a batch mentions. */
  function Ids(rows: seq<Row>): set<string> {
    set row | row in rows :: FlightId(row)
  }

  lemma IdsSnoc(rows: seq<Row>)
    requires rows != []
    ensures Ids(rows) == Ids(rows[..|rows| - 1]) + {FlightId(rows[|rows| - 1])}
  {
    assert rows == rows[..|rows| - 1] + [rows[|rows| - 1]];
  }

  /** The position of the last row of the batch that carries `id`. */
  function LastIndex(rows: seq<Row>, id: string): (j: nat)
    requires id in Ids(rows)
    ensures j < |rows| && FlightId(rows[j]) == id
    ensures forall k :: j < k < |rows| ==> FlightId(rows[k]) != id
    decreases |rows|
  {
    assert rows != [];
    if FlightId(rows[|rows| - 1]) == id then |rows| - 1
    else
      IdsSnoc(rows);
      LastIndex(rows[..|rows| - 1], id)
  }

  /** The table's keys only grow: afterwards they are the old keys and the batch's ids. */
  lemma {:induction false} ReconcileKeys(m: Markers, rows: seq<Row>)
    ensures Reconcile(m, rows).table.Keys == m.table.Keys + Ids(rows)
    decreases |rows|
  {
    if rows != [] {
      ReconcileKeys(m, rows[..|rows| - 1]);
      IdsSnoc(rows);
    }
  }

  /** A flight the batch does not mention keeps its marker untouched. */
  lemma {:induction false} ReconcileKeepsOthers(m: Markers, rows: seq<Row>, id: string)
    requires id in m.table && id !in Ids(rows)
    ensures id in Reconcile(m, rows).table
    ensures Reconcile(m, rows).table[id] == m.table[id]
    decreases |rows|
  {
    if rows != [] {
      IdsSnoc(rows);
      ReconcileKeepsOthers(m, rows[..|rows| - 1], id);
    }
  }

  /** The last row carrying an id decides that id's marker: position,
      heading and popup all come from it, whatever the marker was before. */
  lemma {:induction false} ReconcileLastRowWins(m: Markers, rows: seq<Row>, j: nat)
    requires j < |rows|
    requires forall k :: j < k < |rows| ==> FlightId(rows[k]) != FlightId(rows[j])
    ensures FlightId(rows[j]) in Reconcile(m, rows).table
    ensures Reconcile(m, rows).table[FlightId(rows[j])] == NewMarker(rows[j])
    decreases |rows|
  {
    if j < |rows| - 1 {
      var init := rows[..|rows| - 1];
      assert init[j] == rows[j];
      ReconcileLastRowWins(m, init, j);
    }
  }

  /** The map layer only grows, and what a batch adds to it is exactly the ids
      of the batch that had no marker before. */
  lemma {:induction false} ReconcileLayer(m: Markers, rows: seq<Row>)
    ensures |m.layer| <= |Reconcile(m, rows).layer|
    ensures Reconcile(m, rows).layer[..|m.layer|] == m.layer
    ensures forall id :: id in Reconcile(m, rows).layer[|m.layer|..] <==> id in Ids(rows) && id !in m.table
    decreases |rows|
  {
    if rows != [] {
      var init := rows[..|rows| - 1];
      var last := rows[|rows| - 1];
      var r' := Reconcile(m, init);
      ReconcileLayer(m, init);
      ReconcileKeys(m, init);
      IdsSnoc(rows);
      if FlightId(last) !in r'.table {
        assert Reconcile(m, rows).layer[|m.layer|..] == r'.layer[|m.layer|..] + [FlightId(last)];
      }
    }
  }

  /** A batch whose ids all have markers adds nothing to the map. */
  lemma {:induction false} KnownIdsAddNothing(m: Markers, rows: seq<Row>)
    requires Ids(rows) <= m.table.Keys
    ensures Reconcile(m, rows).layer == m.layer
    decreases |rows|
  {
    if rows != [] {
      IdsSnoc(rows);
      KnownIdsAddNothing(m, rows[..|rows| - 1]);
      ReconcileKeys(m, rows[..|rows| - 1]);
    }
  }

  /** Reconciling the same batch a second time changes nothing. */
  lemma ReconcileIdempotent(m: Markers, rows: seq<Row>)
    ensures Reconcile(Reconcile(m, rows), rows) == Reconcile(m, rows)
  {
    var once := Reconcile(m, rows);
    var twice := Reconcile(once, rows);
    ReconcileKeys(m, rows);
    ReconcileKeys(once, rows);
    forall id | id in once.table
      ensures twice.table[id] == once.table[id]
    {
      if id in Ids(rows) {
        var j := LastIndex(rows, id);
        ReconcileLastRowWins(m, rows, j);
        ReconcileLastRowWins(once, rows, j);
      } else {
        ReconcileKeepsOthers(once, rows, id);
      }
    }
    assert twice.table == once.table;
    KnownIdsAddNothing(once, rows);
  }

  /** Reconciling one batch after another is reconciling their concatenation. */
  lemma {:induction false} ReconcileAppend(m: Markers, first: seq<Row>, second: seq<Row>)
    ensures Reconcile(m, first + second) == Reconcile(Reconcile(m, first), second)
    decreases |second|
  {
    if second == [] {
      assert first + second == first;
    } else {
      var whole := first + second;
      assert whole[..|whole| - 1] == first + second[..|second| - 1];
      assert whole[|whole| - 1] == second[|second| - 1];
      ReconcileAppend(m, first, second[..|second| - 1]);
    }
  }

  /** Two successive batches for one flight leave one marker, at the second
      batch's position and heading. */
  lemma TwoBatchesOneFlight()
    ensures var first := [Str("A1"), Str("XY123"), Str("India"), Num("0"), Num("0"), Num("77.5"), Num("12.9"),
                          Num("0"), Num("0"), Num("0"), Num("45")];
            var second := [Str("A1"), Str("XY123"), Str("India"), Num("0"), Num("0"), Num("77.6"), Num("13"),
                           Num("0"), Num("0"), Num("0"), Num("90")];
            var m := Reconcile(Reconcile(Markers(map[], []), [first]), [second]);
            && m.table.Keys == {"A1"}
            && m.table["A1"] == Marker(Num("13"), Num("77.6"), Num("90"),
                                       "Flight " + "XY123" + "<br>Country: " + "India" + "<br>Lat: " + "13" + ", Lng: " + "77.6")
            && m.layer == ["A1"]
  {
  }
}
