/**
 * The display-field picker of the settings page
 * (src/frontend/src/components/DisplayFieldSelector.tsx): a catalogue of the
 * flight fields the e-ink screen can show, the search over the fields not yet
 * chosen, their grouping by category, and the drag-and-drop handlers that
 * reorder, add and remove chosen fields (at most five). The parent's onChange
 * is modelled as adopting the new list at once; alert() is a returned flag.
 */
module FieldSelector {
  import opened Wrappers
  import Text
  import Seqs

  datatype FieldOption = FieldOption(id: string, title: string, description: string, category: string)

  /** At most this many fields may be chosen. */
  const MaxSelected := 5

  /** AVAILABLE_FIELDS, in the order of the source. */
  const AvailableFields: seq<FieldOption> := [
    FieldOption("id", "Flight ID", "Unique flight identifier", "Basic"),
    FieldOption("icao_24bit", "ICAO 24-bit", "Aircraft ICAO 24-bit address", "Basic"),
    FieldOption("callsign", "Callsign", "Flight callsign", "Basic"),
    FieldOption("number", "Flight Number", "Flight number", "Basic"),
    FieldOption("registration", "Registration", "Aircraft registration", "Basic"),
    FieldOption("aircraft", "Aircraft", "Aircraft model/code", "Aircraft"),
    FieldOption("aircraft_code", "Aircraft Code", "ICAO aircraft type code", "Aircraft"),
    FieldOption("aircraft_model", "Aircraft Model", "Full aircraft model name", "Aircraft"),
    FieldOption("aircraft_age", "Aircraft Age", "Age of aircraft", "Aircraft"),
    FieldOption("airline", "Airline", "Airline name", "Airline"),
    FieldOption("airline_name", "Airline Name", "Full airline name", "Airline"),
    FieldOption("airline_short_name", "Airline Short", "Short airline name", "Airline"),
    FieldOption("airline_iata", "Airline IATA", "Airline IATA code", "Airline"),
    FieldOption("airline_icao", "Airline ICAO", "Airline ICAO code", "Airline"),
    FieldOption("origin", "Origin Code", "Origin airport IATA code", "Origin"),
    FieldOption("origin_name", "Origin Name", "Origin airport name with code", "Origin"),
    FieldOption("origin_airport_icao", "Origin ICAO", "Origin airport ICAO code", "Origin"),
    FieldOption("origin_airport_country_name", "Origin Country", "Origin country name", "Origin"),
    FieldOption("origin_airport_gate", "Origin Gate", "Departure gate", "Origin"),
    FieldOption("origin_airport_terminal", "Origin Terminal", "Departure terminal", "Origin"),
    FieldOption("destination", "Dest Code", "Destination airport IATA code", "Destination"),
    FieldOption("destination_name", "Dest Name", "Destination airport name with code", "Destination"),
    FieldOption("destination_airport_icao", "Dest ICAO", "Destination airport ICAO code", "Destination"),
    FieldOption("destination_airport_country_name", "Dest Country", "Destination country name", "Destination"),
    FieldOption("destination_airport_gate", "Dest Gate", "Arrival gate", "Destination"),
    FieldOption("destination_airport_terminal", "Dest Terminal", "Arrival terminal", "Destination"),
    FieldOption("destination_airport_baggage", "Baggage Claim", "Baggage claim area", "Destination"),
    FieldOption("altitude", "Altitude", "Current altitude in feet", "Status"),
    FieldOption("speed", "Speed", "Ground speed in knots", "Status"),
    FieldOption("heading", "Heading", "Aircraft heading in degrees", "Status"),
    FieldOption("vertical_speed", "Vertical Speed", "Climb/descent rate", "Status"),
    FieldOption("squawk", "Squawk", "Transponder code", "Status"),
    FieldOption("on_ground", "On Ground", "Ground status", "Status"),
    FieldOption("status_text", "Status", "Flight status text", "Status"),
    FieldOption("distance", "Distance", "Distance from tracking point", "Position"),
    FieldOption("latitude", "Latitude", "Current latitude", "Position"),
    FieldOption("longitude", "Longitude", "Current longitude", "Position")
  ]

  /** The query, lower-cased, occurs in the lower-cased label (title), description or category. */
  predicate Matches(f: FieldOption, query: string) {
    var q := Text.ToLower(query);
    Text.Contains(Text.ToLower(f.title), q)
    || Text.Contains(Text.ToLower(f.description), q)
    || Text.Contains(Text.ToLower(f.category), q)
  }

  /** filteredFields: the fields not chosen yet that match the search query, in catalogue order. */
  function Available(fields: seq<FieldOption>, selected: seq<string>, query: string): seq<FieldOption> {
    Seqs.Filter(fields, (f: FieldOption) => f.id !in selected && Matches(f, query))
  }

  /**
   * A field is offered exactly when it is in the catalogue, not chosen, and
   * matches the query; the offer keeps the catalogue's order.
   */
  lemma AvailableExact(fields: seq<FieldOption>, selected: seq<string>, query: string)
    ensures var r := Available(fields, selected, query);
      (forall i :: 0 <= i < |r| ==> r[i] in fields && r[i].id !in selected && Matches(r[i], query))
      && (forall i :: 0 <= i < |fields| && fields[i].id !in selected && Matches(fields[i], query) ==> fields[i] in r)
      && Seqs.IsSubsequence(r, fields)
  {
    Seqs.FilterIsSubsequence(fields, (f: FieldOption) => f.id !in selected && Matches(f, query));
  }

  /** The empty query matches every field, so all fields not chosen are offered. */
  lemma EmptyQueryMatchesAll(f: FieldOption)
    ensures Matches(f, "")
  {
    assert Text.ToLower("") == "";
    assert "" <= Text.ToLower(f.title);
  }

  /** The test of `acc[field.category]`: a field belongs to category c. */
  function IsIn(c: string): FieldOption -> bool {
    (f: FieldOption) => f.category == c
  }

  /** The fields of one category, in their order. */
  function InCategory(s: seq<FieldOption>, c: string): (r: seq<FieldOption>)
    ensures forall i :: 0 <= i < |r| ==> r[i].category == c && r[i] in s
    ensures forall i :: 0 <= i < |s| && s[i].category == c ==> s[i] in r
    ensures Seqs.IsSubsequence(r, s)
  {
    Seqs.FilterIsSubsequence(s, IsIn(c));
    Seqs.Filter(s, IsIn(c))
  }

  /** A group holds each field of its category as often as the list does, and no other field. */
  lemma InCategoryExact(s: seq<FieldOption>, c: string, f: FieldOption)
    ensures multiset(InCategory(s, c))[f] == if f.category == c then multiset(s)[f] else 0
  {
    Seqs.FilterMultiset(s, IsIn(c), f);
  }

  /** A category missing from a list has no fields in it. */
  lemma InCategoryNone(s: seq<FieldOption>, c: string)
    requires forall k :: 0 <= k < |s| ==> s[k].category != c
    ensures InCategory(s, c) == []
  {
    Seqs.FilterNone(s, IsIn(c));
  }

  /** The index of the first field of category c, or |s| when there is none. */
  function FirstOf(s: seq<FieldOption>, c: string): (k: nat)
    ensures k <= |s| && (k < |s| ==> s[k].category == c)
    ensures forall j :: 0 <= j < k ==> s[j].category != c
  {
    if s == [] then 0
    else if s[0].category == c then 0
    else 1 + FirstOf(s[1..], c)
  }

  /** Appending a field leaves every first appearance before it in place. */
  lemma FirstOfSnoc(s: seq<FieldOption>, f: FieldOption, c: string)
    ensures FirstOf(s + [f], c) ==
      if FirstOf(s, c) < |s| then FirstOf(s, c) else if f.category == c then |s| else |s| + 1
  {
    var t := s + [f];
    assert forall j :: 0 <= j < |s| ==> t[j] == s[j];
    assert t[|s|] == f;
  }

  /** groups holds one non-empty group per category of s, with its fields in order, and order lists its keys once each. */
  ghost predicate GroupedAs(groups: map<string, seq<FieldOption>>, order: seq<string>, s: seq<FieldOption>) {
    (forall c :: c in groups <==> c in order)
    && (forall a, b :: 0 <= a < b < |order| ==> order[a] != order[b])
    && (forall c :: c in groups ==> groups[c] == InCategory(s, c) && groups[c] != [])
    && (forall k :: 0 <= k < |s| ==> s[k].category in groups)
  }

  /** Every category in order occurs in s, and they are listed by their first appearance in s. */
  ghost predicate FirstAppearance(order: seq<string>, s: seq<FieldOption>) {
    (forall i :: 0 <= i < |order| ==> FirstOf(s, order[i]) < |s|)
    && (forall a, b :: 0 <= a < b < |order| ==> FirstOf(s, order[a]) < FirstOf(s, order[b]))
  }

  /** One step of the reduce: a new category gets an empty group, then the field is pushed onto its group. */
  function AddToGroup(groups: map<string, seq<FieldOption>>, order: seq<string>, f: FieldOption)
    : (map<string, seq<FieldOption>>, seq<string>)
  {
    var (g, o) := if f.category in groups then (groups, order) else (groups[f.category := []], order + [f.category]);
    (g[f.category := g[f.category] + [f]], o)
  }

  lemma GroupStep(groups: map<string, seq<FieldOption>>, order: seq<string>, s: seq<FieldOption>, f: FieldOption)
    requires GroupedAs(groups, order, s)
    ensures var (g, o) := AddToGroup(groups, order, f); GroupedAs(g, o, s + [f])
  {
    GroupStepKeys(groups, order, s, f);
    GroupStepContents(groups, order, s, f);
  }

  /** A new category goes last in the order, after every category already seen. */
  lemma GroupStepOrder(groups: map<string, seq<FieldOption>>, order: seq<string>, s: seq<FieldOption>, f: FieldOption)
    requires forall c :: c in groups <==> c in order
    requires forall k :: 0 <= k < |s| ==> s[k].category in groups
    requires FirstAppearance(order, s)
    ensures FirstAppearance(AddToGroup(groups, order, f).1, s + [f])
  {
    forall i | 0 <= i < |order| ensures FirstOf(s + [f], order[i]) == FirstOf(s, order[i]) {
      FirstOfSnoc(s, f, order[i]);
    }
    if f.category !in groups {
      FirstOfSnoc(s, f, f.category);
      var o := order + [f.category];
      assert forall i :: 0 <= i < |order| ==> o[i] == order[i];
    }
  }

  /** The step keeps the keys and the order in step, and covers the new field's category. */
  lemma GroupStepKeys(groups: map<string, seq<FieldOption>>, order: seq<string>, s: seq<FieldOption>, f: FieldOption)
    requires GroupedAs(groups, order, s)
    ensures var (g, o) := AddToGroup(groups, order, f);
      (forall c :: c in g <==> c in o)
      && (forall a, b :: 0 <= a < b < |o| ==> o[a] != o[b])
      && (forall k :: 0 <= k < |s + [f]| ==> (s + [f])[k].category in g)
  {
    var t := s + [f];
    assert forall k :: 0 <= k < |s| ==> t[k] == s[k];
  }

  /** The step appends the field to its own group and leaves the others alone. */
  lemma GroupStepContents(groups: map<string, seq<FieldOption>>, order: seq<string>, s: seq<FieldOption>, f: FieldOption)
    requires GroupedAs(groups, order, s)
    ensures var (g, o) := AddToGroup(groups, order, f);
      forall c :: c in g ==> g[c] == InCategory(s + [f], c) && g[c] != []
  {
    var t := s + [f];
    assert t[..|t| - 1] == s;
    if f.category !in groups {
      InCategoryNone(s, f.category);
    }
    var (g, o) := AddToGroup(groups, order, f);
    forall c | c in g ensures g[c] == InCategory(t, c) && g[c] != [] {
      assert InCategory(t, c) == InCategory(s, c) + (if f.category == c then [f] else []);
    }
  }

  /**
   * groupedFields: the reduce into a record keyed by category. Each category
   * of the list gets one non-empty group holding its fields in order, and
   * `order` lists the categories as they first appear (Object.entries order).
   */
  method GroupFields(fields: seq<FieldOption>) returns (groups: map<string, seq<FieldOption>>, order: seq<string>)
    ensures forall c :: c in groups <==> c in order
    ensures forall i, j :: 0 <= i < j < |order| ==> order[i] != order[j]
    ensures forall c :: c in groups ==> groups[c] == InCategory(fields, c) && groups[c] != []
    ensures forall i :: 0 <= i < |fields| ==> fields[i].category in groups
    ensures forall i :: 0 <= i < |order| ==> FirstOf(fields, order[i]) < |fields|
    ensures forall a, b :: 0 <= a < b < |order| ==> FirstOf(fields, order[a]) < FirstOf(fields, order[b])
  {
    groups := map[];
    order := [];
    for i := 0 to |fields|
      invariant GroupedAs(groups, order, fields[..i])
      invariant FirstAppearance(order, fields[..i])
    {
      GroupStepAt(groups, order, fields, i);
      groups, order := PushField(groups, order, fields[i]);
    }
    assert fields[..|fields|] == fields;
  }

  /** The reduce over the first i fields, extended by field i. */
  lemma GroupStepAt(groups: map<string, seq<FieldOption>>, order: seq<string>, fields: seq<FieldOption>, i: nat)
    requires i < |fields|
    requires GroupedAs(groups, order, fields[..i]) && FirstAppearance(order, fields[..i])
    ensures var (g, o) := AddToGroup(groups, order, fields[i]);
      GroupedAs(g, o, fields[..i + 1]) && FirstAppearance(o, fields[..i + 1])
  {
    assert fields[..i + 1] == fields[..i] + [fields[i]];
    GroupStep(groups, order, fields[..i], fields[i]);
    GroupStepOrder(groups, order, fields[..i], fields[i]);
  }

  /** The body of the reduce for one field. */
  method PushField(groups: map<string, seq<FieldOption>>, order: seq<string>, f: FieldOption)
    returns (g: map<string, seq<FieldOption>>, o: seq<string>)
    ensures (g, o) == AddToGroup(groups, order, f)
  {
    g, o := groups, order;
    if f.category !in g {
      g := g[f.category := []];
      o := o + [f.category];
    }
    g := g[f.category := g[f.category] + [f]];
  }

  /** The groups partition the list: a field is in exactly the group of its own category. */
  lemma GroupsPartition(fields: seq<FieldOption>, c: string, f: FieldOption)
    ensures f in InCategory(fields, c) <==> f in fields && f.category == c
  {
    if f in fields && f.category == c {
      var k :| 0 <= k < |fields| && fields[k] == f;
    }
  }

  /** The catalogue entry with the given id, the first one if several had it. */
  function FindField(fields: seq<FieldOption>, id: string): (r: Option<FieldOption>)
    ensures r.Some? ==> r.value in fields && r.value.id == id
    ensures r.Some? ==> exists k :: 0 <= k < |fields| && fields[k] == r.value && forall j :: 0 <= j < k ==> fields[j].id != id
    ensures r.None? <==> forall i :: 0 <= i < |fields| ==> fields[i].id != id
  {
    if fields == [] then None
    else if fields[0].id == id then Some(fields[0])
    else FindField(fields[1..], id)
  }

  /** getFieldLabel: the catalogue label of a known id, otherwise the id itself. */
  function FieldLabel(id: string): (r: string)
    ensures (exists i :: 0 <= i < |AvailableFields| && AvailableFields[i].id == id) ==>
      exists k :: 0 <= k < |AvailableFields| && AvailableFields[k].id == id && r == AvailableFields[k].title
        && forall j :: 0 <= j < k ==> AvailableFields[j].id != id
    ensures (forall i :: 0 <= i < |AvailableFields| ==> AvailableFields[i].id != id) ==> r == id
  {
    match FindField(AvailableFields, id)
    case Some(f) => f.title
    case None => id
  }

  /** A chosen field dragged from position `from` and dropped over position `to`: splice out, splice in. */
  function Moved(s: seq<string>, from: nat, to: int): seq<string>
    requires from < |s|
  {
    Seqs.InsertAt(Seqs.RemoveAt(s, from), to, s[from])
  }

  /**
   * Reordering is a permutation that puts the dragged field at the target
   * position and keeps the other fields in their relative order.
   */
  lemma MovedProperties(s: seq<string>, from: nat, to: nat)
    requires from < |s| && to < |s|
    ensures var r := Moved(s, from, to);
      |r| == |s| && multiset(r) == multiset(s) && r[to] == s[from]
      && r[..to] + r[to + 1..] == Seqs.RemoveAt(s, from)
  {
  }

  /** Dragging the field back to where it came from restores the order. */
  lemma MovedBack(s: seq<string>, from: nat, to: nat)
    requires from < |s| && to < |s|
    ensures Moved(Moved(s, from, to), to, from) == s
  {
    var r := Moved(s, from, to);
    MovedProperties(s, from, to);
    assert Seqs.RemoveAt(r, to) == r[..to] + r[to + 1..];
    Seqs.RemoveInsert(s, from);
  }

  /** The component's state: the chosen fields (the prop the parent updates through onChange) and the drag state. */
  class FieldSelectorView {
    var selectedFields: seq<string>
    var searchQuery: string
    var draggedIndex: Option<int>
    var draggedField: Option<string>

    constructor (selectedFields: seq<string>)
      ensures this.selectedFields == selectedFields && searchQuery == ""
      ensures draggedIndex == None && draggedField == None
    {
      this.selectedFields := selectedFields;
      searchQuery := "";
      draggedIndex := None;
      draggedField := None;
    }

    /** The fields offered below the chosen ones. */
    function FilteredFields(): seq<FieldOption>
      reads this
    {
      Available(AvailableFields, selectedFields, searchQuery)
    }

    method SetSearchQuery(query: string)
      modifies this`searchQuery
      ensures searchQuery == query
    {
      searchQuery := query;
    }

    /** handleDragStart: remembers which chosen field is being dragged. */
    method DragStart(index: int)
      modifies this`draggedIndex
      ensures draggedIndex == Some(index)
    {
      draggedIndex := Some(index);
    }

    /**
     * handleDragOver over the chosen field at `index`: nothing happens when no
     * chosen field is dragged or it is over itself; otherwise the dragged field
     * moves to `index`, which becomes the dragged position.
     */
    method DragOver(index: int)
      requires draggedIndex.Some? ==> 0 <= draggedIndex.value < |selectedFields|
      requires 0 <= index < |selectedFields|
      modifies this`selectedFields, this`draggedIndex
      ensures old(draggedIndex) == None || old(draggedIndex) == Some(index) ==>
        selectedFields == old(selectedFields) && draggedIndex == old(draggedIndex)
      ensures old(draggedIndex).Some? && old(draggedIndex).value != index ==>
        selectedFields == Moved(old(selectedFields), old(draggedIndex).value, index) && draggedIndex == Some(index)
    {
      if draggedIndex == None || draggedIndex == Some(index) {
        return;
      }
      var from := draggedIndex.value;
      var newFields := selectedFields;
      var draggedItem := newFields[from];
      newFields := Seqs.RemoveAt(newFields, from);
      newFields := Seqs.InsertAt(newFields, index, draggedItem);
      selectedFields := newFields;
      draggedIndex := Some(index);
    }

    /** handleDrop (drag end): forgets both kinds of drag. */
    method Drop()
      modifies this`draggedIndex, this`draggedField
      ensures draggedIndex == None && draggedField == None
    {
      draggedIndex := None;
      draggedField := None;
    }

    /** handleFieldDragStart: remembers which catalogue field is being dragged. */
    method FieldDragStart(fieldId: string)
      modifies this`draggedField
      ensures draggedField == Some(fieldId)
    {
      draggedField := Some(fieldId);
    }

    /**
     * handleFieldDrop: without a dragged field (null or "") nothing happens;
     * with five or more chosen the user is alerted and the drag forgotten;
     * otherwise the field is spliced in at `index`, or appended when no index is given.
     */
    method FieldDrop(index: Option<int>) returns (alerted: bool)
      modifies this`selectedFields, this`draggedField
      ensures old(draggedField) == None || old(draggedField) == Some("") ==>
        !alerted && selectedFields == old(selectedFields) && draggedField == old(draggedField)
      ensures old(draggedField).Some? && old(draggedField) != Some("") ==>
        draggedField == None && (alerted <==> |old(selectedFields)| >= MaxSelected)
      ensures old(draggedField).Some? && old(draggedField) != Some("") && |old(selectedFields)| >= MaxSelected ==>
        selectedFields == old(selectedFields)
      ensures old(draggedField).Some? && old(draggedField) != Some("") && |old(selectedFields)| < MaxSelected ==>
        selectedFields == (if index.Some? then Seqs.InsertAt(old(selectedFields), index.value, old(draggedField).value)
                           else old(selectedFields) + [old(draggedField).value])
      ensures |old(selectedFields)| <= MaxSelected ==> |selectedFields| <= MaxSelected
    {
      alerted := false;
      if draggedField == None || draggedField == Some("") {
        return;
      }
      if |selectedFields| >= MaxSelected {
        alerted := true;
        draggedField := None;
        return;
      }
      var newFields := selectedFields;
      if index.Some? {
        newFields := Seqs.InsertAt(newFields, index.value, draggedField.value);
      } else {
        newFields := newFields + [draggedField.value];
      }
      selectedFields := newFields;
      draggedField := None;
    }

    /** removeField: the chosen field at `index` is dropped, the rest keep their order. */
    method RemoveField(index: int)
      modifies this`selectedFields
      ensures selectedFields == Seqs.Without(old(selectedFields), index)
      ensures |selectedFields| <= |old(selectedFields)|
    {
      selectedFields := Seqs.Without(selectedFields, index);
    }
  }
}
