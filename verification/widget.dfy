/** Shaping of the screener widget's JSON response into result rows
    (`parse_widget_data`). The response holds a list of groups under
    "groupData"; each group is one stock with a "name" and a list of
    "results" objects mapping field names to value lists. Each group becomes
    one row: "Stock" bound to the name, then every field under its title-cased
    name, assigned in order so that a later write to the same name wins. */
module Widget {
  import opened Wrappers
  import opened Exceptions
  import opened Json
  import OrderedMap
  import TitleCase

  const GroupDataKey := "groupData"
  const NameKey := "name"
  const ResultsKey := "results"
  const StockKey := "Stock"

  /** The value the service puts in a field that has no data (1.7e+308). */
  const Sentinel: real := 1.7e308
  /** What the row shows instead of the sentinel. */
  const NotAvailable: Json := JStr("N/A")

  /** One shaped row: column name to cell, in column order. */
  type Row = OrderedMap.Entries<Json>
  /** The rows of one response, one per group; `pd.DataFrame(rows)` is not modelled. */
  type Table = seq<Row>

  /** The cell stored for a field value: a non-empty list collapses to its
      last element, with the sentinel shown as "N/A"; anything else is kept. */
  function Clean(v: Json): (r: Json)
    ensures v.JArr? && |v.items| > 0 && v.items[|v.items| - 1] != JNum(Sentinel) ==> r == v.items[|v.items| - 1]
    ensures v.JArr? && |v.items| > 0 && v.items[|v.items| - 1] == JNum(Sentinel) ==> r == NotAvailable
    ensures r == JNum(Sentinel) ==> v == JNum(Sentinel)
    ensures !(v.JArr? && |v.items| > 0) ==> r == v
  {
    if v.JArr? && |v.items| > 0 then
      var last := v.items[|v.items| - 1];
      if last == JNum(Sentinel) then NotAvailable else last
    else v
  }

  /** Only a list's last element matters: lists that end alike clean alike. */
  lemma CleanIgnoresEarlier(a: seq<Json>, b: seq<Json>, x: Json)
    ensures Clean(JArr(a + [x])) == Clean(JArr(b + [x]))
  {
    assert (a + [x])[|a|] == x;
    assert (b + [x])[|b|] == x;
  }

  /** The row writes one results object makes: each field under its title-cased name, cleaned. */
  function Writes(fields: OrderedMap.Entries<Json>): Row {
    seq(|fields|, i requires 0 <= i < |fields| => (TitleCase.Title(fields[i].0), Clean(fields[i].1)))
  }

  /** `group.get("name", "")`, for a group that is an object. */
  function GroupName(group: OrderedMap.Entries<Json>): Json {
    OrderedMap.Lookup(group, NameKey).GetOr(JStr(""))
  }

  /** `group.get("results", [])`, for a group that is an object. */
  function GroupResults(group: OrderedMap.Entries<Json>): Json {
    OrderedMap.Lookup(group, ResultsKey).GetOr(JArr([]))
  }

  /** The outer loop over a group's results objects: each must be an object
      (`.items()` raises AttributeError otherwise), and its fields are written
      into the row in order. */
  function ShapeResults(row: Row, results: seq<Json>): (r: Result<Row, Error>)
    decreases |results|
  {
    if |results| == 0 then Success(row)
    else if !results[0].JObj? then Failure(AttributeError)
    else ShapeResults(OrderedMap.AssignAll(row, Writes(results[0].fields)), results[1..])
  }

  /** Reference definition: all (key, value) pairs of the results objects, in iteration order. */
  function ResultFields(results: seq<Json>): OrderedMap.Entries<Json> {
    if |results| == 0 then []
    else (if results[0].JObj? then results[0].fields else []) + ResultFields(results[1..])
  }

  predicate AllObjects(results: seq<Json>) {
    forall i :: 0 <= i < |results| ==> results[i].JObj?
  }

  lemma {:induction false} WritesAppend(a: OrderedMap.Entries<Json>, b: OrderedMap.Entries<Json>)
    ensures Writes(a + b) == Writes(a) + Writes(b)
  {
  }

  /** The nested loop is one sequential assignment of every field of every
      results object, and it fails exactly when some results entry is not an
      object. */
  lemma {:induction false} ShapeResultsIsAssignAll(row: Row, results: seq<Json>)
    ensures ShapeResults(row, results)
         == if AllObjects(results) then Success(OrderedMap.AssignAll(row, Writes(ResultFields(results))))
            else Failure(AttributeError)
    decreases |results|
  {
    if |results| == 0 {
    } else if !results[0].JObj? {
    } else {
      var first := results[0].fields;
      var rest := results[1..];
      ShapeResultsIsAssignAll(OrderedMap.AssignAll(row, Writes(first)), rest);
      WritesAppend(first, ResultFields(rest));
      OrderedMap.AssignAllAppend(row, Writes(first), Writes(ResultFields(rest)));
      assert AllObjects(results) <==> AllObjects(rest);
    }
  }

  /** Reference definition: the (key, value) pairs a group contributes, when it is shaped without error. */
  function GroupFields(group: Json): OrderedMap.Entries<Json> {
    if group.JObj? && Iterate(GroupResults(group.fields)).Success?
    then ResultFields(Iterate(GroupResults(group.fields)).value)
    else []
  }

  /** One group to one row, as the loop body over "groupData" does it. */
  function ShapeGroup(group: Json): (r: Result<Row, Error>)
    ensures r.Success? <==>
      group.JObj? && Iterate(GroupResults(group.fields)).Success?
      && AllObjects(Iterate(GroupResults(group.fields)).value)
    ensures r.Success? ==> OrderedMap.DistinctKeys(r.value)
    ensures r.Success? ==> |r.value| > 0 && r.value[0].0 == StockKey
  {
    if !group.JObj? then Failure(AttributeError)
    else
      match Iterate(GroupResults(group.fields))
      case Failure(e) => Failure(e)
      case Success(results) =>
        var start := [(StockKey, GroupName(group.fields))];
        ShapeResultsIsAssignAll(start, results);
        StartsWithStock(start, Writes(ResultFields(results)));
        ShapeResults(start, results)
  }

  /** Writing fields into `{"Stock": name}` keeps "Stock" as the first of distinct columns. */
  lemma StartsWithStock(start: Row, ws: Row)
    requires |start| == 1 && start[0].0 == StockKey
    ensures var row := OrderedMap.AssignAll(start, ws);
      OrderedMap.DistinctKeys(row) && |row| > 0 && row[0].0 == StockKey
  {
    assert OrderedMap.Keys(start) == [StockKey];
    OrderedMap.AssignAllKeys(start, ws);
    OrderedMap.DedupHead([StockKey] + OrderedMap.Keys(ws));
  }

  /** Row contents: a column holds the value of the last field that title-cases
      to its name; "Stock" holds the group's name (or "") unless some field
      title-cases to "Stock"; no other column exists. */
  lemma ShapeGroupLookup(group: Json, column: string)
    ensures ShapeGroup(group).Success? ==>
      var ws := Writes(GroupFields(group));
      OrderedMap.Lookup(ShapeGroup(group).value, column)
      == if OrderedMap.LastWrite(ws, column).Some? then OrderedMap.LastWrite(ws, column)
         else if column == StockKey then Some(GroupName(group.fields))
         else None
  {
    if ShapeGroup(group).Success? {
      var results := Iterate(GroupResults(group.fields)).value;
      var start := [(StockKey, GroupName(group.fields))];
      ShapeResultsIsAssignAll(start, results);
      OrderedMap.AssignAllLookup(start, Writes(ResultFields(results)), column);
    }
  }

  /** Column order: "Stock" first, then each title-cased field name where it is first written. */
  lemma ShapeGroupColumns(group: Json)
    ensures ShapeGroup(group).Success? ==>
      OrderedMap.Keys(ShapeGroup(group).value)
      == OrderedMap.Dedup([StockKey] + OrderedMap.Keys(Writes(GroupFields(group))))
  {
    if ShapeGroup(group).Success? {
      var results := Iterate(GroupResults(group.fields)).value;
      var start := [(StockKey, GroupName(group.fields))];
      assert OrderedMap.Keys(start) == [StockKey];
      ShapeResultsIsAssignAll(start, results);
      OrderedMap.AssignAllKeys(start, Writes(ResultFields(results)));
    }
  }

  /** Which exception a group that cannot be shaped raises: `group.get` on a
      group that is not an object raises AttributeError, iterating a
      "results" that is null, a boolean or a number raises TypeError, and
      `.items()` on a results entry that is not an object raises
      AttributeError. */
  lemma ShapeGroupError(group: Json)
    ensures !group.JObj? ==> ShapeGroup(group) == Failure(AttributeError)
    ensures group.JObj? && Iterate(GroupResults(group.fields)).Failure? ==>
      ShapeGroup(group) == Failure(TypeError)
    ensures (group.JObj? && Iterate(GroupResults(group.fields)).Success?
             && !AllObjects(Iterate(GroupResults(group.fields)).value)) ==>
      ShapeGroup(group) == Failure(AttributeError)
  {
    if group.JObj? && Iterate(GroupResults(group.fields)).Success? {
      var results := Iterate(GroupResults(group.fields)).value;
      ShapeResultsIsAssignAll([(StockKey, GroupName(group.fields))], results);
    }
  }

  /** A group without results (no "results" key, or an empty list) is just `{"Stock": name}`. */
  lemma ShapeGroupWithoutResults(fields: OrderedMap.Entries<Json>)
    requires OrderedMap.Lookup(fields, ResultsKey).None? || OrderedMap.Lookup(fields, ResultsKey) == Some(JArr([]))
    ensures ShapeGroup(JObj(fields)) == Success([(StockKey, GroupName(fields))])
  {
  }

  /** The loop over "groupData": one row per group, in order; the first
      group that cannot be shaped aborts the parse. */
  function ShapeGroups(groups: seq<Json>): (r: Result<Table, Error>)
    ensures r.Success? <==> forall i :: 0 <= i < |groups| ==> ShapeGroup(groups[i]).Success?
    ensures r.Success? ==> |r.value| == |groups|
    ensures r.Success? ==> forall i :: 0 <= i < |groups| ==> ShapeGroup(groups[i]) == Success(r.value[i])
    ensures r.Failure? ==> exists i ::
      && 0 <= i < |groups|
      && ShapeGroup(groups[i]) == Failure(r.error)
      && forall j :: 0 <= j < i ==> ShapeGroup(groups[j]).Success?
    decreases |groups|
  {
    if |groups| == 0 then Success([])
    else
      match ShapeGroup(groups[0])
      case Failure(e) => Failure(e)
      case Success(row) =>
        match ShapeGroups(groups[1..])
        case Failure(e) => Failure(e)
        case Success(rows) => Success([row] + rows)
  }

  /** `parse_widget_data`: None ("no data") when the response has no
      "groupData", otherwise one row per group. A response that is not an
      object never yields rows: null, booleans and numbers raise at `in`; a
      list or string that contains "groupData" raises when indexed by a
      string, and otherwise it is "no data". */
  function Parse(data: Json): (r: Result<Option<Table>, Error>)
    ensures data.JObj? ==> (r == Success(None) <==> GroupDataKey !in OrderedMap.Keys(data.fields))
    ensures r.Success? && r.value.Some? <==>
      && data.JObj?
      && OrderedMap.Lookup(data.fields, GroupDataKey).Some?
      && var groups := Iterate(OrderedMap.Lookup(data.fields, GroupDataKey).value);
      && groups.Success?
      && forall i :: 0 <= i < |groups.value| ==> ShapeGroup(groups.value[i]).Success?
    ensures r.Failure? && !data.JObj? ==> r.error == TypeError
    ensures r.Failure? && data.JObj? ==>
      && OrderedMap.Lookup(data.fields, GroupDataKey).Some?
      && var groups := Iterate(OrderedMap.Lookup(data.fields, GroupDataKey).value);
      || groups == Failure(r.error)
      || (groups.Success? && exists i ::
            && 0 <= i < |groups.value|
            && ShapeGroup(groups.value[i]) == Failure(r.error)
            && forall j :: 0 <= j < i ==> ShapeGroup(groups.value[j]).Success?)
    ensures r.Success? && r.value.Some? ==>
      && data.JObj?
      && OrderedMap.Lookup(data.fields, GroupDataKey).Some?
      && var groups := Iterate(OrderedMap.Lookup(data.fields, GroupDataKey).value);
      && groups.Success?
      && |r.value.value| == |groups.value|
      && forall i :: 0 <= i < |groups.value| ==> ShapeGroup(groups.value[i]) == Success(r.value.value[i])
  {
    match Contains(data, GroupDataKey)
    case Failure(e) => Failure(e)
    case Success(present) =>
      if !present then Success(None)
      else if !data.JObj? then Failure(TypeError)
      else
        match Iterate(OrderedMap.Lookup(data.fields, GroupDataKey).value)
        case Failure(e) => Failure(e)
        case Success(groups) =>
          match ShapeGroups(groups)
          case Failure(e) => Failure(e)
          case Success(rows) => Success(Some(rows))
  }

  /** Only a response that is an object can produce rows; a list or string
      that mentions "groupData" raises TypeError, and null, booleans and
      numbers raise TypeError at the membership test. */
  lemma ParseNonObject(data: Json)
    requires !data.JObj?
    ensures Parse(data).Success? ==> Parse(data) == Success(None)
    ensures (data.JNull? || data.JBool? || data.JNum?) ==> Parse(data) == Failure(TypeError)
    ensures data.JArr? ==> Parse(data) == if JStr(GroupDataKey) in data.items then Failure(TypeError) else Success(None)
    ensures data.JStr? ==> Parse(data) == if IsSubstring(GroupDataKey, data.s) then Failure(TypeError) else Success(None)
  {
  }

  /** Unexpected shapes that do not raise, and two that do: an empty object
      or empty string under "groupData" gives an empty table; an empty object
      under "results" gives a row with only "Stock"; a non-empty object under
      "results", or a non-empty string under "groupData", iterates to strings,
      on which `.items()` or `.get` raises AttributeError. */
  lemma UnexpectedShapes()
    ensures Parse(JObj([(GroupDataKey, JObj([]))])) == Success(Some([]))
    ensures Parse(JObj([(GroupDataKey, JStr(""))])) == Success(Some([]))
    ensures Parse(JObj([(GroupDataKey, JStr("x"))])) == Failure(AttributeError)
    ensures ShapeGroup(JObj([(ResultsKey, JObj([]))])) == Success([(StockKey, JStr(""))])
    ensures ShapeGroup(JObj([(ResultsKey, JObj([("a", JNum(1.0))]))])) == Failure(AttributeError)
  {
    assert Iterate(JStr("x")).value == [JStr("x")];
    var nonEmpty := JObj([(ResultsKey, JObj([("a", JNum(1.0))]))]);
    assert GroupResults(nonEmpty.fields) == JObj([("a", JNum(1.0))]);
    assert Iterate(GroupResults(nonEmpty.fields)).value == [JStr("a")];
  }

  /** The response `{"groupData": [{"name": "ABC", "results": [{"growth": [1, 2, 3]}]}]}`
      gives the single row `{"Stock": "ABC", "Growth": 3}`. */
  lemma ExampleLastValue()
    ensures Parse(JObj([(GroupDataKey, JArr([JObj([
              (NameKey, JStr("ABC")),
              (ResultsKey, JArr([JObj([("growth", JArr([JNum(1.0), JNum(2.0), JNum(3.0)]))])]))])]))]))
         == Success(Some([[(StockKey, JStr("ABC")), ("Growth", JNum(3.0))]]))
  {
    var field := ("growth", JArr([JNum(1.0), JNum(2.0), JNum(3.0)]));
    var group := JObj([(NameKey, JStr("ABC")), (ResultsKey, JArr([JObj([field])]))]);
    ExampleGroup(group, [field], JStr("ABC"), JNum(3.0));
  }

  /** A field whose last value is the sentinel is shown as "N/A". */
  lemma ExampleSentinel()
    ensures Parse(JObj([(GroupDataKey, JArr([JObj([
              (ResultsKey, JArr([JObj([("growth", JArr([JNum(Sentinel)]))])]))])]))]))
         == Success(Some([[(StockKey, JStr("")), ("Growth", NotAvailable)]]))
  {
    var field := ("growth", JArr([JNum(Sentinel)]));
    var group := JObj([(ResultsKey, JArr([JObj([field])]))]);
    ExampleGroup(group, [field], JStr(""), NotAvailable);
  }

  /** A group whose one results object has the single field "growth" gives the row `{"Stock": name, "Growth": cell}`. */
  lemma ExampleRow(group: Json, fields: OrderedMap.Entries<Json>, name: Json, cell: Json)
    requires group.JObj?
    requires GroupName(group.fields) == name
    requires GroupResults(group.fields) == JArr([JObj(fields)])
    requires |fields| == 1 && fields[0].0 == "growth" && Clean(fields[0].1) == cell
    ensures ShapeGroup(group) == Success([(StockKey, name), ("Growth", cell)])
  {
    var start := [(StockKey, name)];
    var row := [(StockKey, name), ("Growth", cell)];
    assert TitleCase.Title("growth") == "Growth";
    assert Writes(fields) == [("Growth", cell)];
    assert OrderedMap.Assign(start, "Growth", cell) == row by {
      assert StockKey != "Growth";
      assert start[1..] == [];
    }
    assert OrderedMap.AssignAll(start, Writes(fields)) == row by {
      assert Writes(fields)[1..] == [];
    }
    assert ShapeResults(start, [JObj(fields)]) == Success(row) by {
      assert [JObj(fields)][1..] == [];
    }
  }

  /** A response whose "groupData" holds the single group of `ExampleRow`. */
  lemma ExampleGroup(group: Json, fields: OrderedMap.Entries<Json>, name: Json, cell: Json)
    requires group.JObj?
    requires GroupName(group.fields) == name
    requires GroupResults(group.fields) == JArr([JObj(fields)])
    requires |fields| == 1 && fields[0].0 == "growth" && Clean(fields[0].1) == cell
    ensures Parse(JObj([(GroupDataKey, JArr([group]))])) == Success(Some([[(StockKey, name), ("Growth", cell)]]))
  {
    var row := [(StockKey, name), ("Growth", cell)];
    ExampleRow(group, fields, name, cell);
    assert ShapeGroups([group]) == Success([row]) by {
      assert [group][1..] == [];
      assert ShapeGroups([]) == Success([]);
      assert [row] + [] == [row];
    }
    var data := JObj([(GroupDataKey, JArr([group]))]);
    assert OrderedMap.Lookup(data.fields, GroupDataKey) == Some(JArr([group]));
    assert Contains(data, GroupDataKey) == Success(true);
  }
}
