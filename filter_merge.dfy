/**
  The filter-merge rebuild of the tile's filter effect (`updateQueryWithFilters`
  in src/VizWithFilter.js). Once the query has been re-fetched, the tile builds
  a new query body that holds only the allow-listed fields of the fetched query
  and a new `filters` map combining
    1. the fetched query's own filters,
    2. the multi-select selection, comma-joined, under the configured filter field
       (or that field removed when nothing is selected), and
    3. every dashboard filter whose label has an entry in the label-to-field
       table and whose value is not `null`, later entries winning.
 */
module FilterMerge {

  import opened Wrappers
  import opened Json

  /** A dashboard filter as `Object.entries(dashboardFilters)` yields it: (label, value). */
  type Entry = (string, Value)

  /** The query fields copied into a rebuilt query body, in the source's order. */
  const AllowedKeys: seq<string> := [
    "model", "view", "fields", "pivots", "fill_fields", "filters",
    "filter_expression", "sorts", "limit", "column_limit", "total",
    "row_total", "subtotals", "vis_config", "filter_config",
    "visible_ui_sections", "dynamic_fields", "query_timezone"
  ]

  /** The constant table translating a dashboard filter label to a query field. */
  const DashboardFilterMap: map<string, string> :=
    map["Product ID" := "look_order_items_partitioned.product_id"]

  /** The separator `Array.prototype.join` is given for the selection. */
  const Separator: char := ','

  // ---------------------------------------------------------------------------
  // Specification of the rebuild
  // ---------------------------------------------------------------------------

  /** The properties of `q` named in `keys`, each with its value. */
  function CopyKeys(q: Object, keys: seq<string>): Object
  {
    if keys == [] then map[]
    else
      var copied := CopyKeys(q, keys[..|keys| - 1]);
      var key := keys[|keys| - 1];
      if key in q then copied[key := q[key]] else copied
  }

  /** `queryInit.filters || {}`, then copied by a spread. */
  function BaselineFilters(q: Object): Object
  {
    if "filters" in q then Spread(q["filters"]) else map[]
  }

  /** The selection values joined as `Array.prototype.join(',')` joins them. */
  function Join(parts: seq<string>): string
  {
    if parts == [] then ""
    else if |parts| == 1 then parts[0]
    else parts[0] + [Separator] + Join(parts[1..])
  }

  /** A non-empty selection is written under `field`; an empty one removes `field`. */
  function ApplySelection(filters: Object, field: string, selection: seq<string>): Object
  {
    if |selection| > 0 then filters[field := Str(Join(selection))] else filters - {field}
  }

  /** A dashboard filter entry is applied when its label is on the table and its value is not `null`. */
  predicate Applies(e: Entry)
  {
    e.0 in DashboardFilterMap && e.1 != Null
  }

  /** The entry is applied and its label translates to `key`. */
  predicate Writes(e: Entry, key: string)
  {
    Applies(e) && DashboardFilterMap[e.0] == key
  }

  /** One turn of the loop over the dashboard filter entries. */
  function OverlayEntry(filters: Object, e: Entry): Object
  {
    if Applies(e) then filters[DashboardFilterMap[e.0] := e.1] else filters
  }

  /** The loop over the dashboard filter entries, in order. */
  function Overlay(filters: Object, entries: seq<Entry>): Object
  {
    if entries == [] then filters
    else OverlayEntry(Overlay(filters, entries[..|entries| - 1]), entries[|entries| - 1])
  }

  /** The merged filter map installed in the rebuilt body. */
  function MergedFilters(q: Object, field: string, selection: seq<string>,
                         dashboard: Option<seq<Entry>>): Object
  {
    var selected := ApplySelection(BaselineFilters(q), field, selection);
    if |DashboardFilterMap| > 0 && dashboard.Some? then Overlay(selected, dashboard.value)
    else selected
  }

  /** The query body handed to the query-creation call. */
  function RebuiltBody(q: Object, field: string, selection: seq<string>,
                       dashboard: Option<seq<Entry>>): Object
  {
    CopyKeys(q, AllowedKeys)["filters" := Obj(MergedFilters(q, field, selection, dashboard))]
  }

  /** The dashboard filter entries the overlay runs over; none when the host gives none. */
  function EntriesOf(dashboard: Option<seq<Entry>>): seq<Entry>
  {
    if dashboard.Some? then dashboard.value else []
  }

  // ---------------------------------------------------------------------------
  // The rebuild as the source performs it
  // ---------------------------------------------------------------------------

  /**
    Builds the new query body from the re-fetched query `fetched`, the configured
    filter field, the current selection and the host's dashboard filters.
   */
  method RebuildQueryBody(fetched: Object, field: string, selection: seq<string>,
                          dashboard: Option<seq<Entry>>) returns (body: Object)
    ensures body == RebuiltBody(fetched, field, selection, dashboard)
  {
    body := CopyAllowedKeys(fetched);

    var existing := if "filters" in fetched then fetched["filters"] else Null;
    var combined := Spread(existing);

    if |selection| > 0 {
      var filterValues := Join(selection);
      combined := combined[field := Str(filterValues)];
    } else {
      combined := combined - {field};
    }

    assert combined == ApplySelection(BaselineFilters(fetched), field, selection);

    if |DashboardFilterMap| > 0 && dashboard.Some? {
      combined := ApplyDashboardFilters(combined, dashboard.value);
    }
    assert combined == MergedFilters(fetched, field, selection, dashboard);

    body := body["filters" := Obj(combined)];
  }

  /** The loop copying the allow-listed properties the fetched query owns. */
  method CopyAllowedKeys(fetched: Object) returns (body: Object)
    ensures body == CopyKeys(fetched, AllowedKeys)
  {
    body := map[];
    var i := 0;
    while i < |AllowedKeys|
      invariant 0 <= i <= |AllowedKeys|
      invariant body == CopyKeys(fetched, AllowedKeys[..i])
    {
      var key := AllowedKeys[i];
      assert AllowedKeys[..i + 1][..i] == AllowedKeys[..i];
      if key in fetched {
        body := body[key := fetched[key]];
      }
      i := i + 1;
    }
    assert AllowedKeys[..i] == AllowedKeys;
  }

  /** The loop over `Object.entries(dashboardFilters)`, updating `combinedFilters` in place. */
  method ApplyDashboardFilters(filters: Object, entries: seq<Entry>) returns (combined: Object)
    ensures combined == Overlay(filters, entries)
  {
    combined := filters;
    var j := 0;
    while j < |entries|
      invariant 0 <= j <= |entries|
      invariant combined == Overlay(filters, entries[..j])
    {
      var (key, value) := entries[j];
      assert entries[..j + 1][..j] == entries[..j];
      if key in DashboardFilterMap && value != Null {
        var mappedKey := DashboardFilterMap[key];
        combined := combined[mappedKey := value];
      }
      j := j + 1;
    }
    assert entries[..j] == entries;
  }

  // ---------------------------------------------------------------------------
  // Properties of the rebuild
  // ---------------------------------------------------------------------------

  /** Copying named keys keeps exactly the named keys the object has, with their values. */
  lemma {:induction false} CopyKeysExact(q: Object, keys: seq<string>)
    ensures forall k :: k in CopyKeys(q, keys) <==> k in q && k in keys
    ensures forall k :: k in CopyKeys(q, keys) ==> CopyKeys(q, keys)[k] == q[k]
  {
    if keys != [] {
      var init := keys[..|keys| - 1];
      CopyKeysExact(q, init);
      assert keys == init + [keys[|keys| - 1]];
    }
  }

  /**
    The rebuilt body holds a property only when it is on the allow-list, and
    then it is `filters` or a property of the fetched query with its value
    unchanged; unlisted properties of the fetched query never appear.
   */
  lemma AllowListCopyExact(q: Object, field: string, selection: seq<string>,
                           dashboard: Option<seq<Entry>>)
    ensures var body := RebuiltBody(q, field, selection, dashboard);
      && (forall k :: k in body <==> k == "filters" || (k in q && k in AllowedKeys))
      && (forall k :: k in body && k != "filters" ==> body[k] == q[k])
      && (forall k :: k in body ==> k in AllowedKeys)
      && body["filters"] == Obj(MergedFilters(q, field, selection, dashboard))
  {
    CopyKeysExact(q, AllowedKeys);
  }

  /** The last entry that writes `key` decides its value in the overlay. */
  lemma {:induction false} OverlayLastWriter(filters: Object, entries: seq<Entry>, key: string, i: nat)
    requires i < |entries| && Writes(entries[i], key)
    requires forall j :: i < j < |entries| ==> !Writes(entries[j], key)
    ensures key in Overlay(filters, entries) && Overlay(filters, entries)[key] == entries[i].1
  {
    var n := |entries| - 1;
    if i < n {
      var init := entries[..n];
      assert forall j :: i < j < n ==> init[j] == entries[j];
      OverlayLastWriter(filters, init, key, i);
      assert !Writes(entries[n], key);
    }
  }

  /** A key that no entry writes keeps its presence and value through the overlay. */
  lemma {:induction false} OverlayNoWriter(filters: Object, entries: seq<Entry>, key: string)
    requires forall i :: 0 <= i < |entries| ==> !Writes(entries[i], key)
    ensures key in Overlay(filters, entries) <==> key in filters
    ensures key in filters ==> Overlay(filters, entries)[key] == filters[key]
  {
    if entries != [] {
      var n := |entries| - 1;
      var init := entries[..n];
      assert forall i :: 0 <= i < n ==> init[i] == entries[i];
      OverlayNoWriter(filters, init, key);
      assert !Writes(entries[n], key);
    }
  }

  /**
    With or without dashboard filters, the merge is the overlay of the entries
    the host supplied: the table has an entry, so its emptiness test never
    skips the overlay, and absent dashboard filters are no entries.
   */
  lemma MergedIsOverlay(q: Object, field: string, selection: seq<string>,
                        dashboard: Option<seq<Entry>>)
    ensures MergedFilters(q, field, selection, dashboard)
         == Overlay(ApplySelection(BaselineFilters(q), field, selection), EntriesOf(dashboard))
  {
  }

  /**
    Unless a dashboard filter writes the configured field, a non-empty selection
    is stored there as its values joined by "," in their original order.
   */
  lemma SelectionWritten(q: Object, field: string, selection: seq<string>,
                         dashboard: Option<seq<Entry>>)
    requires |selection| > 0
    requires forall i :: 0 <= i < |EntriesOf(dashboard)| ==> !Writes(EntriesOf(dashboard)[i], field)
    ensures field in MergedFilters(q, field, selection, dashboard)
    ensures MergedFilters(q, field, selection, dashboard)[field] == Str(Join(selection))
  {
    var selected := ApplySelection(BaselineFilters(q), field, selection);
    assert field in selected && selected[field] == Str(Join(selection));
    MergedIsOverlay(q, field, selection, dashboard);
    OverlayNoWriter(selected, EntriesOf(dashboard), field);
  }

  /**
    Unless a dashboard filter writes the configured field, an empty selection
    leaves the field absent, even if the fetched query had it.
   */
  lemma SelectionCleared(q: Object, field: string, dashboard: Option<seq<Entry>>)
    requires forall i :: 0 <= i < |EntriesOf(dashboard)| ==> !Writes(EntriesOf(dashboard)[i], field)
    ensures field !in MergedFilters(q, field, [], dashboard)
  {
    var selected := ApplySelection(BaselineFilters(q), field, []);
    assert field !in selected;
    MergedIsOverlay(q, field, [], dashboard);
    OverlayNoWriter(selected, EntriesOf(dashboard), field);
  }

  /**
    A dashboard filter with a table entry and a non-null value sets its field,
    overriding both the fetched query's value and the selection at that field;
    of several such entries for one field the last one wins.
   */
  lemma DashboardEntryWins(q: Object, field: string, selection: seq<string>,
                           entries: seq<Entry>, i: nat)
    requires i < |entries| && Applies(entries[i])
    requires forall j :: i < j < |entries| ==> !Writes(entries[j], DashboardFilterMap[entries[i].0])
    ensures var key := DashboardFilterMap[entries[i].0];
      var merged := MergedFilters(q, field, selection, Some(entries));
      key in merged && merged[key] == entries[i].1
  {
    OverlayLastWriter(ApplySelection(BaselineFilters(q), field, selection), entries,
                      DashboardFilterMap[entries[i].0], i);
  }

  /**
    An entry whose label is not on the table or whose value is `null` changes
    nothing, wherever it stands among the entries.
   */
  lemma {:induction false} IgnoredEntryNoEffect(filters: Object, before: seq<Entry>, e: Entry,
                                                after: seq<Entry>)
    requires !Applies(e)
    ensures Overlay(filters, before + [e] + after) == Overlay(filters, before + after)
  {
    if after == [] {
      assert before + [e] + after == before + [e];
      assert (before + [e])[..|before|] == before;
      assert before + after == before;
    } else {
      var n := |after| - 1;
      IgnoredEntryNoEffect(filters, before, e, after[..n]);
      assert (before + [e] + after)[..|before| + 1 + n] == before + [e] + after[..n];
      assert (before + after)[..|before| + n] == before + after[..n];
    }
  }

  /**
    A filter key that is neither the configured field nor written by any
    dashboard filter keeps exactly its presence and value from the fetched
    query's own `filters` object, and is absent when the query has no filters
    or a `null`, boolean or number there. (Every key outside the table's fields
    is such a key.)
   */
  lemma UntouchedKeysKept(q: Object, field: string, selection: seq<string>,
                          dashboard: Option<seq<Entry>>, key: string)
    requires key != field
    requires forall i :: 0 <= i < |EntriesOf(dashboard)| ==> !Writes(EntriesOf(dashboard)[i], key)
    ensures var merged := MergedFilters(q, field, selection, dashboard);
      "filters" in q && q["filters"].Obj? ==>
        && (key in merged <==> key in q["filters"].fields)
        && (key in merged ==> merged[key] == q["filters"].fields[key])
    ensures "filters" !in q || q["filters"].Null? || q["filters"].Bool? || q["filters"].Num? ==>
      key !in MergedFilters(q, field, selection, dashboard)
  {
    OverlayNoWriter(ApplySelection(BaselineFilters(q), field, selection), EntriesOf(dashboard), key);
  }

  // ---------------------------------------------------------------------------
  // Reading a joined selection back
  // ---------------------------------------------------------------------------

  /** A comma-separated filter value read back as its list of alternatives. */
  function Split(s: string): (parts: seq<string>)
    ensures |parts| >= 1
  {
    if s == [] then [""]
    else if s[0] == Separator then [""] + Split(s[1..])
    else
      var rest := Split(s[1..]);
      [[s[0]] + rest[0]] + rest[1..]
  }

  lemma {:induction false} SplitUnseparated(x: string, t: string)
    requires Separator !in x
    ensures Split(x + t) == [x + Split(t)[0]] + Split(t)[1..]
  {
    if x == [] {
      assert x + t == t;
      assert x + Split(t)[0] == Split(t)[0];
      assert Split(t) == [Split(t)[0]] + Split(t)[1..];
    } else {
      SplitUnseparated(x[1..], t);
      assert (x + t)[1..] == x[1..] + t;
      assert [x[0]] + (x[1..] + Split(t)[0]) == x + Split(t)[0];
    }
  }

  /**
    Joining a non-empty selection whose values contain no "," and splitting the
    result at "," gives back the selection, values and order alike.
   */
  lemma {:induction false} SplitJoin(parts: seq<string>)
    requires |parts| > 0
    requires forall i :: 0 <= i < |parts| ==> Separator !in parts[i]
    ensures Split(Join(parts)) == parts
  {
    if |parts| == 1 {
      SplitUnseparated(parts[0], "");
      assert parts[0] + "" == parts[0];
    } else {
      var rest := Join(parts[1..]);
      assert forall i :: 0 <= i < |parts| - 1 ==> parts[1..][i] == parts[i + 1];
      SplitJoin(parts[1..]);
      SplitUnseparated(parts[0], [Separator] + rest);
      assert parts[0] + [Separator] + rest == parts[0] + ([Separator] + rest);
      var tail := [Separator] + rest;
      assert tail[0] == Separator && tail[1..] == rest;
      assert Split(tail) == [""] + parts[1..];
      assert parts[0] + Split(tail)[0] == parts[0];
      assert parts == [parts[0]] + parts[1..];
    }
  }

  // ---------------------------------------------------------------------------
  // The label lookup as written
  // ---------------------------------------------------------------------------

  /**
    The members every plain JavaScript object inherits from `Object.prototype`,
    each with the property key a V8 engine makes of it when it is used as a key:
    a function's source text, or "[object Object]" for the prototype itself.
   */
  const InheritedKeys: map<string, string> := map[
    "constructor" := "function Object() { [native code] }",
    "hasOwnProperty" := "function hasOwnProperty() { [native code] }",
    "isPrototypeOf" := "function isPrototypeOf() { [native code] }",
    "propertyIsEnumerable" := "function propertyIsEnumerable() { [native code] }",
    "toString" := "function toString() { [native code] }",
    "toLocaleString" := "function toLocaleString() { [native code] }",
    "valueOf" := "function valueOf() { [native code] }",
    "__proto__" := "[object Object]",
    "__defineGetter__" := "function __defineGetter__() { [native code] }",
    "__defineSetter__" := "function __defineSetter__() { [native code] }",
    "__lookupGetter__" := "function __lookupGetter__() { [native code] }",
    "__lookupSetter__" := "function __lookupSetter__() { [native code] }"
  ]

  /**
    `dashboardFilterMap[key]` as written: an ordinary property read, which also
    finds the members the table inherits, all of them truthy.
   */
  function MappedKeyAsWritten(name: string): (r: Option<string>)
    ensures name in DashboardFilterMap ==> r == Some(DashboardFilterMap[name])
    ensures r.None? <==> name !in DashboardFilterMap && name !in InheritedKeys
  {
    if name in DashboardFilterMap then Some(DashboardFilterMap[name])
    else if name in InheritedKeys then Some(InheritedKeys[name])
    else None
  }

  /** The loop over the dashboard filter entries with the lookup as written. */
  function OverlayAsWritten(filters: Object, entries: seq<Entry>): Object
  {
    if entries == [] then filters
    else
      var prior := OverlayAsWritten(filters, entries[..|entries| - 1]);
      var e := entries[|entries| - 1];
      var mappedKey := MappedKeyAsWritten(e.0);
      if mappedKey.Some? && e.1 != Null then prior[mappedKey.value := e.1] else prior
  }

  /**
    A dashboard filter labelled "toString", which has no table entry, still adds
    a filter as written; the own-property lookup the model uses ignores it.
   */
  lemma InheritedLabelWritesFilter()
    ensures OverlayAsWritten(map[], [("toString", Str("42"))])
         == map["function toString() { [native code] }" := Str("42")]
    ensures Overlay(map[], [("toString", Str("42"))]) == map[]
  {
    var entries := [("toString", Str("42"))];
    assert entries[..0] == [];
    assert "toString" !in DashboardFilterMap && "toString" in InheritedKeys;
    assert MappedKeyAsWritten("toString") == Some("function toString() { [native code] }");
  }

  /** With the lookup as written, every name on the table behaves as in the model. */
  lemma {:induction false} AsWrittenAgreesOnTableLabels(filters: Object, entries: seq<Entry>)
    requires forall i :: 0 <= i < |entries| ==> entries[i].0 !in InheritedKeys
    ensures OverlayAsWritten(filters, entries) == Overlay(filters, entries)
  {
    if entries != [] {
      AsWrittenAgreesOnTableLabels(filters, entries[..|entries| - 1]);
    }
  }

  // ---------------------------------------------------------------------------
  // Worked scenarios
  // ---------------------------------------------------------------------------

  /** Selection ["Complete", "Shipped"] on "orders.status" replaces an earlier value. */
  lemma ScenarioSelection()
    ensures MergedFilters(map["id" := Str("5"), "filters" := Obj(map["orders.status" := Str("Pending")])],
                          "orders.status", ["Complete", "Shipped"], Some([]))
         == map["orders.status" := Str("Complete,Shipped")]
    ensures MergedFilters(map["filters" := Obj(map["orders.status" := Str("Pending")])],
                          "orders.status", [], Some([]))
         == map[]
  {
    assert Join(["Complete", "Shipped"]) == "Complete,Shipped" by {
      assert ["Complete", "Shipped"][1..] == ["Shipped"];
    }
  }

  /** "Product ID" = "42" is added under its field; "Product ID" = null adds nothing. */
  lemma ScenarioDashboard()
    ensures MergedFilters(map[], "orders.status", [], Some([("Product ID", Str("42"))]))
         == map["look_order_items_partitioned.product_id" := Str("42")]
    ensures MergedFilters(map[], "orders.status", [], Some([("Product ID", Null)])) == map[]
  {
  }
}
