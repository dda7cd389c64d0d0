/**
  The control rules of the filterable visualization tile (src/VizWithFilter.js).
  The component's state is a class; each effect the tile declares is a method,
  run whenever its dependencies change:

    VisConfigEffect  on a new visualization configuration
    FilterEffect     on a new selection, filter field reference or dashboard filters
    QueryEffect      on a new active query

  Every call into the host, the query API or the embed SDK is recorded as a
  `Call` appended to `calls`; its answer, where the tile uses one, is a
  parameter of the method that receives it.
 */
module VizTile {

  import opened Wrappers
  import opened Json
  import FilterMerge

  /** The configuration the tile declares; both options have type 'string'. */
  datatype VisConfig = VisConfig(queryId: Option<string>, filterFieldReference: Option<string>)

  /** A live embed connection, as the embed SDK's `connect()` resolves it. */
  type Connection = nat

  /** A call the tile makes into the host, the query API or the embed SDK. */
  datatype Call =
    | ConfigureVisualization
    | WriteVisConfig(writtenQueryId: Option<string>, writtenFilterField: Option<string>)
    | FetchQuery(id: Value)
    | CreateQuery(body: Object)
    | LoadQueryVisualization(connection: Connection, loadedId: Option<Value>)
    | CreateEmbed(embeddedId: Value)

  /** A string setting or state that is set and truthy, i.e. non-empty. */
  predicate Present(s: Option<string>)
  {
    s.Some? && s.value != ""
  }

  /** `visConfig?.queryId && visConfig?.filterFieldReference`. */
  predicate HasRequiredConfig(vc: Option<VisConfig>)
  {
    vc.Some? && Present(vc.value.queryId) && Present(vc.value.filterFieldReference)
  }

  /** `visConfig?.filterFieldReference`. */
  function FilterFieldOf(vc: Option<VisConfig>): Option<string>
  {
    if vc.Some? then vc.value.filterFieldReference else None
  }

  /** `query?.id`; `None` stands for `undefined`. */
  function QueryIdOf(q: Option<Object>): Option<Value>
  {
    if q.Some? && "id" in q.value then Some(q.value["id"]) else None
  }

  /** A query with a truthy id. */
  predicate HasQueryId(q: Option<Object>)
  {
    QueryIdOf(q).Some? && Truthy(QueryIdOf(q).value)
  }

  predicate IsRegistration(c: Call) { c.ConfigureVisualization? }

  predicate IsWriteBack(c: Call) { c.WriteVisConfig? }

  predicate IsFetch(c: Call) { c.FetchQuery? }

  /** How many of the calls satisfy `p`. */
  function Occurrences(cs: seq<Call>, p: Call -> bool): nat
  {
    if cs == [] then 0
    else Occurrences(cs[..|cs| - 1], p) + (if p(cs[|cs| - 1]) then 1 else 0)
  }

  lemma {:induction false} OccurrencesAppend(a: seq<Call>, b: seq<Call>, p: Call -> bool)
    ensures Occurrences(a + b, p) == Occurrences(a, p) + Occurrences(b, p)
  {
    if b != [] {
      var n := |b| - 1;
      OccurrencesAppend(a, b[..n], p);
      assert (a + b)[..|a| + n] == a + b[..n];
      assert (a + b)[|a| + n] == b[n];
    } else {
      assert a + b == a;
    }
  }

  lemma {:induction false} OccurrencesNone(cs: seq<Call>, p: Call -> bool)
    requires forall i :: 0 <= i < |cs| ==> !p(cs[i])
    ensures Occurrences(cs, p) == 0
  {
    if cs != [] {
      OccurrencesNone(cs[..|cs| - 1], p);
    }
  }

  /** Appending calls that neither register nor write back leaves both counts as they were. */
  lemma NeitherRegistersNorWritesBack(before: seq<Call>, added: seq<Call>)
    requires forall i :: 0 <= i < |added| ==> !IsRegistration(added[i]) && !IsWriteBack(added[i])
    ensures Occurrences(before + added, IsRegistration) == Occurrences(before, IsRegistration)
    ensures Occurrences(before + added, IsWriteBack) == Occurrences(before, IsWriteBack)
  {
    OccurrencesNone(added, IsRegistration);
    OccurrencesNone(added, IsWriteBack);
    OccurrencesAppend(before, added, IsRegistration);
    OccurrencesAppend(before, added, IsWriteBack);
  }

  // ---------------------------------------------------------------------------
  // The effects' calls, as functions of the state they read
  // ---------------------------------------------------------------------------

  /**
    The calls of the configuration effect: nothing before a hostname is known;
    registration of the options and the write-back of the current values only
    while the tile is not yet initialized; the query fetch only when both the
    query id and the filter field reference are configured.
   */
  function ConfigEffectCalls(hostname: Option<string>, initialized: bool,
                             vc: Option<VisConfig>): (cs: seq<Call>)
    ensures !Present(hostname) ==> cs == []
    ensures |cs| == (if Present(hostname) && !initialized then 2 else 0)
                  + (if Present(hostname) && HasRequiredConfig(vc) then 1 else 0)
    ensures Present(hostname) && !initialized ==>
      cs[..2] == [ConfigureVisualization,
                  WriteVisConfig(if vc.Some? then vc.value.queryId else None, FilterFieldOf(vc))]
    ensures Occurrences(cs, IsRegistration) == (if Present(hostname) && !initialized then 1 else 0)
    ensures Occurrences(cs, IsWriteBack) == Occurrences(cs, IsRegistration)
    ensures Occurrences(cs, IsFetch) == (if Present(hostname) && HasRequiredConfig(vc) then 1 else 0)
    ensures forall i :: 0 <= i < |cs| && cs[i].FetchQuery? ==>
              HasRequiredConfig(vc) && cs[i].id == Str(vc.value.queryId.value)
  {
    if !Present(hostname) then []
    else
      var registration :=
        if initialized then []
        else [ConfigureVisualization,
              WriteVisConfig(if vc.Some? then vc.value.queryId else None, FilterFieldOf(vc))];
      var fetch := if HasRequiredConfig(vc) then [FetchQuery(Str(vc.value.queryId.value))] else [];
      OccurrencesAppend(registration, fetch, IsRegistration);
      OccurrencesAppend(registration, fetch, IsWriteBack);
      OccurrencesAppend(registration, fetch, IsFetch);
      assert registration != [] ==> registration[..1] == [ConfigureVisualization];
      registration + fetch
  }

  /**
    The calls of a run of configuration effects, event `k` seeing hostname
    `events[k].0` and configuration `events[k].1`; the flag starts at
    `initialized` and is set by the first event that finds a hostname.
   */
  function ConfigRun(initialized: bool, events: seq<(Option<string>, Option<VisConfig>)>): seq<Call>
    decreases |events|
  {
    if events == [] then []
    else
      var hostname := events[0].0;
      ConfigEffectCalls(hostname, initialized, events[0].1)
        + ConfigRun(initialized || Present(hostname), events[1..])
  }

  /** Some event of the run finds a hostname. */
  predicate SomeHostname(events: seq<(Option<string>, Option<VisConfig>)>)
  {
    exists k :: 0 <= k < |events| && Present(events[k].0)
  }

  /**
    However many configuration events arrive, the options are registered (and
    the values written back) once at most: once exactly when the tile starts
    uninitialized and some event finds a hostname.
   */
  lemma {:induction false} RegisteredOnce(initialized: bool,
                                          events: seq<(Option<string>, Option<VisConfig>)>)
    ensures Occurrences(ConfigRun(initialized, events), IsRegistration)
         == (if !initialized && SomeHostname(events) then 1 else 0)
    ensures Occurrences(ConfigRun(initialized, events), IsWriteBack)
         == Occurrences(ConfigRun(initialized, events), IsRegistration)
    decreases |events|
  {
    if events != [] {
      var hostname := events[0].0;
      var tail := events[1..];
      var first := ConfigEffectCalls(hostname, initialized, events[0].1);
      var rest := ConfigRun(initialized || Present(hostname), tail);
      RegisteredOnce(initialized || Present(hostname), tail);
      OccurrencesAppend(first, rest, IsRegistration);
      OccurrencesAppend(first, rest, IsWriteBack);
      if Present(hostname) {
        assert SomeHostname(events) by { assert Present(events[0].0); }
      } else {
        SomeHostnameInTail(events);
      }
    } else {
      assert !SomeHostname(events);
    }
  }

  lemma SomeHostnameInTail(events: seq<(Option<string>, Option<VisConfig>)>)
    requires events != [] && !Present(events[0].0)
    ensures SomeHostname(events) <==> SomeHostname(events[1..])
  {
    if SomeHostname(events) {
      var k :| 0 <= k < |events| && Present(events[k].0);
      assert events[1..][k - 1] == events[k];
    }
    if SomeHostname(events[1..]) {
      var k :| 0 <= k < |events[1..]| && Present(events[1..][k].0);
      assert events[k + 1] == events[1..][k];
    }
  }

  /**
    The calls of the embed effect: nothing without a hostname and a query id;
    with a connection, only re-pointing it at the query; without one, a fresh
    embed of the query.
   */
  function EmbedCalls(hostname: Option<string>, query: Option<Object>,
                      connection: Option<Connection>): (cs: seq<Call>)
    ensures |cs| <= 1
    ensures cs != [] <==> Present(hostname) && HasQueryId(query)
    ensures forall i :: 0 <= i < |cs| ==> (cs[i].CreateEmbed? <==> connection.None?)
    ensures forall i :: 0 <= i < |cs| ==> cs[i].CreateEmbed? || cs[i].LoadQueryVisualization?
    ensures forall i :: 0 <= i < |cs| && cs[i].LoadQueryVisualization? ==>
              connection == Some(cs[i].connection) && cs[i].loadedId == QueryIdOf(query)
    ensures forall i :: 0 <= i < |cs| && cs[i].CreateEmbed? ==> Some(cs[i].embeddedId) == QueryIdOf(query)
  {
    if !Present(hostname) || !HasQueryId(query) then []
    else if connection.Some? then [LoadQueryVisualization(connection.value, QueryIdOf(query))]
    else [CreateEmbed(QueryIdOf(query).value)]
  }

  /** The filter effect's guard: an active query with an id and a configured filter field. */
  predicate FilterEffectReady(query: Option<Object>, vc: Option<VisConfig>)
  {
    HasQueryId(query) && Present(FilterFieldOf(vc))
  }

  /**
    The calls of the filter effect: nothing unless it is ready; then the
    re-fetch of the active query; once that succeeds, the creation of the
    rebuilt query; once that succeeds too, re-pointing an existing
    connection at the created query's id.
   */
  function FilterEffectCalls(query: Option<Object>, vc: Option<VisConfig>, selection: seq<string>,
                             dashboard: Option<seq<FilterMerge.Entry>>, connection: Option<Connection>,
                             fetched: Option<Object>, created: Option<Object>): (cs: seq<Call>)
    ensures |cs| <= 3
    ensures cs != [] <==> FilterEffectReady(query, vc)
    ensures cs != [] ==> cs[0] == FetchQuery(QueryIdOf(query).value)
    ensures |cs| >= 2 <==> FilterEffectReady(query, vc) && fetched.Some?
    ensures |cs| >= 2 ==>
      cs[1] == CreateQuery(FilterMerge.RebuiltBody(fetched.value, FilterFieldOf(vc).value, selection, dashboard))
    ensures |cs| == 3 <==> FilterEffectReady(query, vc) && fetched.Some? && created.Some? && connection.Some?
    ensures |cs| == 3 ==> cs[2] == LoadQueryVisualization(connection.value, QueryIdOf(created))
    ensures forall i :: 0 <= i < |cs| ==> !IsRegistration(cs[i]) && !IsWriteBack(cs[i])
  {
    if !FilterEffectReady(query, vc) then []
    else
      var fetch := FetchQuery(QueryIdOf(query).value);
      if fetched.None? then [fetch]
      else
        var create := CreateQuery(FilterMerge.RebuiltBody(fetched.value, FilterFieldOf(vc).value,
                                                          selection, dashboard));
        if created.Some? && connection.Some?
        then [fetch, create, LoadQueryVisualization(connection.value, QueryIdOf(created))]
        else [fetch, create]
  }

  // ---------------------------------------------------------------------------
  // The tile
  // ---------------------------------------------------------------------------

  /** The tile's state as one value, for stating what a method leaves unchanged. */
  datatype TileState = TileState(
    hostname: Option<string>,
    visConfig: Option<VisConfig>,
    dashboardFilters: Option<seq<FilterMerge.Entry>>,
    configInitialized: bool,
    embedInitialized: bool,
    query: Option<Object>,
    connection: Option<Connection>,
    filterSelection: seq<string>,
    calls: seq<Call>)

  class Tile {
    var hostname: Option<string>
    var visConfig: Option<VisConfig>
    var dashboardFilters: Option<seq<FilterMerge.Entry>>
    var configInitialized: bool
    var embedInitialized: bool
    var query: Option<Object>
    var connection: Option<Connection>
    var filterSelection: seq<string>
    var calls: seq<Call>

    ghost function State(): TileState
      reads this
    {
      TileState(hostname, visConfig, dashboardFilters, configInitialized, embedInitialized,
                query, connection, filterSelection, calls)
    }

    /** Registration and write-back happen once per mount, and only once the flag is set. */
    ghost predicate Valid()
      reads this
    {
      && Occurrences(calls, IsRegistration) == (if configInitialized then 1 else 0)
      && Occurrences(calls, IsWriteBack) == Occurrences(calls, IsRegistration)
    }

    /**
      A freshly mounted tile. On mount the configuration, filter and embed
      effects return early: no hostname is known yet and there is no query.
     */
    constructor (visConfig: Option<VisConfig>, dashboardFilters: Option<seq<FilterMerge.Entry>>)
      ensures Valid()
      ensures State() == TileState(None, visConfig, dashboardFilters, false, false, None, None, [], [])
    {
      this.hostname := None;
      this.visConfig := visConfig;
      this.dashboardFilters := dashboardFilters;
      this.configInitialized := false;
      this.embedInitialized := false;
      this.query := None;
      this.connection := None;
      this.filterSelection := [];
      this.calls := [];
    }

    /** The hostname effect succeeded with hostname `h`. */
    method HostnameResolved(h: string)
      requires Valid()
      modifies this
      ensures Valid()
      ensures State() == old(State()).(hostname := Some(h))
    {
      hostname := Some(h);
    }

    /** The multi-select reported a new selection. */
    method SelectionChanged(selection: seq<string>)
      requires Valid()
      modifies this
      ensures Valid()
      ensures State() == old(State()).(filterSelection := selection)
    {
      filterSelection := selection;
    }

    /** The host reported new dashboard filters; `None` when it gives none. */
    method DashboardFiltersChanged(d: Option<seq<FilterMerge.Entry>>)
      requires Valid()
      modifies this
      ensures Valid()
      ensures State() == old(State()).(dashboardFilters := d)
    {
      dashboardFilters := d;
    }

    /**
      The host delivered configuration `vc`, and the configuration effect ran:
      registration once, the gate on the required options, and the query fetch.
     */
    method VisConfigEffect(vc: Option<VisConfig>)
      requires Valid()
      modifies this
      ensures Valid()
      ensures State() == old(State()).(
        visConfig := vc,
        configInitialized := old(configInitialized) || Present(old(hostname)),
        calls := old(calls) + ConfigEffectCalls(old(hostname), old(configInitialized), vc))
    {
      visConfig := vc;
      if !Present(hostname) {
        assert ConfigEffectCalls(hostname, configInitialized, vc) == [];
        assert calls + [] == calls;
        return;
      }
      ghost var added := ConfigEffectCalls(hostname, configInitialized, vc);
      ghost var before := calls;
      var registration: seq<Call> := [];
      if !configInitialized {
        var queryId := if vc.Some? then vc.value.queryId else None;
        registration := [ConfigureVisualization, WriteVisConfig(queryId, FilterFieldOf(vc))];
        configInitialized := true;
      }
      var fetch: seq<Call> := [];
      if HasRequiredConfig(vc) {
        fetch := [FetchQuery(Str(vc.value.queryId.value))];
      }
      assert registration + fetch == added;
      calls := calls + (registration + fetch);
      OccurrencesAppend(before, added, IsRegistration);
      OccurrencesAppend(before, added, IsWriteBack);
    }

    /**
      The fetch started by the configuration effect settled: the query on
      success, `None` (the source's `setQuery(null)`) on failure.
     */
    method QueryLoaded(r: Option<Object>)
      requires Valid()
      modifies this
      ensures Valid()
      ensures State() == old(State()).(query := r)
    {
      query := r;
    }

    /**
      The filter effect. `fetched` is the query API's answer to re-fetching the
      active query and `created` its answer to creating the rebuilt query;
      `None` is a rejected call, which the source catches and logs.
     */
    method FilterEffect(fetched: Option<Object>, created: Option<Object>)
      requires Valid()
      modifies this
      ensures Valid()
      ensures State() == old(State()).(query := query, calls := calls)
      ensures calls == old(calls) + FilterEffectCalls(old(query), old(visConfig), old(filterSelection),
                                                      old(dashboardFilters), old(connection), fetched, created)
      ensures query == if FilterEffectReady(old(query), old(visConfig)) && fetched.Some? && created.Some?
                       then created else old(query)
    {
      ghost var expected := FilterEffectCalls(query, visConfig, filterSelection, dashboardFilters,
                                              connection, fetched, created);
      var newCalls := [];
      if FilterEffectReady(query, visConfig) {
        newCalls := [FetchQuery(QueryIdOf(query).value)];
        if fetched.Some? {
          var body := FilterMerge.RebuildQueryBody(fetched.value, FilterFieldOf(visConfig).value,
                                                   filterSelection, dashboardFilters);
          newCalls := newCalls + [CreateQuery(body)];
          if created.Some? {
            if connection.Some? {
              newCalls := newCalls + [LoadQueryVisualization(connection.value, QueryIdOf(created))];
            }
            query := created;
          }
        }
      }
      assert newCalls == expected;
      NeitherRegistersNorWritesBack(calls, newCalls);
      calls := calls + newCalls;
    }

    /**
      The embed effect: re-point an existing connection at the active query,
      or start a fresh embed of it.
     */
    method QueryEffect()
      requires Valid()
      modifies this
      ensures Valid()
      ensures State() == old(State()).(
        embedInitialized := old(embedInitialized) ||
                            (Present(old(hostname)) && HasQueryId(old(query)) && old(connection).None?),
        calls := old(calls) + EmbedCalls(old(hostname), old(query), old(connection)))
    {
      NeitherRegistersNorWritesBack(calls, EmbedCalls(hostname, query, connection));
      if !Present(hostname) || !HasQueryId(query) {
        assert calls + EmbedCalls(hostname, query, connection) == calls;
        return;
      }
      var id := QueryIdOf(query);
      if connection.Some? {
        calls := calls + [LoadQueryVisualization(connection.value, id)];
      } else {
        embedInitialized := true;
        calls := calls + [CreateEmbed(id.value)];
      }
    }

    /** The fresh embed connected. */
    method EmbedConnected(c: Connection)
      requires Valid()
      modifies this
      ensures Valid()
      ensures State() == old(State()).(connection := Some(c))
    {
      connection := Some(c);
    }

    /** Building or connecting the fresh embed failed; a later trigger may retry. */
    method EmbedFailed()
      requires Valid()
      modifies this
      ensures Valid()
      ensures State() == old(State()).(embedInitialized := false)
    {
      embedInitialized := false;
    }
  }
}
