# Filterable visualization tile — a verified model

This project models the core of a dashboard tile for a business-intelligence
platform (src/VizWithFilter.js). The tile shows a saved query's visualization
together with a multi-select filter over one configured field. When the
selection or the inherited dashboard filters change, it rebuilds the query
with a merged filter map and re-points the embedded visualization at the new
query.

Two parts are modelled:

- **FilterMerge** (filter_merge.dfy) is the filter-merge rebuild of
  `updateQueryWithFilters`. From the re-fetched query it copies only the
  allow-listed fields. It then starts the filter map from the query's own
  `filters`. A non-empty selection is written under the configured filter
  field, comma-joined; an empty selection removes that field. Next, every
  dashboard filter whose label is on the label-to-field table
  (`"Product ID"` → `look_order_items_partitioned.product_id`) and whose value
  is not `null` is applied. Finally the merged map is installed as `filters`.
  `RebuildQueryBody` is the imperative rebuild with the source's two loops. It
  is proved equal to the specification function `RebuiltBody`, and the
  lemmas state the properties of `RebuiltBody` key by key. Its label lookup
  is the corrected own-property one. The lookup as written, an ordinary
  property read that also finds inherited members, is modelled separately
  as `OverlayAsWritten` (see "## Findings").
- **VizTile** (viz_tile.dfy) is the tile's state as a class `Tile`. Its
  fields are hostname, configuration, dashboard filters, the
  `configInitialized` and `embedInitialized` flags, the active query, the
  embed connection and the selection. Each effect of the component is a
  method. Every call into the host, the query API or the embed SDK is
  appended to `calls` as an abstract event. The answers of the query API
  (the fetched query, the created query) are method parameters. The
  invariant `Valid()` says that the options are registered and written back
  at most once per mount, and exactly once after `configInitialized` is set.
  The pure functions `ConfigEffectCalls`, `FilterEffectCalls` and `EmbedCalls`
  give the calls of the configuration, filter and embed effects. They state the
  required-configuration gate and the choice between re-pointing a
  connection and building a fresh embed.

Values are JSON values (json.dfy): objects are string-keyed maps, and owning
a property means being a key of the map. `Truthy` is JavaScript truthiness.
The two configuration options are declared with type 'string'
(src/VizWithFilter.js:52-61). So they are modelled as optional strings, and an
option counts as set when it is present and non-empty.

React decides when an effect runs: the configuration effect on a new
`visConfig`, the filter effect on a new selection, filter field reference or
dashboard filters, and the embed effect on a new query. In the model a caller
invokes the matching method. `Valid()` holds after any order of calls, so it
holds in particular for the order React produces.

## Model

| member | source | states |
|---|---|---|
| FilterMerge.RebuildQueryBody | src/VizWithFilter.js:152-194 | The body built by the allow-list loop, the selection update and the dashboard-filter loop equals the specification `RebuiltBody` for every fetched query, field, selection and set of dashboard filters. The label lookup is the own-property one (see the Findings row), so labels inherited from `Object.prototype` are ignored where the source writes a junk key. |
| FilterMerge.CopyAllowedKeys | src/VizWithFilter.js:154-165 | The allow-list loop builds the specification copy `CopyKeys` of the fetched query over the 18 allowed keys. |
| FilterMerge.ApplyDashboardFilters | src/VizWithFilter.js:183-189 | The dashboard-filter loop gives the specification overlay `Overlay` of the entries, in `Object.entries` order. Its table test is an own-property test, not the ordinary property read of line 184 (see the Findings row). |
| FilterMerge.CopyKeysExact | src/VizWithFilter.js:161-165 | Copying the listed keys keeps exactly the listed keys the query owns, each with its value unchanged. |
| FilterMerge.AllowListCopyExact | src/VizWithFilter.js:154-165 | The rebuilt body holds a key iff it is `filters` or an allow-listed key of the fetched query. Every key of the body is on the allow-list, copied values are unchanged, and `filters` is the merged map (line 194). |
| FilterMerge.OverlayLastWriter | src/VizWithFilter.js:183-189 | In the dashboard-filter loop, the last applicable entry that maps to a field decides that field's value. |
| FilterMerge.OverlayNoWriter | src/VizWithFilter.js:183-189 | A field that no applicable entry maps to keeps its presence and value through the loop. |
| FilterMerge.SelectionWritten | src/VizWithFilter.js:172-175 | Unless a dashboard filter writes the configured field, a non-empty selection is stored there as `Join(selection)`, the model of `join(',')`: its values joined by "," in their original order. |
| FilterMerge.SelectionCleared | src/VizWithFilter.js:176-178 | Unless a dashboard filter writes the configured field, an empty selection leaves the field absent, even when the fetched query had it. |
| FilterMerge.DashboardEntryWins | src/VizWithFilter.js:181-190 | A dashboard filter with a table entry and a non-null value sets its mapped field. This overrides both the fetched value and the selection-written value, and of several such entries the last wins. |
| FilterMerge.IgnoredEntryNoEffect | src/VizWithFilter.js:184-185 | An entry whose label has no table entry, or whose value is null, changes nothing wherever it stands among the entries. |
| FilterMerge.MergedIsOverlay | src/VizWithFilter.js:181-190 | The table is non-empty, so with dashboard filters the merge applies every entry in order. Without them (an empty list of entries) the selection-updated filters are left as they are. |
| FilterMerge.UntouchedKeysKept | src/VizWithFilter.js:168-190 | A filter key that is neither the configured field nor written by a dashboard filter is in the merged filters exactly when it is in the fetched query's own `filters` object, with the same value. When the query has no `filters`, or `null`, a boolean or a number there, no such key occurs. |
| FilterMerge.SplitJoin | src/VizWithFilter.js:173 | `Join`, the model of `filterSelection.join(',')`, loses nothing: splitting the join of a non-empty selection whose values contain no "," at "," gives back the selection, values and order alike. |
| FilterMerge.MappedKeyAsWritten | src/VizWithFilter.js:184 | The label lookup as written: table labels give their field, and every name inherited from `Object.prototype` gives a truthy key too. |
| FilterMerge.InheritedLabelWritesFilter | src/VizWithFilter.js:183-188 | A dashboard filter labelled "toString" adds a filter in `OverlayAsWritten` (the loop as written), while the model's own-property lookup ignores it. |
| FilterMerge.AsWrittenAgreesOnTableLabels | src/VizWithFilter.js:183-189 | `OverlayAsWritten`, the loop with the ordinary property read of line 184, gives the same filters as the model's `Overlay` when no label names an inherited member. |
| FilterMerge.ScenarioSelection | src/VizWithFilter.js:168-178 | Selection ["Complete", "Shipped"] on "orders.status" gives "Complete,Shipped" and replaces an earlier value. An empty selection removes the key. |
| FilterMerge.ScenarioDashboard | src/VizWithFilter.js:65-67 | "Product ID" = "42" adds look_order_items_partitioned.product_id = "42", and "Product ID" = null adds nothing. |
| VizTile.ConfigEffectCalls | src/VizWithFilter.js:80-103 | Nothing happens before a hostname is known. While the tile is uninitialized, the first two calls register the options and then write back the current queryId and filterFieldReference, once each. A query fetch happens exactly when both queryId and filterFieldReference are set; it asks for the configured queryId and comes after the write-back. No other kind of call occurs, and the number of calls is exact. |
| VizTile.RegisteredOnce | src/VizWithFilter.js:87-92 | Over any run of configuration events, registration and write-back happen at most once: exactly once when the tile starts uninitialized and some event finds a hostname. |
| VizTile.EmbedCalls | src/VizWithFilter.js:260-264 | Nothing happens without a hostname and a truthy query id (line 213). With a connection, the only call re-points it at the query's id. Without one, the only call is a fresh embed of that id. |
| VizTile.NeitherRegistersNorWritesBack | src/VizWithFilter.js:87-92 | Calls other than registration and write-back do not change how often those two have happened. |
| VizTile.Tile.constructor | src/VizWithFilter.js:42-49 | A mounted tile has no hostname, query, connection or selection, both flags clear, and no calls made. |
| VizTile.Tile.HostnameResolved | src/VizWithFilter.js:137 | Only the hostname changes. |
| VizTile.Tile.SelectionChanged | src/VizWithFilter.js:278 | Only the selection changes. |
| VizTile.Tile.DashboardFiltersChanged | src/VizWithFilter.js:49 | Only the dashboard filters change. |
| VizTile.Tile.VisConfigEffect | src/VizWithFilter.js:80-118 | The configuration is replaced and the effect's calls (`ConfigEffectCalls`) are appended. The flag is set once a hostname is known, and at most one registration holds afterwards. |
| VizTile.Tile.QueryLoaded | src/VizWithFilter.js:103-113 | The active query becomes the fetched query, or none when the fetch failed. |
| VizTile.FilterEffectCalls | src/VizWithFilter.js:147-202 | Nothing happens without an active query id and a filter field. Otherwise the first call re-fetches the active query. Only after a successful fetch does the rebuilt body (`RebuiltBody`) get submitted. Only after a successful creation, and only with an existing connection, is that connection re-pointed at the created query's id. The effect never registers or writes back. |
| VizTile.Tile.FilterEffect | src/VizWithFilter.js:147-205 | The calls of `FilterEffectCalls` are appended. The created query becomes active exactly when the effect was ready and both calls succeeded; otherwise the query is unchanged. Nothing else changes. |
| VizTile.Tile.QueryEffect | src/VizWithFilter.js:211-265 | The calls of `EmbedCalls` are appended. The in-progress flag is set exactly when a fresh embed starts. |
| VizTile.Tile.EmbedConnected | src/VizWithFilter.js:247-249 | Only the connection changes: it becomes the connected one. |
| VizTile.Tile.EmbedFailed | src/VizWithFilter.js:250-257 | Only the in-progress flag changes: it is cleared so a later trigger can retry. |

## Left out

- The query API (`coreSDK.query`, `coreSDK.create_query`) is not implemented. Its answers are parameters of `QueryLoaded` and `FilterEffect`, and `None` stands for a rejected call.
- Async ordering: `FilterEffect` performs its fetch and its creation in one step, and the model does not capture overlapping re-queries that settle in another order.
- The embed SDK's builder chain, `connect()`, the clearing of the container's `innerHTML` and `document` lookups are left out. A fresh embed is the abstract `CreateEmbed` event, and its outcome is `EmbedConnected` or `EmbedFailed`.
- The page-height handler (src/VizWithFilter.js:215-231) is left out, because it only reads element heights and sets styles.
- Hostname parsing with `URL` and the embed SDK's `init` (src/VizWithFilter.js:129-142) are left out. `HostnameResolved` receives the parsed hostname.
- `extensionSDK.rendered()` (src/VizWithFilter.js:122-126), React rendering, the static multi-select options (src/VizWithFilter.js:71-77) and all logging are left out. These are UI and host signalling.
- Which state change triggers which effect is React's dependency tracking. It is described above, and callers invoke the matching method.
- Json.Spread: a truthy string or array under `filters` is treated as no filters. A real spread would break it into index-keyed entries. The query API returns an object or null there.
- Numbers are modelled as integers, so NaN and fractions are not modelled. Truthiness of numbers is exact for integers only.
- Property order in objects is not modelled, because it affects only serialisation. Dashboard filter entries are given in their `Object.entries` order.
- FilterMerge.ApplyDashboardFilters: the label lookup is the corrected own-property test, so a label inherited from `Object.prototype` (such as "toString") writes nothing here, and through `FilterMerge.RebuildQueryBody` the body submitted by `FilterEffect` lacks the junk key the source adds. The code as written is `OverlayAsWritten`; see "## Findings".
- Setting a filter field or dashboard field named `__proto__` on a plain object does not create a property in JavaScript. The model treats it as an ordinary key.
- The variant of the tile that fetches filter options from field suggestions is not part of this model.

## Findings

| source | as written | input that shows it | evidently intended | confidence | as-written member | corrected member |
|---|---|---|---|---|---|---|
| src/VizWithFilter.js:184 | `dashboardFilterMap[key]` is an ordinary property read. A label naming a member inherited from `Object.prototype` ("toString", "constructor", …) finds that truthy function, and line 187 writes the value under that function's text as a key. | dashboard filters `{"toString": "42"}` | only labels with their own table entry are translated, and every other label is ignored | medium; not executed (the exact key text depends on the JavaScript engine) | FilterMerge.InheritedLabelWritesFilter | FilterMerge.IgnoredEntryNoEffect |
