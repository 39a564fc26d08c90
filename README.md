# ReactiveSearch Vue list components

This project models the core of the MultiList and SingleList components of the
ReactiveSearch Vue library. Both components show the terms of one data field as a list
of items and filter search results by the items the user checks or chooses. The model
has three parts:

- **Selection state.** MultiList keeps a dictionary of checked keys. SingleList keeps one
  chosen value. Each component also has a `locked` re-entrancy flag and hands values to the
  store (`updateQueryHandler`) and to its listeners (`valueChange`, `change`). Each component
  is a class whose methods update these fields. The store and the listeners are reduced to
  an event log.
- **The static `defaultQuery` builders.** These turn the selection into an Elasticsearch
  query clause. They are functions into a small query-DSL syntax tree (`QueryDsl.Clause`),
  with a JSON rendering. The DSL also gets a document semantics (`Matches`, `Selects`).
  MultiList's builder, and the corrected SingleList builder, are proved to select exactly
  the documents the selection describes. SingleList's builder as written is proved to
  select the documents holding the chosen text (see "## Findings").
- **The aggregation builders of `utils.js`** (`extractQuery`, `getAggsQuery`,
  `getCompositeAggsQuery`). They build the request for the list's terms. The caller's
  query object, which they write through an alias, is a class (`ListUtils.QueryObject`).

Modules, one per file:

- `Json` (json.dfy): JavaScript values, truthiness and property reads.
- `QueryDsl` (query_dsl.dfy): the clause syntax, its JSON form, documents and the
  matching semantics, and the nested-field wrapper both builders end with.
- `ListTypes` (list_types.dfy): the props and values shared by both components.
- `MultiListQuery` (multilist_query.dfy) and `SingleListQuery` (singlelist_query.dfy): the
  two `defaultQuery` builders.
- `ListUtils` (list_utils.dfy): the aggregation builders.
- `MultiListComponent` (multilist.dfy) and `SingleListComponent` (singlelist.dfy): the
  component state.

How some JavaScript constructs are represented:

- An object is a map from keys to values, and `{ ...a, ...b }` is map union with `b`
  winning.
- `undefined` is `None`. The props `selectAllLabel` and `nestedField` are `""` when unset,
  because the source only ever tests them for truthiness.
- `checkValueChange` is modelled as a choice. `performUpdate` runs when no
  `beforeValueChange` prop is given, or when the caller-supplied `approved` flag says the
  hook accepted the change.
- `Object.keys` enumerates the keys in an order fixed by the language that this model
  does not track. It is a method that picks any order, specified by "every key exactly
  once".

## Model

| member | source | states |
|---|---|---|
| QueryDsl.WrapNested | packages/vue/src/components/list/MultiList.jsx:505-514 | a null query stays null; with a nested field set, the clause goes under `query.nested` with that path, otherwise it is returned bare |
| QueryDsl.WrapNestedJson | packages/vue/src/components/list/MultiList.jsx:505-514 | in the JSON object, `query.nested.path` is the nested field and `query.nested.query` is the unwrapped clause |
| QueryDsl.WrapNestedSelects | packages/vue/src/components/list/SingleList.jsx:411-420 | a wrapped query selects a document exactly when one of its objects under the nested path matches the clause; a null query selects everything |
| MultiListQuery.Without | packages/vue/src/components/list/MultiList.jsx:463 | `filter(item => item !== missingLabel)` keeps every other value with its multiplicity, and leaves the list unchanged when the label is absent |
| MultiListQuery.ListQuery | packages/vue/src/components/list/MultiList.jsx:456-500 | 'or' without `showMissing`: one `terms` clause over all values; 'or' with it: a `should` of `terms` over the values other than the missing label, plus `must_not exists` exactly when the missing label is checked; otherwise a `must` of one `term` per value, in order |
| MultiListQuery.UnnestedQuery | packages/vue/src/components/list/MultiList.jsx:438-503 | null exactly for a non-array or empty value; with the select-all label, `match_all` or `exists`; in 'or' mode, one `terms` clause, or with `showMissing` a `should` of `terms` over the other values plus `must_not exists` exactly when the missing label is checked; otherwise a `must` of one `term` per value, in order |
| MultiListQuery.DefaultQuery | packages/vue/src/components/list/MultiList.jsx:437-517 | null exactly for a non-array or empty value; wrapped in `query.nested` exactly when a nested field is set, around the clause above |
| MultiListQuery.TermsWithoutMatches | packages/vue/src/components/list/MultiList.jsx:460-466 | the `terms` clause over the filtered values matches exactly the documents holding a checked value other than the missing label |
| MultiListQuery.OrMissingShould | packages/vue/src/components/list/MultiList.jsx:458-480 | the 'or' query with `showMissing` matches when the `terms` clause over the filtered values does, or, when the missing label is checked, when the field is absent |
| MultiListQuery.OrMissingMatches | packages/vue/src/components/list/MultiList.jsx:458-480 | the 'or' query with `showMissing` selects the documents holding a checked non-missing value, or lacking the field when the missing label is checked |
| MultiListQuery.AndMatches | packages/vue/src/components/list/MultiList.jsx:488-499 | the 'and' query selects exactly the documents holding every checked value |
| MultiListQuery.ListQueryMatches | packages/vue/src/components/list/MultiList.jsx:456-502 | without the select-all item, the list query selects exactly the documents the checked values admit (`Admits`) |
| MultiListQuery.DefaultQuerySelects | packages/vue/src/components/list/MultiList.jsx:437-517 | the built query selects a document exactly when the checked values admit it, or admit one of its nested objects; no values filter nothing |
| SingleListQuery.DefaultQuery | packages/vue/src/components/list/SingleList.jsx:382-423 | as written: null exactly for a falsy value; otherwise a `term` query on the value itself, whatever the select-all and missing labels are, wrapped when a nested field is set |
| SingleListQuery.DefaultQuerySelects | packages/vue/src/components/list/SingleList.jsx:382-423 | as written, a chosen value selects exactly the documents whose field holds that string, or a nested object that does |
| SingleListQuery.DeadBranchesLoseDocuments | packages/vue/src/components/list/SingleList.jsx:384-409 | as written, choosing the missing item does not select a document without the field, and choosing the select-all item does not select a document holding another value |
| SingleListQuery.IntendedClause | packages/vue/src/components/list/SingleList.jsx:384-409 | the corrected clause is null exactly for a falsy value |
| SingleListQuery.IntendedQuery | packages/vue/src/components/list/SingleList.jsx:382-423 | the corrected query is null exactly for a falsy value, and is wrapped exactly when a nested field is set |
| SingleListQuery.IntendedQuerySelects | packages/vue/src/components/list/SingleList.jsx:384-409 | the corrected query selects every document for select-all with `showMissing` (otherwise those having the field), the documents without the field for the missing label, and those holding the value otherwise |
| SingleListQuery.IntendedAgreesWithMultiList | packages/vue/src/components/list/SingleList.jsx:382-423 | in 'or' mode, the corrected single-value query selects the same documents as MultiList's query for the one-element selection |
| ListUtils.ExtractQuery | packages/vue/src/components/list/utils.js:5-19 | the result has only `query` and `aggs`, each present exactly when the user's `defaultQuery` returns it truthy, holding the returned value |
| ListUtils.TermsAggs | packages/vue/src/components/list/utils.js:26-35 | keyed by the data field alone; `terms` carries the field, the size and the order from `getAggsOrder`; `missing` is the missing label exactly when `showMissing` is set |
| ListUtils.NestAggs | packages/vue/src/components/list/utils.js:37-46 | without a nested field, the aggregations are unchanged; with one, they sit unchanged under `reactivesearch_nested.aggs`, beside `nested.path` |
| ListUtils.NestedAggsHoldFlatAggs | packages/vue/src/components/list/utils.js:37-46 | with a nested field, the request's `reactivesearch_nested.aggs` is exactly the request built without the nested field |
| ListUtils.OrderKey | packages/vue/src/components/list/utils.js:31 | `sortBy \|\| 'count'`: the key handed to `getAggsOrder` is `sortBy` when set and 'count' otherwise, never empty |
| ListUtils.WithAggs | packages/vue/src/components/list/utils.js:25-35 | the caller's object gains `size` 0 and the new `aggs`, and every other key keeps its value |
| ListUtils.SpreadResult | packages/vue/src/components/list/utils.js:47 | the returned copy has `size` 0; its `aggs` and `query` come from the user's `defaultQuery` when that supplies them truthy, otherwise the built `aggs`; every other key of the caller's object, its own `query` included when the user supplies none, is kept |
| ListUtils.WritesCommute | packages/vue/src/components/list/utils.js:60-79 | writing `aggs` before `size` leaves the same object as writing `size` first |
| ListUtils.GetAggsQuery | packages/vue/src/components/list/utils.js:20-48 | the caller's object is updated in place with `size` 0 and the (possibly nested) terms aggregation; the result is that object spread with `extractQuery` |
| ListUtils.CompositeSourceTerms | packages/vue/src/components/list/utils.js:57-70 | the source carries the field; `order` is absent exactly for 'count'; `missing_bucket: true` is present exactly when `showMissing` is set |
| ListUtils.CompositeAggs | packages/vue/src/components/list/utils.js:60-78 | keyed by the data field; `composite` holds `sources` and `size` plus the keys of `after`, and `after`'s values win |
| ListUtils.GetCompositeAggsQuery | packages/vue/src/components/list/utils.js:50-92 | the caller's object is updated in place with `size` 0 and the (possibly nested) composite aggregation; the result is that object spread with `extractQuery` |
| MultiListComponent.Join | packages/vue/src/components/list/MultiList.jsx:332 | `String(array)`: '' for no elements, the element itself for one, otherwise the first element followed by a comma |
| MultiListComponent.PropertyKey | packages/vue/src/components/list/MultiList.jsx:332-338 | the property key a clicked value coerces to: a string is itself, a one-element array its element, an empty array '', undefined 'undefined' |
| MultiListComponent.SelectsAll | packages/vue/src/components/list/MultiList.jsx:300-304 | the select-all guard never fires without a label or for undefined |
| MultiListComponent.SelectAllGuardAgreesWithQuery | packages/vue/src/components/list/MultiList.jsx:300-304 | `setValue`'s select-all guard agrees with the test `defaultQuery` applies (MultiList.jsx:445) to an array, and treats a string as the one-element array holding it |
| MultiListComponent.WithoutLabel | packages/vue/src/components/list/MultiList.jsx:340-345 | the select-all label, when set, is removed and every other key is kept |
| MultiListComponent.Step | packages/vue/src/components/list/MultiList.jsx:300-348 | select-all toggled off clears everything; toggled on checks every option and the label in the live dictionary; a default value installs exactly its elements minus the label; a click flips exactly the clicked key and leaves every other key as it was; the label never survives a non-select-all step |
| MultiListComponent.ClickTwiceRestores | packages/vue/src/components/list/MultiList.jsx:331-346 | clicking the same key twice restores the selection, except that a checked select-all label is dropped |
| MultiListComponent.SelectAllTwiceClears | packages/vue/src/components/list/MultiList.jsx:300-314 | toggling select-all twice leaves nothing checked, with the label checked in between |
| MultiListComponent.SelectAllOnDispatchesAllQuery | packages/vue/src/components/list/MultiList.jsx:309-313 | the values dispatched when select-all is turned on build a query that selects every document (with `showMissing`), or every document having the field; with a nested field, every document with a nested object under that path (with `showMissing`), or one whose nested object has the field |
| MultiListComponent.ClickDispatchesCheckedKeys | packages/vue/src/components/list/MultiList.jsx:331-352 | in 'or' mode with `showMissing` off and no nested field, the values dispatched after a click build a query that selects exactly the documents holding a key now checked, and filters nothing when no key is checked |
| MultiListComponent.ObjectKeys | packages/vue/src/components/list/MultiList.jsx:347 | `Object.keys` lists every key of the dictionary exactly once |
| MultiListComponent.MultiList.Commits | packages/vue/src/components/list/MultiList.jsx:356-361 | `checkValueChange` runs `performUpdate` always without `beforeValueChange`, and otherwise exactly when the hook approves |
| MultiListComponent.MultiList.SetValue | packages/vue/src/components/list/MultiList.jsx:290-362 | ignored while locked when `beforeValueChange` is set; otherwise emits the values `Step` prescribes; a committed change installs the new dictionary, dispatches and emits those values once each, and unlocks; an uncommitted one stays locked and keeps the writes made in place |
| MultiListComponent.MultiList.HandleClick | packages/vue/src/components/list/MultiList.jsx:426-434 | without a `value` prop, a click acts as `setValue` on the clicked key; with one, only a 'change' event carries `parseValueArray(currentValue, clicked)` and the state is unchanged |
| SingleListComponent.NextValue | packages/vue/src/components/list/SingleList.jsx:288-292 | choosing the current value again clears it to ''; any other value is taken as given |
| SingleListComponent.ChooseTwice | packages/vue/src/components/list/SingleList.jsx:288-292 | choosing an item twice ends with nothing chosen, or with that item chosen when it was chosen before |
| SingleListComponent.WatcherArgument | packages/vue/src/components/list/SingleList.jsx:135-139 | the watcher calls `setValue` exactly when the store's value differs from the current one, with exactly `newVal \|\| ''` |
| SingleListComponent.WatcherSyncs | packages/vue/src/components/list/SingleList.jsx:135-139 | a committed watcher call always leaves the store's value (or '' for a falsy one); where the toggle-off rule fires (current '' and a falsy store value) the outcome is as if it did not |
| SingleListComponent.SingleList.Commits | packages/vue/src/components/list/SingleList.jsx:301 | `checkValueChange` runs `performUpdate` always without `beforeValueChange`, and otherwise exactly when the hook approves |
| SingleListComponent.SingleList.SetValue | packages/vue/src/components/list/SingleList.jsx:281-302 | ignored while locked when `beforeValueChange` is set; a committed change installs `NextValue`, dispatches and emits it, and unlocks; an uncommitted one only locks |
| SingleListComponent.SingleList.HandleClick | packages/vue/src/components/list/SingleList.jsx:367-374 | without a `value` prop, a click acts as `setValue` on the clicked value; with one, only a 'change' event carries it |
| SingleListComponent.SingleList.OnSelectedValue | packages/vue/src/components/list/SingleList.jsx:135-139 | nothing happens when the store's value equals the current one; otherwise a committed update leaves `currentValue` equal to the store's value, or '' for a falsy one |

## Left out

- Rendering, the Vue lifecycle hooks, `customQuery`, the prop watchers of MultiList and the other SingleList watchers: these are not part of this model.
- `updateQueryHandler`: its call to the store action `updateQuery` is recorded as an event holding only the dispatched value. The query object it builds itself with `defaultQuery` (or `customQuery`) and sends in that payload is not recorded; the builders are modelled and proved on their own.
- `setQueryOptions`: its calls, from `updateQueryHandler` and `updateQueryHandlerOptions`, are not modelled and leave no event.
- `checkValueChange`: a `beforeValueChange` hook that approves later, asynchronously, is not modelled. The hook's verdict is an input, `approved`, and a change it rejects leaves the component locked.
- `getAggsOrder` (a helper of the `@appbaseio/reactivecore` store library) and `parseValueArray` (imported from the library's own `utils` module): neither is part of this model; both are taken as function parameters.
- Null and undefined are not told apart, and numbers are integers: the props modelled are strings, booleans and sizes.
- MultiListComponent.MultiList.SetValue: requires that a default value given as a string is '' or the select-all label. For any other non-empty string, `value.forEach` at MultiList.jsx:320 would throw.
- MultiListComponent.Step: an object is a map of its own keys only; the names JavaScript objects inherit from `Object.prototype` (`constructor`, `toString`, `__proto__` and the like) are not modelled. In the source, `currentValue[value]`, `currentValue[selectAllLabel]` and `selectAllLabel in currentValue` see these names. So clicking an option with such a key never checks it, and such a select-all label never turns select-all on; the model treats them like any other key.
- MultiListComponent.ObjectKeys: the order in which `Object.keys` lists the keys (array-index keys first in ascending numeric order, then the other keys in creation order) is not modelled; any order is allowed.
- MultiListComponent.MultiList.HandleClick: the ensures says the values dispatched and emitted are one enumeration of the new keys, not which one.
- SingleListComponent.SingleList.OnSelectedValue: the `isEqual` deep comparisons of the other watchers are not modelled. Only the strict `!==` test of this watcher is.

## Findings

| source | as written | input that shows it | evidently intended | confidence | as-written member | corrected member |
|---|---|---|---|---|---|---|
| packages/vue/src/components/list/SingleList.jsx:384-409 | the `match_all`/`exists` assignment for the select-all item and the `must_not exists` assignment for the missing label are each followed by an unconditional assignment, with no `else`, so every truthy value gets a `term` query on its own text | `showMissing` set, value equal to `missingLabel`: a document without the field is not selected. Value equal to `selectAllLabel`: a document holding another value is not selected | select-all selects every document (with `showMissing`) or every document having the field; the missing label selects the documents without the field; as MultiList does for the same one-item selection | high for the dead assignments, which follow from the control flow alone; not executed | SingleListQuery.DeadBranchesLoseDocuments | SingleListQuery.IntendedQuerySelects |
