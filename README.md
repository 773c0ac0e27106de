# Plans and preferences reducers, modelled in Dafny

This project models two families of Redux reducers from the client state
layer of wp-calypso. Each reducer is a pure function
`(state, action) -> state`, and each is driven by a tagged action.

- **Preferences** (`client/state/preferences/reducer.js`).
  `createReducerForPreferenceKey(key, defaultValue)` builds one reducer per
  preference key. A SET with a matching key replaces the value. RECEIVE and
  FETCH_SUCCESS pull `data[USER_SETTING_KEY][key]` out of the payload and
  keep the current value when that path is absent. SERIALIZE and
  DESERIALIZE pass the value through. One such reducer per key of
  `DEFAULT_PREFERENCES` makes up `values`. A `fetching` flag follows the
  bulk fetch. The default export combines both into `{values, fetching}`.
- **Plans** (as `client/state/plans/test/reducer.js` states it). `items` is
  the received plan list. It is replaced on receipt, kept on SERIALIZE and
  revalidated on DESERIALIZE: a persisted plan whose `product_id` is not a
  number is not loaded. The `requesting` and `error` flags follow the
  request, success and failure actions. The default export is
  `{items, requesting, error}`.

Modules:

- `Wrappers`: `Option`, which stands for a value that may be `undefined`.
- `Json`: the loosely typed payloads and lodash-style path lookup (`Get`).
- `Actions`: the `Action` datatype, with one constructor per action type
  plus `Unknown` for actions no reducer lists. It also holds the `Plan`
  record.
- `Preferences` and `Plans`: the reducers, their composites, and lemmas
  about single calls and about whole action streams (`Run`, the store
  dispatching actions in order).

`USER_SETTING_KEY` and `DEFAULT_PREFERENCES` are the parameter
`Preferences.Config`. The `state/utils` module (`createReducer`) is not part
of this model, and neither is the plans reducer implementation. Two
behaviours depend on them and are therefore parameters. Every lemma holds
for each choice:

- `PersistFallback`: what a `createReducer` reducer returns for
  SERIALIZE/DESERIALIZE when its table has no handler for them. This means
  either the state as it is or the initial value. It applies to `fetching`
  and to the plans flags.
- `Plans.Revalidation`: whether DESERIALIZE drops each invalid plan or the
  whole list. The tests only show that a list holding one invalid plan
  loads as `[]`. `RevalidationsAgreeOnShortLists` and `RevalidationsDiffer`
  show that this test cannot tell the two apart.

The tests deep-freeze state and action only after the reducer call, just
before they assert, so they do not detect mutation in place. In the model,
reducers cannot mutate their inputs, because every state and action is an
immutable Dafny value.

## Model

| member | source | states |
|---|---|---|
| `Json.Get` | client/state/preferences/reducer.js:23 | an empty path gives the root itself; a non-empty lookup succeeds only through an object holding the first key (its partners are `GetAppend` and `GetNest`) |
| `Json.GetAppend` | client/state/preferences/reducer.js:23 | looking up `p + q` is looking up `q` in the result of looking up `p` |
| `Json.GetNest` | client/state/preferences/reducer.js:23 | a payload holding `v` at a key path yields `v` from a lookup of that path |
| `Json.GetTwoSteps` | client/state/preferences/reducer.js:23 | a two-step lookup succeeds iff both steps meet objects holding the keys, and then yields the inner entry |
| `Preferences.FromApi` | client/state/preferences/reducer.js:23 | `data[USER_SETTING_KEY][key]` is present exactly when `data` is an object whose `USER_SETTING_KEY` entry is an object holding `key`, and then it is that entry |
| `Preferences.KeyReducer` | client/state/preferences/reducer.js:22-30 | no state and an unhandled action give `defaultValue`, or `null` when none is given (its own ensures); an unhandled action keeps an existing state; a SET with this key gives exactly its value, and a SET with another key keeps the state; RECEIVE/FETCH_SUCCESS give `data[USER_SETTING_KEY][key]` when present, else the current state; SERIALIZE/DESERIALIZE return the state unchanged |
| `Preferences.Filled` | client/state/preferences/reducer.js:33-35 | each key of `DEFAULT_PREFERENCES`, and no other key, maps to its stored value, or to its default when the stored map lacks it |
| `Preferences.Values` | client/state/preferences/reducer.js:33-35 | each key of `DEFAULT_PREFERENCES` holds what its key reducer returns for its stored entry; the result has exactly those keys unless it is the previous map returned unchanged; with no state it has exactly those keys, and with an unhandled action it is `DEFAULT_PREFERENCES` |
| `Preferences.Fetching` | client/state/preferences/reducer.js:36-40 | with no state, any action it does not handle gives false; FETCH gives true; FETCH_SUCCESS and FETCH_FAILURE give false; other domain actions keep the state; SERIALIZE/DESERIALIZE follow the `PersistFallback` parameter |
| `Preferences.Reduce` | client/state/preferences/reducer.js:42-45 | `values` holds every key of `DEFAULT_PREFERENCES`, and exactly those from no state; the initial state is `{values: DEFAULT_PREFERENCES, fetching: false}` |
| `Preferences.FetchSuccessIsReceive` | client/state/preferences/reducer.js:26-27 | FETCH_SUCCESS and RECEIVE with the same payload produce the same `values` |
| `Preferences.SetUpdatesOneKey` | client/state/preferences/reducer.js:25-35 | the exact result of a SET: the stored map itself when it holds every known key and the SET writes no new value (an equal primitive, or an unknown key); otherwise the filled map with exactly the named entry replaced, or the filled map for an unknown key |
| `Preferences.PassThrough` | client/state/preferences/reducer.js:28-29 | SERIALIZE, DESERIALIZE and unhandled actions keep every stored value, with no revalidation; the stored map itself comes back when it holds every known key, and otherwise the filled map |
| `Preferences.StaleKeysSurviveUntilChange` | client/state/preferences/reducer.js:33-35 | for every configuration and stored map that holds every known key, DESERIALIZE returns that map with its unlisted keys; a SET that writes a new value for a known key gives exactly the keys of `DEFAULT_PREFERENCES` |
| `Preferences.ReceiveMerges` | client/state/preferences/reducer.js:23-27 | the exact result of a RECEIVE: the stored map itself when it holds every known key and every known key in the payload's settings object is an equal primitive; otherwise the known keys present in the settings object are laid over the filled map, and keys the payload lacks keep their value, never reset to the default |
| `Preferences.WritesIdempotent` | client/state/preferences/reducer.js:23-27 | applying the same SET, RECEIVE or FETCH_SUCCESS a second time changes nothing |
| `Preferences.SetLeavesFetching` | client/state/preferences/reducer.js:42-45 | the composite passes a SET to `values` only; `fetching` is unchanged |
| `Preferences.ValueIsLastWrite` | client/state/preferences/reducer.js:22-35 | after any action stream from store creation, each known key holds the value of the latest action that wrote it, or its default if none did |
| `Preferences.FetchingMeansOutstanding` | client/state/preferences/reducer.js:36-40 | after any action stream, `fetching` is set only if the latest fetch action is FETCH, and exactly then when persistence keeps the flag |
| `Plans.IsValidPlan` | client/state/plans/test/reducer.js:109-110 | a plan record is valid exactly when it has a `product_id` that is a number |
| `Plans.FilterValid` | client/state/plans/test/reducer.js:108-120 | keeps only valid records, and exactly the records of the input that are valid; returns an all-valid list unchanged |
| `Plans.FilterValidAppend` | client/state/plans/test/reducer.js:108-120 | filtering a concatenation is the concatenation of the filtered parts |
| `Plans.FilterValidOneByOne` | client/state/plans/test/reducer.js:108-120 | each record keeps its place: a valid record contributes itself and an invalid one nothing, so order and repeats are preserved |
| `Plans.Revalidate` | client/state/plans/test/reducer.js:95-120 | the result holds only valid plans drawn from the input, and equals the input when the input is all valid |
| `Plans.Items` | client/state/plans/test/reducer.js:52-121 | with no state, any action it does not handle gives `[]`, and with a state it keeps it; a receive gives exactly the received list; SERIALIZE returns the state; DESERIALIZE yields only valid plans drawn from the stored list and keeps valid state unchanged |
| `Plans.Requesting` | client/state/plans/test/reducer.js:123-162 | with no state, any action it does not handle gives false, and with a state it keeps it; REQUEST gives true; SUCCESS and FAILURE give false; SERIALIZE/DESERIALIZE follow the `PersistFallback` parameter |
| `Plans.Error` | client/state/plans/test/reducer.js:164-203 | with no state, any action it does not handle gives false, and with a state it keeps it; FAILURE gives true; REQUEST and SUCCESS give false; SERIALIZE/DESERIALIZE follow the `PersistFallback` parameter |
| `Plans.Reduce` | client/state/plans/test/reducer.js:44-50 | the initial state is `{items: [], requesting: false, error: false}`; after DESERIALIZE `items` holds only valid plans drawn from the stored `items` |
| `Plans.ReceiveIdempotent` | client/state/plans/test/reducer.js:69-80 | receiving a plan list over the state it produced gives the same list |
| `Plans.SerializeRoundTrip` | client/state/plans/test/reducer.js:82-106 | SERIALIZE followed by DESERIALIZE returns valid plans unchanged |
| `Plans.DeserializeIdempotent` | client/state/plans/test/reducer.js:95-120 | deserialising an already deserialised list changes nothing |
| `Plans.StringProductIdNotLoaded` | client/state/plans/test/reducer.js:108-120 | `[{product_id: "234234"}]` deserialises to `[]` |
| `Plans.FilterValidNone` | client/state/plans/test/reducer.js:108-120 | filtering a list in which no record is valid leaves the empty list |
| `Plans.NoValidRecordLoadsEmpty` | client/state/plans/test/reducer.js:108-120 | a stored list in which no record is valid loads as `[]`, in either revalidation mode |
| `Plans.RevalidationsAgreeOnShortLists` | client/state/plans/test/reducer.js:108-120 | per-record filtering and whole-list rejection agree on all-valid lists and on lists of at most one record |
| `Plans.RevalidationsDiffer` | client/state/plans/test/reducer.js:108-120 | on a valid plan followed by an invalid one, filtering keeps the valid plan and rejection keeps nothing |
| `Plans.FlagsTable` | client/state/plans/test/reducer.js:123-203 | REQUEST gives `requesting` and clears `error`; SUCCESS clears both; FAILURE clears `requesting` and sets `error` |
| `Plans.ItemsStayValid` | client/state/plans/test/reducer.js:57-120 | while every received list is valid, `items` holds only valid plans after any action stream |
| `Plans.FlagsFollowLastRequest` | client/state/plans/test/reducer.js:123-203 | after any action stream, `requesting` is set only if the latest request action is REQUEST, and `error` only if it is FAILURE; exactly then when persistence keeps the flags |
| `Plans.NeverRequestingAndFailed` | client/state/plans/test/reducer.js:123-203 | after any action stream from store creation, `requesting` and `error` are never both set |

## Left out

- Redux `combineReducers` and lodash `get`/`mapValues` are written out as
  record and map construction and as `Json.Get`. For `values`, the model
  includes `combineReducers` returning the previous map when no entry
  changed, so stale keys in that map survive. It judges "changed" as `===`
  would: by content for null, booleans, numbers and strings, and always
  "changed" for an array or object that an action carries.
- Preferences.Values: an action that carries the very array or object
  already stored (the same reference) counts as a change in the model,
  while `===` in the source would see no change.
- Preferences.Reduce: when no part changes, the top-level `combineReducers`
  returns the previous whole-state object, with any keys outside
  `{values, fetching}` that it held. The `State` record cannot hold such
  extra keys, so the model always returns exactly `values` and `fetching`.
- Plans.Reduce: the same holds for `{items, requesting, error}`. The model
  always returns exactly these three parts.
- `Json.Get` descends through JSON objects only, along their own keys.
  JavaScript would read an index or `length` when a path step meets an
  array or a string. It would also find properties inherited from the
  prototype chain: a missing `toString` or `constructor` key gives a
  function, not `undefined`. The model treats all of these steps as absent.
  On an empty path `Json.Get` returns the root, where lodash returns the
  fallback. The reducers always look up a three-step path, so this case
  never arises from them.
- The contents of `DEFAULT_PREFERENCES` and `USER_SETTING_KEY` live in
  `client/state/preferences/constants.js`, which is not part of this model.
  They are the parameter `Config`.
- `createReducer` (`state/utils`) is not part of this model. What
  `fetching` does on SERIALIZE/DESERIALIZE depends on it and is the
  parameter `PersistFallback`. Its development-mode check that throws on an
  action with an empty `type` is not modelled.
- The plans reducer implementation (`client/state/plans/reducer.js`) is not
  part of this model. The behaviour of `requesting` and `error` on actions
  the tests do not exercise is taken as passing the state through. SERIALIZE
  and DESERIALIZE follow `PersistFallback`, chosen separately for each flag
  (`requestingOnPersist`, `errorOnPersist`).
- Plans.Revalidate: states only what holds for both the per-record filter
  and whole-list rejection, because the tests do not decide between them.
- `getValidDataFromResponse`, the `WPCOM_RESPONSE` fixture and the action
  creators are not modelled. A received plan list is any `seq<Plan>`,
  and every action is a constructor of `Action`.
- The raw persisted value that DESERIALIZE receives is assumed to be a list
  of plan records. Other shapes of persisted data are not modelled.
- Preferences.KeyReducer: a SET whose `value` is `undefined` is not
  modelled, because `Json` has no `undefined`. JSON numbers are `real`,
  and floating-point behaviour is not modelled.
- The test plumbing (sinon sandbox, console stubbing, chai, deep-freeze) is
  not modelled. The no-mutation guarantee holds because all model values
  are immutable.
