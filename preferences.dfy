/**
 * The preferences state: one reducer per known preference key, combined
 * into `values`, next to the `fetching` flag of the bulk preferences fetch.
 */
module Preferences {
  import opened Wrappers
  import opened Json
  import opened Actions

  /**
   * Static configuration: the key under which the settings API nests the
   * preferences (USER_SETTING_KEY) and the known keys with their defaults
   * (DEFAULT_PREFERENCES).
   */
  datatype Config = Config(userSettingKey: string, defaults: map<string, Json>)

  /** The per-key reducer handles exactly these action types. */
  predicate KeyHandles(action: Action) {
    action.PreferencesSet? || action.PreferencesReceive? || action.PreferencesFetchSuccess?
    || action.Serialize? || action.Deserialize?
  }

  /**
   * The value an API payload carries for `key`: `data[userSettingKey][key]`,
   * present exactly when both steps meet an object that holds the key.
   */
  function FromApi(userSettingKey: string, key: string, data: Option<Json>): (r: Option<Json>)
    ensures r.Some? <==>
      data.Some? && data.value.JObject? && userSettingKey in data.value.fields &&
      data.value.fields[userSettingKey].JObject? && key in data.value.fields[userSettingKey].fields
    ensures r.Some? ==> r.value == data.value.fields[userSettingKey].fields[key]
  {
    GetTwoSteps(data, userSettingKey, key);
    Get(data, [userSettingKey, key])
  }

  /** The value an action writes for `key`, if any. */
  function Written(userSettingKey: string, key: string, action: Action): Option<Json> {
    match action
    case PreferencesSet(k, v) => if k == key then Some(v) else None
    case PreferencesReceive(data) => FromApi(userSettingKey, key, data)
    case PreferencesFetchSuccess(data) => FromApi(userSettingKey, key, data)
    case _ => None
  }

  /**
   * The reducer that `createReducerForPreferenceKey(key, defaultValue)`
   * builds, applied to `state` and `action`. A missing `defaultValue`
   * stands for `null`; a missing `state` for the default.
   */
  function KeyReducer(userSettingKey: string, key: string, defaultValue: Option<Json>,
                      state: Option<Json>, action: Action): (r: Json)
    ensures state.None? && !KeyHandles(action) ==> r == defaultValue.GetOr(JNull)
    ensures defaultValue.None? && state.None? && !KeyHandles(action) ==> r == JNull
    ensures action.PreferencesSet? && action.key == key ==> r == action.value
    ensures action.PreferencesSet? && action.key != key ==> r == state.GetOr(defaultValue.GetOr(JNull))
    ensures (action.PreferencesReceive? || action.PreferencesFetchSuccess?) ==>
      r == (match FromApi(userSettingKey, key, action.data)
            case Some(v) => v
            case None => state.GetOr(defaultValue.GetOr(JNull)))
    ensures (action.Serialize? || action.Deserialize?) && state.Some? ==> r == state.value
    ensures state.Some? && !KeyHandles(action) ==> r == state.value
  {
    var current := state.GetOr(defaultValue.GetOr(JNull));
    match action
    case PreferencesSet(k, v) => if k == key then v else current
    case PreferencesReceive(data) => FromApi(userSettingKey, key, data).GetOr(current)
    case PreferencesFetchSuccess(data) => FromApi(userSettingKey, key, data).GetOr(current)
    case Serialize => current
    case Deserialize => current
    case _ => current
  }

  /** Entry `k` of a stored map; `None` (`undefined`) when the map lacks it. */
  function Entry(m: map<string, Json>, k: string): Option<Json> {
    if k in m then Some(m[k]) else None
  }

  /** The stored value for each known key, its default where the stored map lacks it. */
  function Filled(cfg: Config, state: Option<map<string, Json>>): (r: map<string, Json>)
    ensures r.Keys == cfg.defaults.Keys
  {
    var prev := state.GetOr(map[]);
    map k | k in cfg.defaults :: if k in prev then prev[k] else cfg.defaults[k]
  }

  /** JSON values that JavaScript's `===` compares by content; arrays and objects compare by reference. */
  predicate IsPrimitive(v: Json) {
    !v.JArray? && !v.JObject?
  }

  /**
   * Whether the key reducer hands back the very value it was given, as
   * `combineReducers` tests with `===`: it took a branch that returns its
   * state, or it wrote a primitive equal to that state. An array or object
   * taken from an action counts as a different value from the stored one.
   */
  predicate KeyUnchanged(userSettingKey: string, key: string, state: Option<Json>, action: Action) {
    state.Some? &&
    match Written(userSettingKey, key, action)
    case None => true
    case Some(v) => IsPrimitive(v) && v == state.value
  }

  /** The settings object of an API payload: `data[USER_SETTING_KEY]`, when it is an object. */
  function Settings(userSettingKey: string, data: Option<Json>): Option<map<string, Json>> {
    match Get(data, [userSettingKey])
    case Some(JObject(fields)) => Some(fields)
    case _ => None
  }

  /**
   * The `values` reducer: one key reducer per key of DEFAULT_PREFERENCES,
   * each given its own entry of the previous map. The per-key results make
   * a new map with exactly those keys, unless no entry changed, in which
   * case the previous map comes back as it was.
   */
  function Values(cfg: Config, state: Option<map<string, Json>>, action: Action): (r: map<string, Json>)
    ensures forall k :: k in cfg.defaults ==>
      k in r && r[k] == KeyReducer(cfg.userSettingKey, k, Some(cfg.defaults[k]),
                                   Entry(state.GetOr(map[]), k), action)
    ensures r.Keys == cfg.defaults.Keys || (state.Some? && r == state.value)
    ensures state.None? ==> r.Keys == cfg.defaults.Keys
    ensures state.None? && !KeyHandles(action) ==> r == cfg.defaults
  {
    var prev := state.GetOr(map[]);
    var next := map k | k in cfg.defaults ::
      KeyReducer(cfg.userSettingKey, k, Some(cfg.defaults[k]), Entry(prev, k), action);
    if state.Some? && forall k :: k in cfg.defaults ==> KeyUnchanged(cfg.userSettingKey, k, Entry(prev, k), action)
    then prev
    else next
  }

  /** The `fetching` reducer's handler table, with the persistence actions `createReducer` answers. */
  predicate FetchHandles(action: Action) {
    action.PreferencesFetch? || action.PreferencesFetchSuccess? || action.PreferencesFetchFailure?
    || action.Serialize? || action.Deserialize?
  }

  /** The `fetching` reducer: true while the bulk preferences fetch is outstanding. */
  function Fetching(fallback: PersistFallback, state: Option<bool>, action: Action): (r: bool)
    ensures state.None? && !FetchHandles(action) ==> !r
    ensures action.PreferencesFetch? ==> r
    ensures action.PreferencesFetchSuccess? || action.PreferencesFetchFailure? ==> !r
    ensures state.Some? && !FetchHandles(action) ==> r == state.value
    ensures (action.Serialize? || action.Deserialize?) ==>
      r == (if fallback.KeepState? then state.GetOr(false) else false)
  {
    var current := state.GetOr(false);
    match action
    case PreferencesFetchSuccess(_) => false
    case PreferencesFetchFailure => false
    case PreferencesFetch => true
    case Serialize => Unlisted(fallback, current, false)
    case Deserialize => Unlisted(fallback, current, false)
    case _ => current
  }

  /** The whole preferences state: exactly the keys `values` and `fetching`. */
  datatype State = State(values: map<string, Json>, fetching: bool)

  /** The default export: `values` and `fetching` combined, each fed its own part of the state. */
  function Reduce(cfg: Config, fallback: PersistFallback, state: Option<State>, action: Action): (r: State)
    ensures forall k :: k in cfg.defaults ==> k in r.values
    ensures state.None? ==> r.values.Keys == cfg.defaults.Keys
    ensures state.None? && action.Unknown? ==> r == State(cfg.defaults, false)
  {
    State(Values(cfg, if state.Some? then Some(state.value.values) else None, action),
          Fetching(fallback, if state.Some? then Some(state.value.fetching) else None, action))
  }

  // ---- Properties relating several calls -------------------------------

  /** FETCH_SUCCESS and RECEIVE with the same payload leave every value the same. */
  lemma FetchSuccessIsReceive(cfg: Config, state: Option<map<string, Json>>, data: Option<Json>)
    ensures Values(cfg, state, PreferencesFetchSuccess(data)) == Values(cfg, state, PreferencesReceive(data))
  {
  }

  /**
   * One SET changes exactly one entry: the named key when it is known,
   * nothing when it is not. The stored map itself, stale keys included,
   * comes back exactly when it holds every known key and the SET writes no
   * new value (an equal primitive, or a key that is not known).
   */
  lemma SetUpdatesOneKey(cfg: Config, state: Option<map<string, Json>>, key: string, value: Json)
    ensures Values(cfg, state, PreferencesSet(key, value)) ==
      if state.Some? && cfg.defaults.Keys <= state.value.Keys &&
         (key in cfg.defaults ==> IsPrimitive(value) && state.value[key] == value)
      then state.value
      else if key in cfg.defaults then Filled(cfg, state)[key := value]
      else Filled(cfg, state)
  {
  }

  /**
   * SERIALIZE, DESERIALIZE and unhandled actions keep every known value,
   * with no revalidation: the stored map itself comes back when it holds
   * every known key, stale keys included; otherwise the missing keys are
   * filled with their defaults and the stale keys are dropped.
   */
  lemma PassThrough(cfg: Config, state: Option<map<string, Json>>, action: Action)
    requires !(action.PreferencesSet? || action.PreferencesReceive? || action.PreferencesFetchSuccess?)
    ensures Values(cfg, state, action) ==
      if state.Some? && cfg.defaults.Keys <= state.value.Keys then state.value else Filled(cfg, state)
  {
  }

  /**
   * RECEIVE overlays the known keys present in the payload's settings
   * object on the current values; keys the payload lacks keep their value
   * and are never reset to the default. The stored map itself comes back
   * exactly when it holds every known key and each known key the payload
   * carries is an equal primitive.
   */
  lemma ReceiveMerges(cfg: Config, state: Option<map<string, Json>>, data: Option<Json>)
    ensures var settings := Settings(cfg.userSettingKey, data);
      Values(cfg, state, PreferencesReceive(data)) ==
        if state.Some? && cfg.defaults.Keys <= state.value.Keys &&
           (settings.Some? ==> forall k :: k in cfg.defaults && k in settings.value ==>
              IsPrimitive(settings.value[k]) && settings.value[k] == state.value[k])
        then state.value
        else if settings.Some? then
          map k | k in cfg.defaults :: if k in settings.value then settings.value[k] else Filled(cfg, state)[k]
        else Filled(cfg, state)
  {
  }

  /**
   * A stored map that holds every known key keeps the keys that
   * DEFAULT_PREFERENCES no longer lists through DESERIALIZE, and loses
   * them at the first SET that writes a new value for a known key.
   */
  lemma StaleKeysSurviveUntilChange(cfg: Config, stored: map<string, Json>, key: string, value: Json)
    ensures cfg.defaults.Keys <= stored.Keys ==> Values(cfg, Some(stored), Deserialize) == stored
    ensures key in cfg.defaults && !(key in stored && IsPrimitive(value) && stored[key] == value) ==>
      Values(cfg, Some(stored), PreferencesSet(key, value)).Keys == cfg.defaults.Keys
  {
  }

  /** A second SET of the same value, or a second receipt of the same payload, changes nothing. */
  lemma WritesIdempotent(cfg: Config, state: Option<map<string, Json>>, action: Action)
    requires action.PreferencesSet? || action.PreferencesReceive? || action.PreferencesFetchSuccess?
    ensures var once := Values(cfg, state, action);
      Values(cfg, Some(once), action) == once
  {
  }

  /** The composite routes a SET to `values` only: `fetching` is left as it was. */
  lemma SetLeavesFetching(cfg: Config, fallback: PersistFallback, state: State, key: string, value: Json)
    ensures Reduce(cfg, fallback, Some(state), PreferencesSet(key, value)).fetching == state.fetching
  {
  }

  // ---- Properties of action streams ------------------------------------

  /** The state after the store dispatches `actions` in order, starting from `state`. */
  function Run(cfg: Config, fallback: PersistFallback, state: Option<State>, actions: seq<Action>): Option<State>
    decreases |actions|
  {
    if actions == [] then state
    else Some(Reduce(cfg, fallback, Run(cfg, fallback, state, actions[..|actions| - 1]), actions[|actions| - 1]))
  }

  /** The value written for `key` by the latest action of `actions` that writes one. */
  function LastWrite(userSettingKey: string, key: string, actions: seq<Action>): Option<Json>
    decreases |actions|
  {
    if actions == [] then None
    else match Written(userSettingKey, key, actions[|actions| - 1])
      case Some(v) => Some(v)
      case None => LastWrite(userSettingKey, key, actions[..|actions| - 1])
  }

  /**
   * From store creation on, each known key holds the value of the latest
   * SET, RECEIVE or FETCH_SUCCESS that wrote it, and its default if none did.
   */
  lemma {:induction false} ValueIsLastWrite(cfg: Config, fallback: PersistFallback, actions: seq<Action>, key: string)
    requires key in cfg.defaults
    requires actions != []
    ensures Run(cfg, fallback, None, actions).Some?
    ensures Run(cfg, fallback, None, actions).value.values[key] ==
      LastWrite(cfg.userSettingKey, key, actions).GetOr(cfg.defaults[key])
    decreases |actions|
  {
    var init := actions[..|actions| - 1];
    if init != [] {
      ValueIsLastWrite(cfg, fallback, init, key);
    }
  }

  /** The latest fetch-lifecycle action of `actions`: FETCH, FETCH_SUCCESS or FETCH_FAILURE. */
  function LastFetchEvent(actions: seq<Action>): Option<Action>
    decreases |actions|
  {
    if actions == [] then None
    else
      var a := actions[|actions| - 1];
      if a.PreferencesFetch? || a.PreferencesFetchSuccess? || a.PreferencesFetchFailure? then Some(a)
      else LastFetchEvent(actions[..|actions| - 1])
  }

  /**
   * From store creation on, `fetching` is set only while the latest fetch
   * action is FETCH; when persistence actions keep the flag, it is set
   * exactly then.
   */
  lemma {:induction false} FetchingMeansOutstanding(cfg: Config, fallback: PersistFallback, actions: seq<Action>)
    requires actions != []
    ensures Run(cfg, fallback, None, actions).Some?
    ensures Run(cfg, fallback, None, actions).value.fetching ==> LastFetchEvent(actions) == Some(PreferencesFetch)
    ensures fallback.KeepState? ==>
      (Run(cfg, fallback, None, actions).value.fetching <==> LastFetchEvent(actions) == Some(PreferencesFetch))
    decreases |actions|
  {
    var init := actions[..|actions| - 1];
    if init != [] {
      FetchingMeansOutstanding(cfg, fallback, init);
    }
  }
}
