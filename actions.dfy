/**
 * The action stream shared by the plans and preferences reducers: one
 * constructor per action type, and the records some of them carry.
 */
module Actions {
  import opened Wrappers
  import opened Json

  /** One subscription plan as the server returns it, attribute name to value. */
  datatype Plan = Plan(fields: map<string, Json>)

  datatype Action =
    | PlansReceive(plans: seq<Plan>)
    | PlansRequest
    | PlansRequestSuccess
    | PlansRequestFailure
    | PreferencesSet(key: string, value: Json)
    | PreferencesReceive(data: Option<Json>)
    | PreferencesFetch
    | PreferencesFetchSuccess(data: Option<Json>)
    | PreferencesFetchFailure
    | Serialize
    | Deserialize
      /** Any action whose type no reducer here handles, such as `{}` or `[]`. */
    | Unknown(kind: string)

  /**
   * What `createReducer` gives back for SERIALIZE or DESERIALIZE when the
   * reducer's handler table does not list them: the state as it is, or the
   * reducer's initial value. That utility is not part of this model.
   */
  datatype PersistFallback = KeepState | ResetToInitial

  function Unlisted<S>(fallback: PersistFallback, current: S, initial: S): S {
    match fallback
    case KeepState => current
    case ResetToInitial => initial
  }
}
