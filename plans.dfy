/**
 * The plans state, `{items, requesting, error}`, as its test suite states
 * it: the list of received plans and two flags of the plans request.
 */
module Plans {
  import opened Wrappers
  import opened Json
  import opened Actions

  /** A plan record is valid when its `product_id` is a number. */
  predicate IsValidPlan(p: Plan) {
    "product_id" in p.fields && p.fields["product_id"].JNumber?
  }

  predicate AllValid(plans: seq<Plan>) {
    forall i :: 0 <= i < |plans| ==> IsValidPlan(plans[i])
  }

  /**
   * How DESERIALIZE treats persisted plans that fail the check: drop each
   * invalid record, or drop the whole list. The tests do not tell the two
   * apart (see `RevalidationsAgreeOnShortLists`, `RevalidationsDiffer`).
   */
  datatype Revalidation = FilterRecords | RejectList

  /** The valid records of `plans`, in their received order. */
  function FilterValid(plans: seq<Plan>): (r: seq<Plan>)
    ensures AllValid(r)
    ensures |r| <= |plans|
    ensures forall p :: p in r <==> p in plans && IsValidPlan(p)
    ensures AllValid(plans) ==> r == plans
    decreases |plans|
  {
    if plans == [] then []
    else if IsValidPlan(plans[0]) then [plans[0]] + FilterValid(plans[1..])
    else FilterValid(plans[1..])
  }

  /** Filtering a list in two parts filters each part and keeps them in order. */
  lemma {:induction false} FilterValidAppend(xs: seq<Plan>, ys: seq<Plan>)
    ensures FilterValid(xs + ys) == FilterValid(xs) + FilterValid(ys)
    decreases |xs|
  {
    if xs == [] {
      assert xs + ys == ys;
    } else {
      assert (xs + ys)[0] == xs[0];
      assert (xs + ys)[1..] == xs[1..] + ys;
      FilterValidAppend(xs[1..], ys);
    }
  }

  /**
   * Filtering keeps each record where it was: a valid record contributes
   * itself and an invalid one nothing, so order and repeats are preserved.
   */
  lemma FilterValidOneByOne(xs: seq<Plan>, p: Plan, ys: seq<Plan>)
    ensures FilterValid(xs + [p] + ys) ==
      FilterValid(xs) + (if IsValidPlan(p) then [p] else []) + FilterValid(ys)
  {
    FilterValidAppend(xs + [p], ys);
    FilterValidAppend(xs, [p]);
    assert FilterValid([p]) == (if IsValidPlan(p) then [p] else []) + FilterValid([p][1..]);
  }

  /** Persisted plans as DESERIALIZE restores them. */
  function Revalidate(mode: Revalidation, plans: seq<Plan>): (r: seq<Plan>)
    ensures AllValid(r)
    ensures AllValid(plans) ==> r == plans
    ensures forall p :: p in r ==> p in plans
  {
    match mode
    case FilterRecords => FilterValid(plans)
    case RejectList => if AllValid(plans) then plans else []
  }

  /**
   * The behaviour the test suite leaves open: how DESERIALIZE revalidates,
   * and what each flag does on SERIALIZE and DESERIALIZE.
   */
  datatype Variant = Variant(revalidation: Revalidation, requestingOnPersist: PersistFallback,
                             errorOnPersist: PersistFallback)

  /** The `items` reducer handles exactly these action types. */
  predicate ItemsHandles(action: Action) {
    action.PlansReceive? || action.Serialize? || action.Deserialize?
  }

  /** The `items` reducer. */
  function Items(v: Variant, state: Option<seq<Plan>>, action: Action): (r: seq<Plan>)
    ensures state.None? && !ItemsHandles(action) ==> r == []
    ensures state.Some? && !ItemsHandles(action) ==> r == state.value
    ensures action.PlansReceive? ==> r == action.plans
    ensures action.Serialize? && state.Some? ==> r == state.value
    ensures action.Deserialize? ==> AllValid(r)
    ensures action.Deserialize? && state.Some? && AllValid(state.value) ==> r == state.value
    ensures action.Deserialize? ==> forall p :: p in r ==> p in state.GetOr([])
  {
    var current := state.GetOr([]);
    match action
    case PlansReceive(plans) => plans
    case Serialize => current
    case Deserialize => Revalidate(v.revalidation, current)
    case _ => current
  }

  /** The flag reducers handle exactly these action types. */
  predicate FlagHandles(action: Action) {
    action.PlansRequest? || action.PlansRequestSuccess? || action.PlansRequestFailure?
    || action.Serialize? || action.Deserialize?
  }

  /** The `requesting` reducer: set while a plans request is outstanding. */
  function Requesting(v: Variant, state: Option<bool>, action: Action): (r: bool)
    ensures state.None? && !FlagHandles(action) ==> !r
    ensures state.Some? && !FlagHandles(action) ==> r == state.value
    ensures action.PlansRequest? ==> r
    ensures action.PlansRequestSuccess? || action.PlansRequestFailure? ==> !r
    ensures (action.Serialize? || action.Deserialize?) ==>
      r == (if v.requestingOnPersist.KeepState? then state.GetOr(false) else false)
  {
    var current := state.GetOr(false);
    match action
    case PlansRequest => true
    case PlansRequestSuccess => false
    case PlansRequestFailure => false
    case Serialize => Unlisted(v.requestingOnPersist, current, false)
    case Deserialize => Unlisted(v.requestingOnPersist, current, false)
    case _ => current
  }

  /** The `error` reducer: set after a failed plans request until the next request or success. */
  function Error(v: Variant, state: Option<bool>, action: Action): (r: bool)
    ensures state.None? && !FlagHandles(action) ==> !r
    ensures state.Some? && !FlagHandles(action) ==> r == state.value
    ensures action.PlansRequestFailure? ==> r
    ensures action.PlansRequest? || action.PlansRequestSuccess? ==> !r
    ensures (action.Serialize? || action.Deserialize?) ==>
      r == (if v.errorOnPersist.KeepState? then state.GetOr(false) else false)
  {
    var current := state.GetOr(false);
    match action
    case PlansRequestFailure => true
    case PlansRequest => false
    case PlansRequestSuccess => false
    case Serialize => Unlisted(v.errorOnPersist, current, false)
    case Deserialize => Unlisted(v.errorOnPersist, current, false)
    case _ => current
  }

  /** The whole plans state: exactly the keys `items`, `requesting` and `error`. */
  datatype State = State(items: seq<Plan>, requesting: bool, error: bool)

  /** The default export: the three reducers combined, each fed its own part of the state. */
  function Reduce(v: Variant, state: Option<State>, action: Action): (r: State)
    ensures state.None? && action.Unknown? ==> r == State([], false, false)
    ensures action.Deserialize? ==> AllValid(r.items)
    ensures action.Deserialize? ==> forall p :: p in r.items ==> state.Some? && p in state.value.items
  {
    State(Items(v, if state.Some? then Some(state.value.items) else None, action),
          Requesting(v, if state.Some? then Some(state.value.requesting) else None, action),
          Error(v, if state.Some? then Some(state.value.error) else None, action))
  }

  // ---- Properties relating several calls -------------------------------

  /** Receiving the same plan list again over the result changes nothing. */
  lemma ReceiveIdempotent(v: Variant, state: Option<seq<Plan>>, plans: seq<Plan>)
    ensures var once := Items(v, state, PlansReceive(plans));
      Items(v, Some(once), PlansReceive(plans)) == once
  {
  }

  /** Saving and then loading valid plans gives them back unchanged. */
  lemma SerializeRoundTrip(v: Variant, items: seq<Plan>)
    requires AllValid(items)
    ensures Items(v, Some(Items(v, Some(items), Serialize)), Deserialize) == items
  {
  }

  /** Loading what was just loaded changes nothing. */
  lemma DeserializeIdempotent(v: Variant, items: seq<Plan>)
    ensures var once := Items(v, Some(items), Deserialize);
      Items(v, Some(once), Deserialize) == once
  {
  }

  /** A persisted plan whose `product_id` is the string "234234" is not loaded. */
  lemma StringProductIdNotLoaded(v: Variant)
    ensures Items(v, Some([Plan(map["product_id" := JString("234234")])]), Deserialize) == []
  {
    var bad := Plan(map["product_id" := JString("234234")]);
    assert !IsValidPlan(bad);
    assert FilterValid([bad]) == FilterValid([bad][1..]);
  }

  /** A stored list with no valid record loads as the empty list, in either mode. */
  lemma NoValidRecordLoadsEmpty(v: Variant, items: seq<Plan>)
    requires forall p :: p in items ==> !IsValidPlan(p)
    ensures Items(v, Some(items), Deserialize) == []
  {
    match v.revalidation
    case FilterRecords => FilterValidNone(items);
    case RejectList =>
      if items != [] {
        assert !IsValidPlan(items[0]);
      }
  }

  /** Filtering a list with no valid record leaves nothing. */
  lemma {:induction false} FilterValidNone(items: seq<Plan>)
    requires forall p :: p in items ==> !IsValidPlan(p)
    ensures FilterValid(items) == []
    decreases |items|
  {
    if items != [] {
      assert items[0] in items;
      assert forall p :: p in items[1..] ==> p in items;
      FilterValidNone(items[1..]);
    }
  }

  /** Both ways of revalidating agree on valid lists and on lists of at most one record. */
  lemma RevalidationsAgreeOnShortLists(plans: seq<Plan>)
    requires AllValid(plans) || |plans| <= 1
    ensures Revalidate(FilterRecords, plans) == Revalidate(RejectList, plans)
  {
  }

  /** ... and differ on a valid record followed by an invalid one. */
  lemma RevalidationsDiffer()
    ensures var good := Plan(map["product_id" := JNumber(1.0)]);
      var bad := Plan(map["product_id" := JString("1")]);
      Revalidate(FilterRecords, [good, bad]) == [good] &&
      Revalidate(RejectList, [good, bad]) == []
  {
  }

  /** The request and failure actions never leave both flags set. */
  lemma FlagsTable(v: Variant, state: Option<State>)
    ensures var r := Reduce(v, state, PlansRequest); r.requesting && !r.error
    ensures var r := Reduce(v, state, PlansRequestSuccess); !r.requesting && !r.error
    ensures var r := Reduce(v, state, PlansRequestFailure); !r.requesting && r.error
  {
  }

  // ---- Properties of action streams ------------------------------------

  /** The state after the store dispatches `actions` in order, starting from `state`. */
  function Run(v: Variant, state: Option<State>, actions: seq<Action>): Option<State>
    decreases |actions|
  {
    if actions == [] then state
    else Some(Reduce(v, Run(v, state, actions[..|actions| - 1]), actions[|actions| - 1]))
  }

  /** Every plan list the stream receives is valid. */
  predicate ReceivesValid(actions: seq<Action>) {
    forall i :: 0 <= i < |actions| && actions[i].PlansReceive? ==> AllValid(actions[i].plans)
  }

  /** As long as received lists are valid, `items` holds only valid plans. */
  lemma {:induction false} ItemsStayValid(v: Variant, state: Option<State>, actions: seq<Action>)
    requires state.None? || AllValid(state.value.items)
    requires ReceivesValid(actions)
    ensures var s := Run(v, state, actions); s.None? || AllValid(s.value.items)
    decreases |actions|
  {
    if actions != [] {
      var init := actions[..|actions| - 1];
      assert ReceivesValid(init) by {
        forall i | 0 <= i < |init| && init[i].PlansReceive?
          ensures AllValid(init[i].plans)
        {
          assert init[i] == actions[i];
        }
      }
      ItemsStayValid(v, state, init);
    }
  }

  /** The latest plans-request action of `actions`: REQUEST, SUCCESS or FAILURE. */
  function LastRequestEvent(actions: seq<Action>): Option<Action>
    decreases |actions|
  {
    if actions == [] then None
    else
      var a := actions[|actions| - 1];
      if a.PlansRequest? || a.PlansRequestSuccess? || a.PlansRequestFailure? then Some(a)
      else LastRequestEvent(actions[..|actions| - 1])
  }

  /**
   * From store creation on, `requesting` is set only while the latest
   * request action is REQUEST, and `error` only while it is FAILURE; when
   * persistence actions keep the flags, each is set exactly then.
   */
  lemma {:induction false} FlagsFollowLastRequest(v: Variant, actions: seq<Action>)
    requires actions != []
    ensures Run(v, None, actions).Some?
    ensures Run(v, None, actions).value.requesting ==> LastRequestEvent(actions) == Some(PlansRequest)
    ensures Run(v, None, actions).value.error ==> LastRequestEvent(actions) == Some(PlansRequestFailure)
    ensures v.requestingOnPersist.KeepState? ==>
      (Run(v, None, actions).value.requesting <==> LastRequestEvent(actions) == Some(PlansRequest))
    ensures v.errorOnPersist.KeepState? ==>
      (Run(v, None, actions).value.error <==> LastRequestEvent(actions) == Some(PlansRequestFailure))
    decreases |actions|
  {
    var init := actions[..|actions| - 1];
    if init != [] {
      FlagsFollowLastRequest(v, init);
    }
  }

  /** From store creation on, `requesting` and `error` are never both set. */
  lemma {:induction false} NeverRequestingAndFailed(v: Variant, actions: seq<Action>)
    ensures var s := Run(v, None, actions); s.None? || !(s.value.requesting && s.value.error)
  {
    if actions != [] {
      FlagsFollowLastRequest(v, actions);
    }
  }
}
