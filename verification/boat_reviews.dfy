/**
  The reviews panel of a boat (`boatReviews.js`): a guarded
  loading/success/failure machine around one remote query for a boat's reviews.
 */
module BoatReviews {
  import opened Platform

  /** One review record returned by the reviews query; the panel only stores and counts them. */
  datatype Review = Review(fields: Fields)

  datatype State = State(
    boatId: JsValue,
    error: Maybe<ErrorDetail>,
    boatReviews: Maybe<seq<Review>>,
    isLoading: Maybe<bool>)

  /** Every tracked field starts out undefined. */
  const Initial: State := State(JsUndefined, Undefined, Undefined, Undefined)

  /** What the panel hands to the platform: a call of the reviews query for a boat. */
  datatype Effect = GetAllReviews(boatId: JsValue)

  /** What reaches the panel: the host setting `recordId`, the host calling
      `refresh()`, and the two ways the reviews query can complete. */
  datatype Event =
    | RecordIdSet(value: JsValue)
    | RefreshCalled
    | ReviewsResolved(result: seq<Review>)
    | ReviewsRejected(error: ErrorDetail)

  /** The `recordId` getter. */
  function RecordId(s: State): JsValue
  {
    s.boatId
  }

  /** Whether there are reviews to display: an array that is present and non-empty. */
  predicate ReviewsToShow(s: State)
  {
    match s.boatReviews
    case Undefined => false
    case Defined(reviews) => |reviews| > 0
  }

  /** Starts a load of the reviews of the current boat, unless the boat id is falsy. */
  function GetReviews(s: State): (t: Transition<State, Effect>)
    ensures t.emitted != [] <==> Truthy(s.boatId)
    ensures forall e <- t.emitted :: e == GetAllReviews(s.boatId)
    ensures |t.emitted| <= 1
    ensures !Truthy(s.boatId) ==> t.state == s
    ensures Truthy(s.boatId) ==> t.state.isLoading == Defined(true)
    ensures t.state.(isLoading := s.isLoading) == s
  {
    if !Truthy(s.boatId) then Transition(s, [])
    else Transition(s.(isLoading := Defined(true)), [GetAllReviews(s.boatId)])
  }

  /** The `recordId` setter: stores the value, whatever it was before, and loads again. */
  function SetRecordId(s: State, value: JsValue): (t: Transition<State, Effect>)
    ensures RecordId(t.state) == value
    ensures t == GetReviews(s.(boatId := value))
    ensures Truthy(value) <==> t.emitted == [GetAllReviews(value)]
  {
    GetReviews(s.(boatId := value))
  }

  /** The public `refresh()`: the same effect as starting a load directly. */
  function Refresh(s: State): (t: Transition<State, Effect>)
    ensures t == GetReviews(s)
  {
    GetReviews(s)
  }

  /** The query resolved: keep its reviews, forget any earlier error, stop loading. */
  function OnReviewsResolved(s: State, result: seq<Review>): (t: Transition<State, Effect>)
    ensures t.state.boatReviews == Defined(result)
    ensures t.state.error == Undefined
    ensures t.state.isLoading == Defined(false)
    ensures t.state.boatId == s.boatId
    ensures t.emitted == []
  {
    Transition(s.(boatReviews := Defined(result), error := Undefined, isLoading := Defined(false)), [])
  }

  /** The query rejected: drop the reviews, keep the error, stop loading. */
  function OnReviewsRejected(s: State, error: ErrorDetail): (t: Transition<State, Effect>)
    ensures t.state.boatReviews == Undefined
    ensures t.state.error == Defined(error)
    ensures t.state.isLoading == Defined(false)
    ensures t.state.boatId == s.boatId
    ensures t.emitted == []
  {
    Transition(s.(boatReviews := Undefined, error := Defined(error), isLoading := Defined(false)), [])
  }

  function Step(s: State, e: Event): Transition<State, Effect>
  {
    match e
    case RecordIdSet(value) => SetRecordId(s, value)
    case RefreshCalled => Refresh(s)
    case ReviewsResolved(result) => OnReviewsResolved(s, result)
    case ReviewsRejected(error) => OnReviewsRejected(s, error)
  }

  /** Never stale data next to an error: at most one of the two is defined. */
  predicate NoStaleData(s: State)
  {
    !(s.error.Defined? && s.boatReviews.Defined?)
  }

  /** Whether there are reviews to show is decided by the stored reviews alone. */
  lemma ReviewsToShowDependsOnlyOnData(s: State, s': State)
    requires s.boatReviews == s'.boatReviews
    ensures ReviewsToShow(s) == ReviewsToShow(s')
  {
  }

  /** After a completion, whether reviews show depends only on how the query completed. */
  lemma ReviewsToShowAfterCompletion(s: State, result: seq<Review>, error: ErrorDetail)
    ensures ReviewsToShow(OnReviewsResolved(s, result).state) <==> |result| > 0
    ensures !ReviewsToShow(OnReviewsRejected(s, error).state)
  {
  }

  /** Setting the same truthy id twice loads twice: the setter has no equality short-circuit. */
  lemma SetRecordIdNoShortCircuit(s: State, value: JsValue)
    requires Truthy(value)
    ensures var first := SetRecordId(s, value);
            SetRecordId(first.state, value).emitted == [GetAllReviews(value)]
  {
  }

  lemma StepKeepsNoStaleData(s: State, e: Event)
    requires NoStaleData(s)
    ensures NoStaleData(Step(s, e).state)
  {
  }

  /** From any consistent state, whatever the order of calls and completions,
      the panel never holds reviews and an error together. */
  lemma {:induction false} RunKeepsNoStaleData(s: State, events: seq<Event>)
    requires NoStaleData(s)
    ensures NoStaleData(Run(Step, s, events).state)
    decreases |events|
  {
    if events != [] {
      StepKeepsNoStaleData(s, events[0]);
      RunKeepsNoStaleData(Step(s, events[0]).state, events[1..]);
    }
  }

  /** Every query call the panel ever issues names a truthy boat id. */
  lemma {:induction false} RunFetchesOnlyTruthyIds(s: State, events: seq<Event>)
    ensures forall e <- Run(Step, s, events).emitted :: Truthy(e.boatId)
    decreases |events|
  {
    if events != [] {
      RunFetchesOnlyTruthyIds(Step(s, events[0]).state, events[1..]);
    }
  }

  /** The last completion decides the panel's outcome, and loading has stopped. */
  lemma {:induction false} LastCompletionWins(s: State, events: seq<Event>, result: seq<Review>)
    ensures var t := Run(Step, s, events + [ReviewsResolved(result)]).state;
            t.boatReviews == Defined(result) && t.error == Undefined && t.isLoading == Defined(false)
  {
    RunAppend(Step, s, events, [ReviewsResolved(result)]);
  }

  /** The last completion in a trace, if any: sets and refreshes are not completions. */
  function LastCompletion(events: seq<Event>): (c: Maybe<Event>)
    ensures c.Defined? ==> c.value in events && (c.value.ReviewsResolved? || c.value.ReviewsRejected?)
    decreases |events|
  {
    if events == [] then Undefined
    else match LastCompletion(events[1..])
      case Defined(later) => Defined(later)
      case Undefined =>
        if events[0].ReviewsResolved? || events[0].ReviewsRejected? then Defined(events[0]) else Undefined
  }

  /** The reviews and error a panel holds after a trace: those of the last
      completion, or the ones it started with when nothing completed. */
  lemma {:induction false} ReviewsFollowLastCompletion(s: State, events: seq<Event>)
    ensures var t := Run(Step, s, events).state;
            match LastCompletion(events)
            case Undefined => t.boatReviews == s.boatReviews && t.error == s.error
            case Defined(c) =>
              if c.ReviewsResolved? then t.boatReviews == Defined(c.result) && t.error == Undefined
              else t.boatReviews == Undefined && t.error == Defined(c.error)
    decreases |events|
  {
    if events != [] {
      var first := Step(s, events[0]);
      assert Run(Step, s, events).state == Run(Step, first.state, events[1..]).state;
      ReviewsFollowLastCompletion(first.state, events[1..]);
    }
  }

  /** Over any trace, there are reviews to show exactly when the last completion
      is a success with a non-empty result; with no completion, as before the trace. */
  lemma ReviewsToShowFollowsLastCompletion(s: State, events: seq<Event>)
    ensures ReviewsToShow(Run(Step, s, events).state)
        <==> match LastCompletion(events)
             case Undefined => ReviewsToShow(s)
             case Defined(c) => c.ReviewsResolved? && |c.result| > 0
  {
    ReviewsFollowLastCompletion(s, events);
  }

  /** From the panel's initial state, no trace ever shows reviews and an error together,
      and nothing shows before a query succeeds. */
  lemma FromInitialNeverStale(events: seq<Event>)
    ensures NoStaleData(Run(Step, Initial, events).state)
    ensures LastCompletion(events).Undefined? ==> !ReviewsToShow(Run(Step, Initial, events).state)
  {
    RunKeepsNoStaleData(Initial, events);
    ReviewsToShowFollowsLastCompletion(Initial, events);
  }

  /** An example: a boat "B001" whose query yields one review. */
  lemma ScenarioB001(orca: Review)
    ensures var set1 := SetRecordId(Initial, JsString("B001"));
            && set1.emitted == [GetAllReviews(JsString("B001"))]
            && var done := OnReviewsResolved(set1.state, [orca]).state;
               ReviewsToShow(done) && done.error == Undefined
  {
  }
}
