/**
  The boat search results table (`boatSearchResults.js`): loading
  notifications to the parent, selection published on the boat message
  channel, and inline edits saved back as record updates.
 */
module BoatSearchResults {
  import opened Platform

  const SuccessTitle: string := "Success"
  const MessageShipIt: string := "Ship it!"
  const SuccessVariant: string := "success"
  const ErrorTitle: string := "Error"
  const ErrorVariant: string := "error"

  /** The custom events the table dispatches to its parent. */
  const LoadingEvent: string := "loading"
  const DoneLoadingEvent: string := "doneloading"

  /** The message channel selections are published on. */
  const BoatMessageChannel: string := "BoatMessageChannel__c"

  /** What the boats query wire delivers: an object carrying data or an error. */
  datatype WireResult = WireResult(data: Maybe<seq<Fields>>, error: Maybe<ErrorDetail>)

  /** The payload published on the boat message channel. */
  datatype BoatMessage = BoatMessage(recordId: JsValue)

  /** The argument of one record update: a copy of one edited row's fields. */
  datatype RecordInput = RecordInput(fields: Fields)

  /** `isLoading` is declared `false` and never assigned; `draftValues` is
      only ever assigned, by a successful save. */
  datatype State = State(
    selectedBoatId: JsValue,
    boatTypeId: JsValue,
    boats: Maybe<WireResult>,
    isLoading: bool,
    wiredBoatsResults: Maybe<WireResult>,
    draftValues: Maybe<seq<Fields>>)

  const Initial: State := State(JsUndefined, JsString(""), Undefined, false, Undefined, Undefined)

  /** What the table hands to the platform. */
  datatype Effect =
    | Dispatch(name: string)
    | ShowToast(toast: ToastEvent)
    | Publish(channel: string, message: BoatMessage)
    | UpdateRecord(input: RecordInput)
    | RefreshApex(target: Maybe<WireResult>)

  /** What reaches the table: a wire delivery (`Undefined` for a falsy one),
      the parent's calls of `searchBoats` and `refresh`, the settling of the
      refresh it started, a tile selection, and a save of the draft values. */
  datatype Event =
    | WireDelivered(result: Maybe<WireResult>)
    | SearchRequested(boatTypeId: JsValue)
    | RefreshCalled
    | RefreshSettled(resolved: bool)
    | TileSelected(boatId: JsValue)
    | SaveRequested(draftValues: seq<Fields>)

  /** `notifyLoading`: exactly one custom event, 'loading' or 'doneloading'. */
  function NotifyLoading(isLoading: bool): (out: seq<Effect>)
    ensures |out| == 1 && out[0].Dispatch?
    ensures out[0].name == LoadingEvent <==> isLoading
    ensures out[0].name == DoneLoadingEvent <==> !isLoading
  {
    if isLoading then [Dispatch(LoadingEvent)] else [Dispatch(DoneLoadingEvent)]
  }

  /** `wiredBoats`: always remembers the delivery; a truthy one becomes the boats
      and ends the loading. */
  function WiredBoats(s: State, result: Maybe<WireResult>): (t: Transition<State, Effect>)
    ensures t.state.wiredBoatsResults == result
    ensures result.Defined? ==> t.state.boats == result && t.emitted == [Dispatch(DoneLoadingEvent)]
    ensures result.Undefined? ==> t.state.boats == s.boats && t.emitted == []
    ensures t.state.(wiredBoatsResults := s.wiredBoatsResults, boats := s.boats) == s
  {
    var remembered := s.(wiredBoatsResults := result);
    if result.Defined? then Transition(remembered.(boats := result), NotifyLoading(false))
    else Transition(remembered, [])
  }

  /** `searchBoats`: takes the new boat type and tells the parent loading started. */
  function SearchBoats(s: State, boatTypeId: JsValue): (t: Transition<State, Effect>)
    ensures t.state.boatTypeId == boatTypeId
    ensures t.state.(boatTypeId := s.boatTypeId) == s
    ensures t.emitted == [Dispatch(LoadingEvent)]
  {
    Transition(s.(boatTypeId := boatTypeId), NotifyLoading(true))
  }

  /** `refresh`, up to its await: 'loading', then a refresh of the cached boats. */
  function Refresh(s: State): (t: Transition<State, Effect>)
    ensures t.state == s
    ensures t.emitted == [Dispatch(LoadingEvent), RefreshApex(s.boats)]
  {
    Transition(s, NotifyLoading(true) + [RefreshApex(s.boats)])
  }

  /** `refresh`, after its await: 'doneloading', whether the refresh resolved or rejected. */
  function OnRefreshSettled(s: State, resolved: bool): (t: Transition<State, Effect>)
    ensures t.state == s
    ensures t.emitted == [Dispatch(DoneLoadingEvent)]
  {
    Transition(s, NotifyLoading(false))
  }

  /** `sendMessageService`: one message on the boat channel carrying the id. */
  function SendMessageService(boatId: JsValue): (out: seq<Effect>)
    ensures |out| == 1
    ensures out[0].Publish? && out[0].channel == BoatMessageChannel
    ensures out[0].message.recordId == boatId
  {
    [Publish(BoatMessageChannel, BoatMessage(boatId))]
  }

  /** `updateSelectedTile`: remembers the selected boat and publishes its id. */
  function UpdateSelectedTile(s: State, boatId: JsValue): (t: Transition<State, Effect>)
    ensures t.state.selectedBoatId == boatId
    ensures t.state.(selectedBoatId := s.selectedBoatId) == s
    ensures t.emitted == [Publish(BoatMessageChannel, BoatMessage(t.state.selectedBoatId))]
  {
    var selected := s.(selectedBoatId := boatId);
    Transition(selected, SendMessageService(selected.selectedBoatId))
  }

  /** The record inputs of a save: one per draft, in order, each a copy of its draft. */
  function RecordInputs(drafts: seq<Fields>): (inputs: seq<RecordInput>)
    ensures |inputs| == |drafts|
    ensures forall i :: 0 <= i < |drafts| ==> inputs[i].fields == drafts[i]
  {
    seq(|drafts|, i requires 0 <= i < |drafts| => RecordInput(drafts[i]))
  }

  /** The update calls a save issues, one per record input, in order. */
  function UpdateCalls(inputs: seq<RecordInput>): (out: seq<Effect>)
    ensures |out| == |inputs|
    ensures forall i :: 0 <= i < |inputs| ==> out[i] == UpdateRecord(inputs[i])
  {
    seq(|inputs|, i requires 0 <= i < |inputs| => UpdateRecord(inputs[i]))
  }

  /** The drafts a list of record inputs were copied from. */
  function DraftsOf(inputs: seq<RecordInput>): (drafts: seq<Fields>)
    ensures |drafts| == |inputs|
  {
    seq(|inputs|, i requires 0 <= i < |inputs| => inputs[i].fields)
  }

  /** `handleSave` as written: the update calls' promises are not returned from the
      mapping callback, so the outcomes are never awaited and the save always
      takes the success path: the toast, cleared drafts, then a refresh. */
  function HandleSave(s: State, drafts: seq<Fields>): (t: Transition<State, Effect>)
    ensures |t.emitted| == |drafts| + 3
    ensures t.emitted[..|drafts|] == UpdateCalls(RecordInputs(drafts))
    ensures t.emitted[|drafts|] == ShowToast(ToastEvent(SuccessTitle, MessageShipIt, SuccessVariant))
    ensures t.emitted[|drafts| + 1..] == [Dispatch(LoadingEvent), RefreshApex(s.boats)]
    ensures t.state.draftValues == Defined([])
    ensures t.state.(draftValues := s.draftValues) == s
  {
    var updates := UpdateCalls(RecordInputs(drafts));
    var cleared := s.(draftValues := Defined([]));
    var refreshed := Refresh(cleared);
    Transition(refreshed.state, updates + [ShowToast(ToastEvent(SuccessTitle, MessageShipIt, SuccessVariant))] + refreshed.emitted)
  }

  /** The first failure among the update outcomes (`Undefined` stands for a success). */
  function FirstFailure(outcomes: seq<Maybe<ErrorDetail>>): (first: Maybe<ErrorDetail>)
    ensures first.Undefined? <==> forall i :: 0 <= i < |outcomes| ==> outcomes[i].Undefined?
    ensures first.Defined? ==> exists i :: 0 <= i < |outcomes| && outcomes[i] == first
  {
    if outcomes == [] then Undefined
    else if outcomes[0].Defined? then outcomes[0]
    else FirstFailure(outcomes[1..])
  }

  /** The save with the update outcomes awaited, so that the rejection branch of
      `handleSave` can be reached: all-or-nothing over the outcomes. On success it
      behaves as `HandleSave`; on a failure it takes the rejection branch, one 'Error'
      toast with the failure's message, keeping the drafts and not refreshing. */
  function IntendedHandleSave(s: State, drafts: seq<Fields>, outcomes: seq<Maybe<ErrorDetail>>): (t: Transition<State, Effect>)
    requires |outcomes| == |drafts|
    ensures |t.emitted| > |drafts|
    ensures t.emitted[..|drafts|] == UpdateCalls(RecordInputs(drafts))
    ensures FirstFailure(outcomes).Defined? ==>
      && t.state == s
      && t.emitted[|drafts|..] == [ShowToast(ToastEvent(ErrorTitle, FirstFailure(outcomes).value.message, ErrorVariant))]
  {
    match FirstFailure(outcomes)
    case Undefined => HandleSave(s, drafts)
    case Defined(e) =>
      Transition(s, UpdateCalls(RecordInputs(drafts)) + [ShowToast(ToastEvent(ErrorTitle, e.message, ErrorVariant))])
  }

  function Step(s: State, e: Event): Transition<State, Effect>
  {
    match e
    case WireDelivered(result) => WiredBoats(s, result)
    case SearchRequested(boatTypeId) => SearchBoats(s, boatTypeId)
    case RefreshCalled => Refresh(s)
    case RefreshSettled(resolved) => OnRefreshSettled(s, resolved)
    case TileSelected(boatId) => UpdateSelectedTile(s, boatId)
    case SaveRequested(drafts) => HandleSave(s, drafts)
  }

  /** The drafts can be read back from the record inputs of a save. */
  lemma RecordInputsRoundTrip(drafts: seq<Fields>)
    ensures DraftsOf(RecordInputs(drafts)) == drafts
  {
  }

  /** A refresh, however it settles, tells the parent 'loading' and then 'doneloading' once. */
  lemma RefreshNotifiesBothEnds(s: State, resolved: bool)
    ensures var started := Run(Step, s, [RefreshCalled, RefreshSettled(resolved)]);
            && started.state == s
            && Count(started.emitted, Dispatch(LoadingEvent)) == 1
            && Count(started.emitted, Dispatch(DoneLoadingEvent)) == 1
            && started.emitted == [Dispatch(LoadingEvent), RefreshApex(s.boats), Dispatch(DoneLoadingEvent)]
  {
    var first := Step(s, RefreshCalled);
    var rest := Run(Step, first.state, [RefreshSettled(resolved)]);
    assert [RefreshCalled, RefreshSettled(resolved)][1..] == [RefreshSettled(resolved)];
    assert Run(Step, first.state, [RefreshSettled(resolved)][1..]) == Transition(s, []);
    assert rest.emitted == [Dispatch(DoneLoadingEvent)];
  }

  /** The as-written save agrees with the all-or-nothing save exactly when every
      update succeeds: a failing update still yields the success toast and a refresh. */
  lemma HandleSaveIgnoresFailures(s: State, drafts: seq<Fields>, outcomes: seq<Maybe<ErrorDetail>>)
    requires |outcomes| == |drafts|
    ensures HandleSave(s, drafts) == IntendedHandleSave(s, drafts, outcomes)
        <==> forall i :: 0 <= i < |outcomes| ==> outcomes[i].Undefined?
  {
  }

  /** A save that is given a failing update still ends the drafts and refreshes. */
  lemma SaveWithFailingUpdate(s: State, drafts: seq<Fields>, outcomes: seq<Maybe<ErrorDetail>>, i: nat)
    requires |outcomes| == |drafts| && i < |outcomes| && outcomes[i].Defined?
    ensures IntendedHandleSave(s, drafts, outcomes).state.draftValues == s.draftValues
    ensures HandleSave(s, drafts).state.draftValues == Defined([])
    ensures Dispatch(LoadingEvent) in HandleSave(s, drafts).emitted
    ensures Dispatch(LoadingEvent) !in IntendedHandleSave(s, drafts, outcomes).emitted
  {
  }

  /** The events that make the table tell its parent loading started. */
  predicate StartsLoading(e: Event)
  {
    e.SearchRequested? || e.RefreshCalled? || e.SaveRequested?
  }

  /** The events that make the table tell its parent loading is done. */
  predicate EndsLoading(e: Event)
  {
    (e.WireDelivered? && e.result.Defined?) || e.RefreshSettled?
  }

  function CountWhere(events: seq<Event>, p: Event -> bool): (n: nat)
    ensures n <= |events|
  {
    if events == [] then 0
    else (if p(events[0]) then 1 else 0) + CountWhere(events[1..], p)
  }

  /** A save's log holds one 'loading' (its refresh's) and no 'doneloading'. */
  lemma SaveNotifies(s: State, drafts: seq<Fields>)
    ensures Count(HandleSave(s, drafts).emitted, Dispatch(LoadingEvent)) == 1
    ensures Count(HandleSave(s, drafts).emitted, Dispatch(DoneLoadingEvent)) == 0
  {
    var updates := UpdateCalls(RecordInputs(drafts));
    var tail := [ShowToast(ToastEvent(SuccessTitle, MessageShipIt, SuccessVariant)), Dispatch(LoadingEvent), RefreshApex(s.boats)];
    assert HandleSave(s, drafts).emitted == updates + tail;
    assert Dispatch(LoadingEvent) !in updates;
    assert Dispatch(DoneLoadingEvent) !in updates;
    CountAppend(updates, tail, Dispatch(LoadingEvent));
    CountAppend(updates, tail, Dispatch(DoneLoadingEvent));
  }

  lemma StepNotifies(s: State, e: Event)
    ensures Count(Step(s, e).emitted, Dispatch(LoadingEvent)) == (if StartsLoading(e) then 1 else 0)
    ensures Count(Step(s, e).emitted, Dispatch(DoneLoadingEvent)) == (if EndsLoading(e) then 1 else 0)
  {
    match e
    case SaveRequested(drafts) => SaveNotifies(s, drafts);
    case WireDelivered(result) =>
    case SearchRequested(boatTypeId) =>
    case RefreshCalled =>
    case RefreshSettled(resolved) =>
    case TileSelected(boatId) =>
  }

  /** Over any trace, the 'loading' events the parent receives are one per search,
      refresh and save, and the 'doneloading' events one per truthy wire delivery
      and settled refresh. */
  lemma {:induction false} RunNotifications(s: State, events: seq<Event>)
    ensures Count(Run(Step, s, events).emitted, Dispatch(LoadingEvent)) == CountWhere(events, StartsLoading)
    ensures Count(Run(Step, s, events).emitted, Dispatch(DoneLoadingEvent)) == CountWhere(events, EndsLoading)
    decreases |events|
  {
    if events != [] {
      var first := Step(s, events[0]);
      var rest := Run(Step, first.state, events[1..]);
      assert Run(Step, s, events) == Transition(rest.state, first.emitted + rest.emitted);
      StepNotifies(s, events[0]);
      RunNotifications(first.state, events[1..]);
      CountAppend(first.emitted, rest.emitted, Dispatch(LoadingEvent));
      CountAppend(first.emitted, rest.emitted, Dispatch(DoneLoadingEvent));
    }
  }

  /** The ids the table publishes, in order. */
  function Published(log: seq<Effect>): (ids: seq<JsValue>)
    ensures |ids| <= |log|
  {
    if log == [] then []
    else (if log[0].Publish? then [log[0].message.recordId] else []) + Published(log[1..])
  }

  lemma {:induction false} PublishedAppend(a: seq<Effect>, b: seq<Effect>)
    ensures Published(a + b) == Published(a) + Published(b)
  {
    if a == [] {
      assert a + b == b;
    } else {
      assert (a + b)[0] == a[0];
      assert (a + b)[1..] == a[1..] + b;
      PublishedAppend(a[1..], b);
    }
  }

  lemma {:induction false} PublishedNone(log: seq<Effect>)
    requires forall x <- log :: !x.Publish?
    ensures Published(log) == []
  {
    if log != [] {
      PublishedNone(log[1..]);
    }
  }

  /** The boat ids of the tile selections in a trace, in order. */
  function SelectedIds(events: seq<Event>): (ids: seq<JsValue>)
    ensures |ids| <= |events|
  {
    if events == [] then []
    else (if events[0].TileSelected? then [events[0].boatId] else []) + SelectedIds(events[1..])
  }

  lemma StepPublishes(s: State, e: Event)
    ensures Published(Step(s, e).emitted) == (if e.TileSelected? then [e.boatId] else [])
    ensures Step(s, e).state.selectedBoatId == (if e.TileSelected? then e.boatId else s.selectedBoatId)
  {
    if !e.TileSelected? {
      PublishedNone(Step(s, e).emitted);
    }
  }

  /** Over any trace, the table publishes exactly the selected ids, one message per
      selection and in selection order, and holds the last of them as selected. */
  lemma {:induction false} RunPublishesSelections(s: State, events: seq<Event>)
    ensures Published(Run(Step, s, events).emitted) == SelectedIds(events)
    ensures Run(Step, s, events).state.selectedBoatId
         == (if SelectedIds(events) == [] then s.selectedBoatId else SelectedIds(events)[|SelectedIds(events)| - 1])
    decreases |events|
  {
    if events != [] {
      var first := Step(s, events[0]);
      var rest := Run(Step, first.state, events[1..]);
      assert Run(Step, s, events) == Transition(rest.state, first.emitted + rest.emitted);
      StepPublishes(s, events[0]);
      RunPublishesSelections(first.state, events[1..]);
      PublishedAppend(first.emitted, rest.emitted);
    }
  }

  /** From the table's initial state: no boat is selected until a tile is, and the
      parent hears one 'loading' per search, refresh and save. */
  lemma FromInitial(events: seq<Event>)
    ensures SelectedIds(events) == [] ==> Run(Step, Initial, events).state.selectedBoatId == JsUndefined
    ensures Published(Run(Step, Initial, events).emitted) == SelectedIds(events)
    ensures Count(Run(Step, Initial, events).emitted, Dispatch(LoadingEvent)) == CountWhere(events, StartsLoading)
  {
    RunPublishesSelections(Initial, events);
    RunNotifications(Initial, events);
  }
}
