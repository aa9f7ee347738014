# Boat catalog components — a Dafny model

This project models the three Lightning web components of a boat-rental
catalog: the reviews panel of a boat (`boatReviews`), the search results
table (`boatSearchResults`) and the "boats near me" map (`boatsNearMe`).

Each component becomes an immutable `State` record, an `Event` datatype for
what the platform delivers to it, an `Effect` datatype for what it hands to
the platform, and pure transition functions returning
`Transition(state', emitted)`. `Platform.Run` folds a trace of events
through a component's `Step`.

- Inputs: host property sets and method calls, remote-call completions,
  wire deliveries and the browser's position callback.
- Outputs: remote calls, custom events, toasts, message-channel publishes
  and location requests.
- JavaScript truthiness is modelled explicitly (`Platform.Truthy`). Fields
  holding an id the host supplies are `JsValue`s; other fields that start out
  `undefined` are `Maybe`s, except the map's `isRendered`, whose truthiness
  alone is read and which is a `bool` starting `false`.

Files:

- `platform.dfy`: JavaScript values and truthiness, `Maybe`, toasts, `Transition`, `Run`, `Count`.
- `boat_reviews.dfy`: the reviews panel and its loading/success/failure machine.
- `boats_near_me.dfy`: the one-shot location request and the boat-to-marker mapping.
- `boat_search_results.dfy`: loading notifications, selection publishing and inline save.

The results table's save never reaches its own rejection branch. That branch
(the `.catch` of `handleSave`) raises an 'Error' toast with the failure's
message. But the callback that maps record inputs to update calls has a
block body and returns nothing, so `Promise.all` receives only `undefined`s
and always resolves. The model follows the code: `BoatSearchResults.HandleSave`
always takes the success path. `BoatSearchResults.IntendedHandleSave` is the
save with the update outcomes awaited, so that a failure takes the rejection
branch. `HandleSaveIgnoresFailures` proves the two agree exactly when every
update succeeds.

## Model

| member | source | states |
|---|---|---|
| BoatReviews.GetReviews | force-app/main/default/lwc/boatReviews/boatReviews.js:49-54 | a falsy boat id leaves the state as it was and issues nothing; a truthy one sets the loading flag and issues exactly one reviews query for that id, and no other field changes |
| BoatReviews.SetRecordId | force-app/main/default/lwc/boatReviews/boatReviews.js:17-28 | the getter then returns the value just set, and the setter always loads again, with no comparison against the old value |
| BoatReviews.Refresh | force-app/main/default/lwc/boatReviews/boatReviews.js:41-43 | a refresh has exactly the effect of starting a load directly |
| BoatReviews.OnReviewsResolved | force-app/main/default/lwc/boatReviews/boatReviews.js:55-59 | success stores the result, clears the error and ends loading, keeping the boat id and emitting nothing |
| BoatReviews.OnReviewsRejected | force-app/main/default/lwc/boatReviews/boatReviews.js:60-64 | failure drops the reviews, stores the error and ends loading |
| BoatReviews.ReviewsFollowLastCompletion | force-app/main/default/lwc/boatReviews/boatReviews.js:49-64 | over any trace, the reviews and error held are those of the last completion (a success's result with no error, or no reviews with the failure's error), and unchanged when nothing completed |
| BoatReviews.ReviewsToShowFollowsLastCompletion | force-app/main/default/lwc/boatReviews/boatReviews.js:31-37 | over any trace, there are reviews to show exactly when the last completion is a success with a non-empty result; with no completion, exactly when there were before |
| BoatReviews.FromInitialNeverStale | force-app/main/default/lwc/boatReviews/boatReviews.js:7-14 | from the all-undefined start, no trace ever holds reviews and an error together, and no reviews show before some completion |
| BoatReviews.ReviewsToShowDependsOnlyOnData | force-app/main/default/lwc/boatReviews/boatReviews.js:31-37 | two states holding the same reviews agree on whether there are reviews to show |
| BoatReviews.ReviewsToShowAfterCompletion | force-app/main/default/lwc/boatReviews/boatReviews.js:31-64 | after a success, reviews show exactly when the result is non-empty; after a failure they never show |
| BoatReviews.SetRecordIdNoShortCircuit | force-app/main/default/lwc/boatReviews/boatReviews.js:21-28 | setting the same truthy id a second time issues the query again |
| BoatReviews.StepKeepsNoStaleData | force-app/main/default/lwc/boatReviews/boatReviews.js:55-64 | no single input leaves reviews and an error defined together |
| BoatReviews.RunKeepsNoStaleData | force-app/main/default/lwc/boatReviews/boatReviews.js:55-64 | over any trace of sets, refreshes and completions in any order, reviews and an error are never held together |
| BoatReviews.RunFetchesOnlyTruthyIds | force-app/main/default/lwc/boatReviews/boatReviews.js:49-54 | over any trace, every reviews query issued names a truthy boat id |
| BoatReviews.LastCompletionWins | force-app/main/default/lwc/boatReviews/boatReviews.js:55-59 | whatever came before, a final success decides the reviews, with no error and loading ended |
| BoatReviews.ScenarioB001 | force-app/main/default/lwc/boatReviews/boatReviews.js:21-59 | example: setting id "B001" issues one query for it; a one-review result then shows reviews with no error |
| BoatsNearMe.RenderedCallback | force-app/main/default/lwc/boatsNearMe/boatsNearMe.js:44-49 | the first render requests the location once and marks the map rendered; later renders change nothing and request nothing |
| BoatsNearMe.OnPosition | force-app/main/default/lwc/boatsNearMe/boatsNearMe.js:53-57 | the position callback stores the delivered latitude and longitude and leaves every other field as it was |
| BoatsNearMe.RowMarkers | force-app/main/default/lwc/boatsNearMe/boatsNearMe.js:64-72 | one marker per row, in order, titled with the row's name, located at the row's geolocation, without an icon |
| BoatsNearMe.CreateMapMarkers | force-app/main/default/lwc/boatsNearMe/boatsNearMe.js:61-82 | n rows give n+1 markers: first 'You are here!' at the current coordinates with icon 'standard:user', then row i as marker i+1; loading ends and nothing else changes |
| BoatsNearMe.WiredBoatsJson | force-app/main/default/lwc/boatsNearMe/boatsNearMe.js:27-40 | data wins and builds the markers; an error alone keeps the markers, ends loading and raises exactly one 'Error loading Boats Near Me' toast with the error's message; neither changes and emits nothing |
| BoatsNearMe.RowMarkersRoundTrip | force-app/main/default/lwc/boatsNearMe/boatsNearMe.js:64-72 | the boat markers give back exactly the rows they were made from |
| BoatsNearMe.CreateMapMarkersRoundTrip | force-app/main/default/lwc/boatsNearMe/boatsNearMe.js:64-80 | behind the user's marker, the created markers determine the delivered rows in order |
| BoatsNearMe.StepRequestsLocation | force-app/main/default/lwc/boatsNearMe/boatsNearMe.js:44-49 | a single input requests the location exactly when it is a render of a map not rendered before |
| BoatsNearMe.RunRequestsLocationOnce | force-app/main/default/lwc/boatsNearMe/boatsNearMe.js:44-49 | over any trace, the location is requested at most once: exactly when the map was not yet rendered and some render occurs |
| BoatsNearMe.RunKeepsYouAreHereFirst | force-app/main/default/lwc/boatsNearMe/boatsNearMe.js:73-80 | over any trace, whenever there are markers the first one is the user's: titled 'You are here!' with the 'standard:user' icon, which no boat marker carries |
| BoatsNearMe.FromInitial | force-app/main/default/lwc/boatsNearMe/boatsNearMe.js:12-21 | from the map's start state, the location is requested exactly once if the trace renders and never otherwise, and the user's marker leads whenever there are markers |
| BoatsNearMe.ErrorAfterDataKeepsMarkers | force-app/main/default/lwc/boatsNearMe/boatsNearMe.js:30-39 | an error delivered after markers were built keeps those markers, ends loading and toasts exactly once |
| BoatSearchResults.NotifyLoading | force-app/main/default/lwc/boatSearchResults/boatSearchResults.js:108-116 | exactly one custom event: 'loading' if and only if the flag is true, 'doneloading' if and only if it is false |
| BoatSearchResults.WiredBoats | force-app/main/default/lwc/boatSearchResults/boatSearchResults.js:32-38 | every delivery is remembered; a truthy one is stored as the boats with exactly one 'doneloading'; a falsy one emits nothing; no other field changes |
| BoatSearchResults.SearchBoats | force-app/main/default/lwc/boatSearchResults/boatSearchResults.js:43-46 | the boat type becomes the argument, exactly one 'loading' is emitted, and no other field changes |
| BoatSearchResults.Refresh | force-app/main/default/lwc/boatSearchResults/boatSearchResults.js:51-53 | a refresh emits 'loading' and then a refresh of the cached boats, changing no field |
| BoatSearchResults.OnRefreshSettled | force-app/main/default/lwc/boatSearchResults/boatSearchResults.js:53-55 | the refresh settling emits exactly one 'doneloading', whether it resolved or rejected |
| BoatSearchResults.RefreshNotifiesBothEnds | force-app/main/default/lwc/boatSearchResults/boatSearchResults.js:51-57 | a refresh followed by its settling, either way, emits one 'loading' and one 'doneloading', in that order |
| BoatSearchResults.SendMessageService | force-app/main/default/lwc/boatSearchResults/boatSearchResults.js:66-69 | exactly one message on the boat message channel, whose recordId is the given id |
| BoatSearchResults.UpdateSelectedTile | force-app/main/default/lwc/boatSearchResults/boatSearchResults.js:60-63 | the selected boat becomes the event's id, which is published in exactly one message; no other field changes |
| BoatSearchResults.StepPublishes | force-app/main/default/lwc/boatSearchResults/boatSearchResults.js:60-69 | one input publishes exactly its own id when it is a tile selection and nothing otherwise, and only a selection changes the selected boat |
| BoatSearchResults.RunPublishesSelections | force-app/main/default/lwc/boatSearchResults/boatSearchResults.js:60-69 | over any trace, the published ids are exactly the selected ids, one per selection in order, and the selected boat is the last one selected (or unchanged when none was) |
| BoatSearchResults.FromInitial | force-app/main/default/lwc/boatSearchResults/boatSearchResults.js:20-25 | from the table's start state, no boat is selected until a tile is, publishes follow the selections, and one 'loading' is emitted per search, refresh and save |
| BoatSearchResults.RecordInputs | force-app/main/default/lwc/boatSearchResults/boatSearchResults.js:75-78 | one record input per draft, in order, whose fields are a copy of that draft |
| BoatSearchResults.RecordInputsRoundTrip | force-app/main/default/lwc/boatSearchResults/boatSearchResults.js:75-78 | the drafts can be read back from the record inputs |
| BoatSearchResults.UpdateCalls | force-app/main/default/lwc/boatSearchResults/boatSearchResults.js:79-83 | one update call per record input, in order |
| BoatSearchResults.HandleSave | force-app/main/default/lwc/boatSearchResults/boatSearchResults.js:74-95 | the update calls in draft order, then one 'Success'/'Ship it!'/'success' toast, then the refresh's 'loading'; the drafts become empty and nothing else changes |
| BoatSearchResults.IntendedHandleSave | force-app/main/default/lwc/boatSearchResults/boatSearchResults.js:84-104 | the save with outcomes awaited: when an update fails, the rejection branch runs, so the update calls are followed by a single 'Error' toast carrying the first failure's message, no field changes and no refresh starts |
| BoatSearchResults.HandleSaveIgnoresFailures | force-app/main/default/lwc/boatSearchResults/boatSearchResults.js:79-95 | the save as written equals the save with outcomes awaited if and only if every update succeeds |
| BoatSearchResults.SaveWithFailingUpdate | force-app/main/default/lwc/boatSearchResults/boatSearchResults.js:79-95 | given a failing update, the save as written still clears the drafts and starts a refresh, which the save with outcomes awaited would not |
| BoatSearchResults.SaveNotifies | force-app/main/default/lwc/boatSearchResults/boatSearchResults.js:84-95 | a save tells the parent 'loading' exactly once, through the refresh it starts, and never 'doneloading' |
| BoatSearchResults.StepNotifies | force-app/main/default/lwc/boatSearchResults/boatSearchResults.js:32-57 | one input emits one 'loading' exactly when it is a search, refresh or save, and one 'doneloading' exactly when it is a truthy delivery or a settled refresh |
| BoatSearchResults.RunNotifications | force-app/main/default/lwc/boatSearchResults/boatSearchResults.js:32-57 | over any trace, the parent receives one 'loading' per search, refresh and save, and one 'doneloading' per truthy wire delivery and settled refresh |

## Left out

- Remote calls (the reviews, boats and nearby-boats queries, record updates, the Apex refresh): only their issue (an effect) and their completion (an event) are modelled, not their semantics or caching.
- JSON parsing of the nearby-boats payload: the wire delivery carries the already-parsed rows; a payload that does not parse to an array is not modelled.
- Geolocation requests, toasts, custom-event dispatch and message-channel publish appear only as entries in the output log.
- Navigation (`navigateToRecord` of the reviews panel) is not modelled at all: it reads the clicked element's attribute and only calls the navigation service.
- Reactive wiring (`@wire` and its `$` parameters), the `setAttribute` call in the `recordId` setter, the message context, and the static datatable column configuration are not modelled; the map's `boatTypeId` only feeds the wire's parameters and is left out with it.
- Promise scheduling: every completion except the save's (next line) is one discrete event applied in the given order; completions are not matched to the calls that started them, so out-of-order arrival is covered by any trace but not tracked.
- BoatSearchResults.HandleSave: folds the continuation of `Promise.all(...).then` (the success toast, the cleared drafts and the refresh's 'loading') into the save step itself, because `Promise.all` over `undefined`s settles in the same microtask checkpoint, so no modelled input can come in between.
- Exceptions thrown by platform calls themselves (a failing `refreshApex` call inside the save's success path, a missing `error.body`) are not modelled.
- Coordinates are floating point: they are opaque values that are only copied. JavaScript numbers are integers here, so NaN is not a falsy value the model can produce.
- BoatSearchResults.IntendedHandleSave: takes the failure that comes first in draft order, whereas `Promise.all` rejects with the first failure to arrive in time, which the model does not track.
