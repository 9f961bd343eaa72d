# Hriday prediction page: field registry, form state and request lifecycle

This project models the logic of the single-page client of the Hriday
cardiovascular-risk predictor (`frontend/src/App.jsx`). It covers four parts.

- The field registry is the constant table of eleven form fields (`Registry.Inputs`, one named constant per entry). Number fields carry a range and a default. Select fields carry coded options and a default. The range is never enforced: the number inputs have no `min` or `max` attribute.
- The form state is a map from field name to value. It is seeded from the registry defaults by a `reduce`, and `handleChange` overwrites one key with the raw text of the input.
- The request lifecycle is driven by `loading` and `result`. `handleSubmit` posts the form. A response body that parses becomes the result once a 1500 ms timer has run. A rejected `fetch` or a body that is not JSON ends loading with an alert. "Check Another Patient" drops the result.
- The result panel shows an elevated or a low severity tier, chosen by `result.prediction === 1`.

The modules are as follows.

- `Json` holds parsed JSON values, JavaScript truthiness and member access.
- `Registry` holds the field table and its well-formedness lemmas. It also says which texts each control can report as `e.target.value` (`Registry.Deliverable`). A select reports the decimal text of one of its options' values. A number input reports a valid floating-point number in the sense of HTML, or "" for anything else.
- `Form` holds the form map, the `reduce` that seeds it, `handleChange` as a function, and the request body.
- `Presenter` holds the tier.
- `Lifecycle` is the page as a pure state machine over abstract events: `Change`, `Submit`, `ResponseParsedThenTimerFired(data)`, `TransportOrParseFailed` and `CheckAnother`. It also holds the invariant of every reachable state.
- `Component` holds the `App` class. Its fields are `formData`, `result` and `loading`, plus a ghost record of the outstanding request bodies. Each handler is a method proved to perform exactly the `Lifecycle.Step` of its event and to keep the invariant.

The network, the JSON parser and the timer are not executed. Their outcomes arrive as events. The `alert` and the POST request are returned as `Output` values.

Three points follow the code.

- The view tests `!result`, which is truthiness, not `result == null`. So `result` is modelled as a full JSON value. A reply body that parses to `null`, `0`, `false` or `""` ends loading but leaves the form shown (`Lifecycle.ResponseEndsLoading`).
- `fetch` does not reject on an HTTP error status. The prediction route answers a failure with a JSON error body and status 400 or 500 (`backend/api.py:31`, `backend/api.py:65`). That body becomes the result, and its tier is low (`Lifecycle.ErrorReplyShownAsLowRisk`).
- Inputs stay editable while a request is outstanding. Such edits change the form but not the body already sent (`Lifecycle.EditsLeaveRequestAlone`).

Five further facts about the code shape the model.

- `handleChange` has no unknown-field error. An unregistered name would simply be added as a key (`Form.Changed`). Only registry names reach it, because every input is named after a registry entry.
- No bounds check is made on edits. A number input reports any valid number, so an age of 500 is stored as typed (`Lifecycle.EditsAreUnchecked`). Only a select is limited, and only by its own options (`Lifecycle.OptionsBoundSelects`).
- The timer starts only after the body has parsed. The result appears 1500 ms after the response, not 1500 ms after the request.
- There is no failed state. A failure alerts and returns straight to idle, with the form unchanged.
- A reply with an HTTP error status is not a transport error (see above).

## Model

| member | source | states |
|---|---|---|
| `Registry.InputsOrder` | frontend/src/App.jsx:13-25 | the registry's names are exactly age, gender, height, weight, ap_hi, ap_lo, cholesterol, gluc, smoke, alco and active, in this order |
| `Registry.InputsNamesDistinct` | frontend/src/App.jsx:13-25 | the registry has 11 entries and no two share a name |
| `Registry.InputsDefaultsInDomain` | frontend/src/App.jsx:13-25 | each number field has min ≤ def ≤ max; each select field has non-empty options with distinct values, and its def is one of them |
| `Registry.InputsWellFormed` | frontend/src/App.jsx:13-25 | the whole table is well formed: distinct names and every default in its domain |
| `Form.Defaults` | frontend/src/App.jsx:28 | the left-to-right `reduce` yields exactly the table's names as keys; each name maps to the default of the last entry that carries it |
| `Form.InitialForm` | frontend/src/App.jsx:28 | the initial form maps every registry name to that field's default and has no other key |
| `Form.Changed` | frontend/src/App.jsx:38 | `handleChange` gives the named key the raw text and leaves every other key unchanged; the key set gains the name, so it grows only for an unregistered name |
| `Form.ChangeIdempotent` | frontend/src/App.jsx:38 | the same change applied twice gives the same form as once |
| `Form.ChangeKeepsKeys` | frontend/src/App.jsx:38 | a change to a registry name keeps the key set equal to the registry's names |
| `Form.ChangeIsUnchecked` | frontend/src/App.jsx:38 | the handler stores whatever `e.target.value` is, as text: an age of "500", an emptied height "" and a weight "1e3" are stored as given |
| `Form.RequestBody` | frontend/src/App.jsx:48 | the body is a JSON object with exactly the form's keys, numbers sent as numbers and edited values as strings |
| `Form.BodyRoundTrip` | frontend/src/App.jsx:48 | reading the body back gives the form unchanged, so the form is sent verbatim |
| `Presenter.SeverityTier` | frontend/src/App.jsx:240-245 | the tier is elevated iff the payload is an object whose `prediction` member is the number 1; every other payload is low |
| `Presenter.TierOfSuccessReply` | frontend/src/App.jsx:240-245 | a success reply is shown elevated iff its prediction is 1, whatever its probability |
| `Presenter.TierOfErrorReply` | frontend/src/App.jsx:240-245 | an error reply, which has no prediction member, is shown as low risk |
| `Registry.NumberTexts` | frontend/src/App.jsx:218-224 | a number input can report "45", an out-of-range age "500", an emptied height "" and a weight "1e3" |
| `Registry.GenderCodes` | frontend/src/App.jsx:209-216 | the gender select cannot report "7", since no option has that value |
| `Lifecycle.Enabled` | frontend/src/App.jsx:200-231 | a change delivered by the page names a registry field; a submit delivered by the page finds it idle |
| `Lifecycle.Step` | frontend/src/App.jsx:38-56 | only a submit posts a request and only a failure alerts; only a change touches the form; a submit appends the current form's body to the requests in flight, a continuation retires the oldest, and a change or "Check Another" keeps `loading` and the requests in flight |
| `Lifecycle.Deliver` | frontend/src/App.jsx:200-231 | delivering any event keeps the invariant; an event the page cannot deliver leaves the state unchanged and produces nothing |
| `Lifecycle.InitialInv` | frontend/src/App.jsx:28-30 | the initial state satisfies the invariant and is idle |
| `Lifecycle.StepPreservesInv` | frontend/src/App.jsx:38-56 | every handler, fired when the page can deliver its event, keeps the invariant: the registry's keys, no result while loading, and exactly one request outstanding while loading and none otherwise |
| `Lifecycle.RunPreservesInv` | frontend/src/App.jsx:38-56 | any sequence of events keeps the invariant |
| `Lifecycle.ReachableStatesAreSafe` | frontend/src/App.jsx:200-231 | in every state reachable from the initial one, a result is never held while loading and at most one request is outstanding |
| `Lifecycle.SubmitOnlyWhenIdle` | frontend/src/App.jsx:200-231 | the submit event can be delivered iff the page is idle: the form is rendered and the button is not disabled |
| `Lifecycle.SubmitFromIdle` | frontend/src/App.jsx:40-49 | submitting from idle sets loading, clears the result, leaves the form alone, posts the current form to the prediction URL, and makes that body the one request in flight |
| `Lifecycle.EditsLeaveRequestAlone` | frontend/src/App.jsx:45-49 | any run of change events leaves the in-flight bodies, `loading` and `result` as they were |
| `Lifecycle.EditWhileLoading` | frontend/src/App.jsx:200-224 | while loading, the form's inputs still deliver changes: any text a registry field's control reports is held, and the in-flight body is untouched |
| `Lifecycle.ChangeDelivered` | frontend/src/App.jsx:38 | a change a registry field's control reports, while the form is shown, updates that field alone and nothing else in the state |
| `Lifecycle.EditsAreUnchecked` | frontend/src/App.jsx:218-224 | from the initial page, an age of "500", an emptied height and a weight "1e3" reach the form as typed; every other key keeps its default |
| `Lifecycle.OptionsBoundSelects` | frontend/src/App.jsx:209-216 | a gender of "7" is not an event the page can deliver, and delivering it leaves the page unchanged |
| `Lifecycle.ResponseEndsLoading` | frontend/src/App.jsx:50-51 | once the body has parsed and the timer has run, the result becomes the body and loading ends in the same step; the form is unchanged, nothing remains in flight, and the page shows the result iff the body is truthy |
| `Lifecycle.FailureReturnsToIdle` | frontend/src/App.jsx:52-55 | a rejected fetch or unparsable body ends loading and raises the connection alert; the result stays null and the form is unchanged, so the page is idle |
| `Lifecycle.CheckAnotherReturnsToIdle` | frontend/src/App.jsx:251 | "Check Another" sets the result to null and leaves the form and `loading` unchanged, returning to idle |
| `Lifecycle.ErrorReplyShownAsLowRisk` | frontend/src/App.jsx:45-51 | the route's JSON error body, parsed like any reply, is shown as a result in the low tier |
| `Lifecycle.SubmitThenLowRiskReply` | frontend/src/App.jsx:40-56 | submitting the defaults and receiving a class-0 reply shows the low tier, with the form at its defaults |
| `Lifecycle.SubmitThenFailure` | frontend/src/App.jsx:40-56 | a connection failure after submitting the defaults leaves the page idle, with the same form, and able to submit again |
| `Component.App.constructor` | frontend/src/App.jsx:28-30 | the component starts with the default form, a null result, loading off and nothing in flight |
| `Component.App.HandleChange` | frontend/src/App.jsx:38 | the field update in place equals the `Change` step; only `formData[name]` changes |
| `Component.App.HandleSubmit` | frontend/src/App.jsx:40-49 | the submit handler equals the `Submit` step: it sets loading, clears the result and returns the POST of the current form |
| `Component.App.OnResponseParsedThenTimerFired` | frontend/src/App.jsx:50-51 | the timer callback equals the response step: the result is the body, loading is off, and the form is unchanged |
| `Component.App.OnTransportOrParseFailed` | frontend/src/App.jsx:52-55 | the catch branch equals the failure step: loading is off, the result stays null, the form is unchanged, and the connection alert is returned |
| `Component.App.CheckAnotherPatient` | frontend/src/App.jsx:251 | the button handler equals the `CheckAnother` step: only the result changes, to null |
| `Component.App.Phase` | frontend/src/App.jsx:200-236 | the rendered view is "submitting" iff loading, and the result panel iff the result is truthy |
| `Component.OneCycle` | frontend/src/App.jsx:40-56 | a full cycle of submit, edit while loading, reply, check another: the request sent is the default form, the edit does not reach it, and the page ends idle holding the edit |

## Left out

- Rendering, styling, icons, the entry animations, the navbar and the scroll-to-form helper are presentation.
- The scroll progress bar and the rotation are framer-motion library calls over floating-point scroll fractions.
- The percentage label `Math.round(result.probability * 100)` is IEEE-double arithmetic. JSON numbers are modelled as mathematical reals, and the label is not computed.
- The real `fetch`, the JSON parser, the 1500 ms `setTimeout` and `alert` are I/O and timers. They appear only as events and outputs, so the timing of the reveal (1500 ms after the response) is not modelled.
- The key order of `JSON.stringify` is not modelled, because the form is a map.
- React's batching of state updates, stale closures and async interleaving are concurrency.
- `Lifecycle.Enabled`: a number input may report any valid floating-point number or "". Which of these a given browser reports while a number is half typed is not modelled.
- `Lifecycle.Step`: when two requests are outstanding, which continuation runs first is fixed to the oldest. This never matters, because at most one request is ever outstanding (`Lifecycle.ReachableStatesAreSafe`).
- `backend/api.py` is a Flask route with pickle loading, numpy normalisation, a floating-point `prob >= 0.5` threshold and a model class that is not part of this model. Only the shapes of its success and error replies are used (`Presenter.SuccessReply`, `Presenter.ErrorReply`).
