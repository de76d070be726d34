# Digital twin front end: step control, state view, chart keys, initialization and session store

A Dafny model of the logic inside the browser front end of a "digital twin"
simulation service. The front end lets a user pick a model, initialize a
simulation session, step it forward with a control input, look at the
current state and chart its history. The model covers the parts of the React
components that decide something:

- `values.dfy` (module `Values`): the JSON-like values the service returns,
  the state snapshot (`map<string, Value>`), and what a failed call throws
  (an `Error` object with its message, or another value with its `String`
  form and its truthiness).
- `simulation_controls.dfy` (module `StepControls`): the per-model control
  bounds with their fallback, the clamp applied on a model change, the
  step/time extractor (a loop over the alias list), and the step operation:
  up to three `stepSimulation` calls with exponential backoff. The outcomes
  of the calls are an input (`attempts`), and the waits come back as a list
  of delays in milliseconds.
- `state_display.dfy` (module `StateView`): `isFlatObject`, the
  state/error/loading cells of the state panel, how a fetch and a change of
  session update them, and the table-or-raw-JSON choice.
- `simulation_chart.dfy` (module `Chart`): which keys of the first history
  record become plotted lines, which key is the x axis, and the line colours.
- `simulation_initializer.dfy` (module `Init`): how the init parameters are
  chosen from the structured initial value or the JSON text, the two
  validation errors, and what success and failure write into the form and
  into the shared session store.
- `session_context.dfy` (module `Session`): the session provider's two cells
  (selected model, session id), the local storage they are mirrored to, and
  rehydration on page load.

Components whose fields change are classes (`SimulationControls`,
`StateDisplay`, `SimulationInitializer`, `SessionProvider`, `LocalStorage`),
and each React event handler or effect is one sequential method. Remote calls
are represented by their outcomes: `Attempt` for a step call, `Fetch` for
`getState`, `InitOutcome` for `initSimulation`. `JSON.parse` is a function
parameter that returns `None` when parsing throws.

Four behaviours of the code are worth knowing because they are easy to get wrong:

- When a snapshot holds several aliases for the step or the time, every
  numeric alias overwrites the previous one, so the last one in the alias
  order wins: `step_count` over `step`, and `simulation_time` over `t` over
  `time` (`StepControls.LaterAliasWins`).
- A wait follows every failed step call, the third one included, so three
  failures give the delays `[200, 400, 800]` (`StepControls.AlwaysFailing`).
- An empty model name is never written to storage (`Session.PersistModel`).
- The chart adds no index field. Its comment at
  src/components/SimulationChart.tsx:22 says the default `'step'` key is
  added "in the container", which is not part of this model. The chart only
  uses `'step'` as the x-axis key when the first record has no time-like key
  (`Chart.TimeKeySpec`).

## Model

| member | source | states |
|---|---|---|
| `Values.Message` | src/components/SimulationControls.tsx:72 | the text shown for a thrown value: the message of an `Error`, else its `String` form |
| `Values.Truthy` | src/components/SimulationControls.tsx:71 | a thrown `Error` object is always truthy; any other thrown value carries its own truthiness |
| `StepControls.ConfigFor` | src/components/SimulationControls.tsx:10-22 | `water_tank` gives min 0, max 100, step 1, default 0, unit L/s. `room_temperature` gives -10, 40, 0.1, default 0, unit °C. Any other, empty or null model gives -100, 100, 1, default 0, no unit |
| `StepControls.ConfigWellFormed` | src/components/SimulationControls.tsx:10-23 | every entry, the fallback included, has min <= default <= max and a positive step, so the initial control value lies in range |
| `StepControls.Clamp` | src/components/SimulationControls.tsx:25-27 | the result lies in [min, max] when that range is non-empty. A value already inside is kept. A value above max becomes max, and one below min becomes min |
| `StepControls.ClampIdempotent` | src/components/SimulationControls.tsx:25-27 | clamping an already clamped value changes nothing, so re-running the effect is harmless |
| `StepControls.SimulationControls.constructor` | src/components/SimulationControls.tsx:16-27 | the control starts at the model's default; loading is false; error, step count and time are null |
| `StepControls.SimulationControls.SetControlValue` | src/components/SimulationControls.tsx:113 | the slider or number box sets the value as typed, with no bounds check |
| `StepControls.SimulationControls.SelectModel` | src/components/SimulationControls.tsx:22-27 | the clamp effect runs only when the model changes. Re-selecting the same model leaves the control value as it is, even out of range. After a change the value is `min(max, max(min, v))` for the new model: it lies inside the new bounds and is unchanged if it was already inside |
| `StepControls.LastNumericIsLast` | src/components/SimulationControls.tsx:34-39 | the extractor's result for a category is absent exactly when no alias of that category holds a number. Otherwise it is the number of the last such alias, and no later alias of the category holds a number |
| `StepControls.LaterAliasWins` | src/components/SimulationControls.tsx:31-39 | over the fixed alias order, `step_count` overrides `step`, and `simulation_time` overrides `t`, which overrides `time`. A missing or non-numeric alias never sets a field |
| `StepControls.ExtractStepAndTime` | src/components/SimulationControls.tsx:29-41 | a null snapshot gives both fields absent. Otherwise step is `step_count`'s number if it has one, else `step`'s, else absent; time is resolved the same way. Only the snapshot is read |
| `StepControls.Backoff` | src/components/SimulationControls.tsx:66 | the wait after the k-th failure is 200 * 2^(k-1) ms, at least 200 |
| `StepControls.BackoffDoubles` | src/components/SimulationControls.tsx:63-67 | the first wait is 200 ms and each next wait doubles the previous one |
| `StepControls.SimulationControls.Step` | src/components/SimulationControls.tsx:43-77 | between 1 and 3 calls, each sending the session id and the current control value. The run stops at the first success. Each failure is followed by a wait of 200 * 2^(k-1) ms, the third failure included. After three failures the error is the last error's message, set only when that error is truthy, and step, time and refresh count are untouched. On success the error stays cleared and `onRefresh` runs once. Step and time come from `getState` when it succeeds, and are unchanged when it fails. Loading ends false |
| `StepControls.SimulationControls.Retry` | src/components/SimulationControls.tsx:132-144 | offered only when the error is non-empty. It starts a whole new run from the first attempt, with the first wait back at 200 ms |
| `StepControls.FailFailSucceed` | test/simulationControls.test.tsx:187-208 | fail, fail, success makes exactly 3 calls, waits 200 then 400 ms, shows no error and refreshes once |
| `StepControls.AlwaysFailing` | test/simulationControls.test.tsx:210-222 | three failures make 3 calls, wait 200, 400 and 800 ms, and show the last message together with the Retry button |
| `StepControls.StepSendsControlValue` | test/simulationControls.test.tsx:103-118 | with the control set to 25 and a first call that succeeds, exactly one call is made and it carries the session id and 25 |
| `StateView.IsFlatObject` | src/components/StateDisplay.tsx:87-94 | an object is flat when it has at least one key and every value is null, a string, a number or a boolean |
| `StateView.EmptyIsNotFlat` | src/components/StateDisplay.tsx:87-89 | the empty object is not flat |
| `StateView.NestedValueIsNotFlat` | src/components/StateDisplay.tsx:90-93 | a single array or object value makes an object not flat |
| `StateView.FlatUpdate` | src/components/StateDisplay.tsx:90-93 | setting one field of a flat object keeps it flat exactly when the new value is null, a string, a number or a boolean |
| `StateView.StateDisplay.constructor` | src/components/StateDisplay.tsx:8-36 | on mount, a present session fetches the state, and an absent or empty one leaves state and error null. Loading is false afterwards |
| `StateView.StateDisplay.FetchState` | src/components/StateDisplay.tsx:13-27 | with a null or empty session id nothing changes. On success the state is the response's state or null, and the error is cleared. On failure the error is the message and the state null. Loading is false after either |
| `StateView.StateDisplay.SessionEffect` | src/components/StateDisplay.tsx:29-36 | without a session, state and error are reset to null; with one, the cells end as a fetch leaves them |
| `StateView.StateDisplay.ChangeSession` | src/components/StateDisplay.tsx:29-36 | the effect runs only when the id changes. A change to null or empty clears state and error, and a change to a present id fetches |
| `StateView.StateDisplay.View` | src/components/StateDisplay.tsx:38-83 | no session shows the notice. The error line shows only a non-empty error. The table is chosen iff there is no such error and the state is a flat object, and raw JSON iff the state is any other object. The empty notice shows iff there is no error, no state and no loading |
| `Chart.IsTimeLike` | src/components/SimulationChart.tsx:13-14 | a key is time-like when its lower-case form is one of `time`, `t`, `step`, `step_count`, `simulation_time` |
| `Chart.DropTimeLike` | src/components/SimulationChart.tsx:14 | the keys left after removing the time-like ones (its properties are the three lemmas below) |
| `Chart.FindTimeLike` | src/components/SimulationChart.tsx:20-21 | the first time-like key, if any (see `Chart.FindTimeLikeFirst`) |
| `Chart.Lines` | src/components/SimulationChart.tsx:13-14 | the plotted lines of a data set (see `Chart.LinesSpec`) |
| `Chart.TimeKey` | src/components/SimulationChart.tsx:20-22 | the x-axis key of a data set (see `Chart.TimeKeySpec`) |
| `Chart.DropTimeLikeMembers` | src/components/SimulationChart.tsx:13-14 | a key survives the filter iff it is in the list and its lower-case form is not one of `time`, `t`, `step`, `step_count`, `simulation_time` |
| `Chart.DropTimeLikeInOrder` | src/components/SimulationChart.tsx:14 | the filter keeps the surviving keys in their original order |
| `Chart.DropTimeLikeDistinct` | src/components/SimulationChart.tsx:14 | distinct keys give distinct lines |
| `Chart.FindTimeLikeFirst` | src/components/SimulationChart.tsx:20-21 | the search returns the first time-like key, and nothing iff there is none |
| `Chart.LinesSpec` | src/components/SimulationChart.tsx:13-14 | the lines are exactly the non-time-like keys of the first record, in their order and without repeats. Empty data gives no lines |
| `Chart.TimeKeySpec` | src/components/SimulationChart.tsx:20-22 | the x-axis key is the first time-like key of the first record, and `'step'` when there is none or the data is empty |
| `Chart.TimeKeyNotPlotted` | src/components/SimulationChart.tsx:13-22 | the x-axis key is time-like (the `'step'` default too), so it is never one of the lines |
| `Chart.FirstRecordDecides` | src/components/SimulationChart.tsx:14-20 | two data sets whose first records have the same keys get the same lines and x-axis key, whatever follows |
| `Chart.GetColor` | src/components/SimulationChart.tsx:44-47 | the colour is always one of the five palette entries |
| `Chart.GetColorPeriodic` | src/components/SimulationChart.tsx:44-47 | colours repeat with period 5 and index 0 is `#8884d8` |
| `Chart.Series` | src/components/SimulationChart.tsx:35-37 | one series per plotted line, each stroked in a palette colour |
| `Chart.SeriesSpec` | src/components/SimulationChart.tsx:13-37 | every series plots a non-time-like key of the first record and never the x-axis key. Distinct record keys give distinct React keys. The colours start at `#8884d8` and repeat every five series |
| `Chart.TimeValueChart` | test/simulationChart.test.tsx:76-89 | records `{time, value}` give the x-axis key `time` and the single line `value`, drawn in `#8884d8` |
| `Init.IsBlank` | src/components/SimulationInitializer.tsx:27 | text is blank when every character is one `String.prototype.trim` removes, so the empty text is blank |
| `Init.ResolveParams` | src/components/SimulationInitializer.tsx:23-40 | a structured value gives `{initial: v}`. Failing that, blank or whitespace-only text gives null params. Unparseable text gives `'Invalid JSON in parameters'`. A parsed non-object (null, scalar, array) gives `'Parameters must be a JSON object'`. A parsed object is passed through unchanged |
| `Init.ValidationErrors` | src/components/SimulationInitializer.tsx:27-39 | the form stops iff there is no structured value and the text is non-blank and not a JSON object; only the two messages can stop it |
| `Init.StructuredValueWins` | src/components/SimulationInitializer.tsx:24-26 | with a structured value present, the JSON text has no effect on the params |
| `Init.SimulationInitializer.constructor` | src/components/SimulationInitializer.tsx:10-16 | the form starts with empty parameter text, no structured initial value (the empty string in the code), loading false, and null error and local session id |
| `Init.SimulationInitializer.SessionLine` | src/components/SimulationInitializer.tsx:106-108 | the session line appears iff the local or the shared id is non-empty, and shows the local id in preference to the shared one |
| `Init.SimulationInitializer.HandleInit` | src/components/SimulationInitializer.tsx:19-55 | the error is cleared on entry. A validation failure sets its message and makes no call, and leaves loading and both session ids as they were. Otherwise exactly one init call is made with the model and the resolved params. On success the local and the shared id become the returned id and `onInit` receives it. A non-empty returned id is persisted over working storage and shown on the session line; an empty one removes the stored key and hides the line. On failure the error is the message and the ids are untouched. Loading ends false |
| `Init.InitWithInitialValue` | test/simulationInitializer.test.tsx:18-36 | initial value 10 for `water_tank` sends `{initial: 10}`. Answered with `session-123`, both ids become `session-123`, the session line shows it and a reload reads it back |
| `Session.LocalStorage.GetItem` | src/context/SessionContext.tsx:11-20 | a blocked storage throws; otherwise the stored value of the key, or null when the key is absent |
| `Session.LocalStorage.SetItem` | src/context/SessionContext.tsx:32-51 | a blocked storage throws and keeps its items; otherwise the key is set to the value and nothing else changes |
| `Session.LocalStorage.RemoveItem` | src/context/SessionContext.tsx:52 | a blocked storage throws and keeps its items; otherwise the key is removed and nothing else changes |
| `Session.RehydrateModel` | src/context/SessionContext.tsx:9-16 | the initial model is the stored `selectedModel`, or `water_tank` when the key is absent or storage throws |
| `Session.RehydrateSession` | src/context/SessionContext.tsx:18-24 | the initial session id is the stored `sessionId`, or null when it is absent or storage throws |
| `Session.PersistModel` | src/context/SessionContext.tsx:30-37 | a non-empty model is stored under `selectedModel`. An empty model or a throwing storage leaves the items as they were. No other key changes |
| `Session.PersistSession` | src/context/SessionContext.tsx:49-57 | a non-empty id is stored under `sessionId`, and a null or empty one removes the key. A throwing storage leaves the items as they were. No other key changes |
| `Session.PersistRoundTrip` | src/context/SessionContext.tsx:9-57 | persisting a non-empty model and a session id and then rehydrating gives back the model, and the id when it is non-empty (null otherwise), in either effect order |
| `Session.ClearedSessionReloadsNull` | src/context/SessionContext.tsx:49-57 | after a null session is persisted the key is absent, so a reload gives null and never the string `"null"` |
| `Session.EffectsAreIndependent` | src/context/SessionContext.tsx:30-57 | persisting the model never changes the stored session id, and persisting the session never changes the stored model |
| `Session.SessionProvider.constructor` | src/context/SessionContext.tsx:9-57 | on load both cells are rehydrated, then both effects run once. Afterwards the storage reloads as the cells |
| `Session.SessionProvider.PersistModelEffect` | src/context/SessionContext.tsx:30-37 | the model effect leaves the storage as `PersistModel` of the old storage; a throwing `setItem` is swallowed |
| `Session.SessionProvider.PersistSessionEffect` | src/context/SessionContext.tsx:49-57 | the session effect leaves the storage as `PersistSession` of the old storage; throws are swallowed |
| `Session.SessionProvider.SetSelectedModel` | src/context/SessionContext.tsx:30-47 | the model cell takes the new value even when storage throws. The session id is unchanged. The storage is updated only when the value changed, and stays in step with the cells |
| `Session.SessionProvider.SetSessionId` | src/context/SessionContext.tsx:49-57 | the id cell takes the new value even when storage throws. The model is unchanged. The storage is updated only when the value changed, and stays in step with the cells |
| `Session.Reload` | tests/e2e.spec.ts:3-24 | a reload over the same working storage gives back the same model when the model cell is non-empty, and the same session id, or null for an empty one |

## Left out

- The HTTP clients (`src/services/api.ts`, `src/services/api-client.ts`) are not part of this model. `stepSimulation`, `getState` and `initSimulation` appear only as their outcomes. How the clients build URLs and error messages is not modelled.
- Real time is not modelled. Each `setTimeout` wait becomes an entry in the returned list of delays.
- Asynchrony is not modelled: each handler runs as one sequential method. Concurrent runs, late responses after unmount or after a session change, and the disabled-while-loading buttons are not modelled. `loading` is true only inside a run, where the loop invariant of `Step` keeps it.
- `StepControls.SimulationControls.Step`: needs at least three scripted outcomes, because the remote call always has one. Only as many are read as calls are made.
- `StepControls.ConfigFor`: models that name a property inherited by every JavaScript object (`constructor`, `toString`) are looked up as real table entries in the code, with bounds `undefined`. The model treats them like any unknown model.
- Numbers are modelled as exact reals. IEEE doubles, `NaN` and infinities are not modelled, nor the `Number(...)` conversion of the inputs. A `NaN` counts as a number for the extractor in the code.
- `Chart.IsTimeLike`: lower-cases only A to Z. None of the five names contains a character that another Unicode character lower-cases to, except that the Kelvin sign becomes `k`, which also occurs in none of them.
- `JSON.parse`, `JSON.stringify`, `String(v)` of a thrown value, `console.log`, the JSX/CSS output and the Recharts library are left out. Parsing is a parameter, and the `String` form of a thrown value is part of the `Thrown` value.
- The reset dialog only opens and closes; its confirm action is an unimplemented no-op in the code, so it is not modelled.
- `Session.SessionProvider`: a storage either works or throws on every access (`blocked`). A storage whose reads work while its writes throw, such as one over its quota, is not modelled.
- `src/components/ModelSelector.tsx`, `src/components/SimulationChartContainer.tsx`, `src/App.tsx`, `src/context/useSessionHook.ts` and `src/context/types.ts` are not part of this model. The first-render flag effect in the session provider does nothing observable and is not modelled. `Session.Reload` models only the storage round trip behind the end-to-end test's "Active session" check (tests/e2e.spec.ts:22-23). The component that renders that line is not part of this model.
- `StepControls.SimulationControls.Step`: `onRefresh` is assumed not to throw. In the code a throw from it, inside the same `try` as the step call, counts as a failed attempt, so the run waits and calls `stepSimulation` again after a step that succeeded.
- `Init.SimulationInitializer.HandleInit`: `onInit` is assumed not to throw. In the code a throw from it sets the error to its message after both session ids were already written.
