# dash_google_picker, modelled in Dafny

`dash_google_picker` puts Google's browser file picker inside a Dash app. It
has one React component, `GooglePicker`, and two small Python helpers. The
component loads the Google API script and the Google Identity Services
script. On a change of `open`, once both scripts are ready, it requests an
OAuth access token; when the token arrives it drives `google.picker.PickerBuilder` and sends the user's selection to
the host through `setProps`. The helpers are `ViewGroup`, a list of views
shown under one tab, and `GoogleDocuments`, which turns the reported
selection into typed records.

This project models those three pieces as immutable data and pure functions,
and proves properties about them.

- `Base` (`base.dfy`): `Option` and `Result`.
- `Js` (`js.dfy`): JavaScript values, property access and truthiness.
- `Views` (`views.dfy`): `ViewGroup`, with its constructor, `add`, `remove`
  and `to_plotly_json`. The constructor guarantees that the first item is a
  view id. `add` keeps that guarantee. `remove` can break it.
- `Documents` (`documents.dfy`): the twelve-field `GoogleDocument` record
  and the `GoogleDocuments` mapping from a nullable list of dictionaries.
- `PickerTrace` (`picker_trace.dfy`): the calls the component makes on the
  external libraries, recorded as a trace. `Encode` gives the builder
  sequence that `showPicker` issues. `Decode` reads such a trace back, and
  two round-trip lemmas pin down the exact order of the calls.
- `Picker` (`picker.dfy`): the component as a state machine. A
  `Component` holds the props, the React state and the token client. A
  `Step` takes one event and returns the next component, the calls it made,
  and anything it threw. The events are: script loaded, picker module
  loaded, identity script loaded, both loads joined, a load failed, props
  changed, token response, and picker callback.
- `PickerRuns` (`picker_runs.dfy`): runs of events. It holds the invariant
  every reachable component keeps and a worked scenario. It also holds the
  deferred-open defect in two forms: as written, and as evidently intended
  (see Findings).

Modelling assumptions:

- `setState` is an immediate assignment. `showPicker` reads the token right
  after the callback stores it, so the source relies on the same thing.
- The Google globals are not interpreted:
  - `google.picker.Feature[name]` is recorded as `FeatureLookup(name)`.
  - `Response.ACTION`, `Response.DOCUMENTS` and `Action.PICKED` are a
    parameter, `PickerConstants`.
  - The token and picker libraries appear only as the calls the component
    makes and as the events they deliver.
- Events may arrive in any order. The invariant lemmas (`StepInv`,
  `RunInv`, `JoinNeverOpens`, `StepMonotone`, `NothingBeforeReady`) hold
  for every order; the scenario lemmas (`Scenario`, `DeferredOpenDropped`,
  `DeferredOpenHonoured`) each fix one order.

Behaviours of the code a reader may not expect; the model keeps each of
them:

- Views are passed to `addView` one by one, as given. They are not expanded
  into view objects, MIME filters or nested groups.
- A token error is rethrown from the token callback. It is neither caught
  nor logged.
- `documents` is emitted only when the action is PICKED and the documents
  value is truthy. An empty array counts as truthy.
- A change of `open` to false also requests a token.
- An open requested before both scripts are ready is dropped, not deferred.

## Model

| member | source | states |
|---|---|---|
| Views.New | dash_google_picker/Views.py:5-10 | fails with the root-item `ValueError` exactly when there are no arguments or the first is not a string; otherwise the group holds the arguments in order and the given label, and starts with a view id |
| Views.Add | dash_google_picker/Views.py:12-13 | the new item is appended last, every earlier item and the label are unchanged, and a group that started with a view id still does |
| Views.FirstIndex | dash_google_picker/Views.py:15-16 | finds the first position holding the item, with no earlier occurrence, and is absent exactly when the item is not in the list |
| Views.Remove | dash_google_picker/Views.py:15-16 | raises `ValueError` exactly when the item is absent; otherwise deletes only its first occurrence, keeps the order of the rest and the label, and removes exactly one copy from the multiset of items |
| Views.RemoveUndoesAdd | dash_google_picker/Views.py:12-16 | removing an item just added to a group that did not hold it gives the original group back |
| Views.RemoveKeepsRootOfOthers | dash_google_picker/Views.py:6-16 | removing any item other than the root view id keeps the same root, so the constructor's invariant still holds |
| Views.RemoveRootMayBreakInvariant | dash_google_picker/Views.py:6-16 | removing the root view id leaves the rest of the list, which starts with a view id exactly when the second item was one: `remove` can break what the constructor checks |
| Views.RemoveBreaksInvariantExample | dash_google_picker/Views.py:6-16 | a concrete group whose `remove` of its root leaves a group the constructor would refuse |
| Views.ToPlotlyJson | dash_google_picker/Views.py:18-19 | the JSON form has exactly the keys type, views and label, with type "ViewGroup" |
| Views.PlotlyJsonRoundTrip | dash_google_picker/Views.py:18-19 | the JSON form carries the views in order and the label unchanged: reading it back gives the group |
| Views.PlotlyJsonExact | dash_google_picker/Views.py:18-19 | any dictionary that reads back as a group is exactly that group's JSON form |
| Documents.ToDict | dash_google_picker/Documents.py:36-47 | a record's dictionary has exactly the twelve field names as keys, each mapped to that field's value |
| Documents.FromDict | dash_google_picker/Documents.py:36-47 | `GoogleDocument(**d)` succeeds exactly when the keys are the twelve field names, copies every value unchanged into its field, and otherwise reports the unexpected keys or, if none, the missing ones |
| Documents.DictRoundTrip | dash_google_picker/Documents.py:36-47 | building a record from a twelve-key dictionary and reading it back gives the dictionary |
| Documents.RecordRoundTrip | dash_google_picker/Documents.py:36-47 | reading a record into a dictionary and building it again gives the record |
| Documents.BuildAll | dash_google_picker/Documents.py:54 | succeeds exactly when every dictionary has the twelve keys, giving one record per dictionary in input order; otherwise fails with the error of the first bad dictionary, all earlier ones being good |
| Documents.GoogleDocuments | dash_google_picker/Documents.py:50-54 | `None` gives the empty list; a list gives records of the same length whose i-th record holds the i-th dictionary's values, exactly when every dictionary has the twelve keys |
| PickerTrace.EmitAllAt | src/lib/components/GooglePicker.react.js:165-182 | a `forEach` of builder calls issues one call per name, in input order: the i-th call carries the i-th name |
| PickerTrace.TakePhase | src/lib/components/GooglePicker.react.js:165-182 | splits a trace into its leading run of one kind of builder call and the rest, which does not start with that kind |
| PickerTrace.Encode | src/lib/components/GooglePicker.react.js:155-192 | a builder trace opens with the new builder, the token, the developer key and the callback, and its length is those four calls plus as many calls as there are views and features, one for a set locale, and two more; which calls, in which order, is stated by DecodeEncode, EncodeDecode and OneBuildPerTrace |
| PickerTrace.DecodeEncode | src/lib/components/GooglePicker.react.js:155-192 | the builder trace of any configuration reads back as that configuration: token, key and callback; then the views; then the enabled and then the disabled features; then the locale if set; then build and show |
| PickerTrace.EncodeDecode | src/lib/components/GooglePicker.react.js:155-192 | every call sequence that reads back as a configuration is exactly that configuration's builder trace, so no other order is accepted |
| PickerTrace.OneBuildPerTrace | src/lib/components/GooglePicker.react.js:190-191 | a builder trace builds exactly one picker, as its second-to-last call, and its last call shows it |
| Picker.Init | src/lib/components/GooglePicker.react.js:53-60 | the component starts with both readiness flags false, no token, no pending open, `open` equal to the prop and no token client |
| Picker.AsList | src/lib/components/GooglePicker.react.js:164-178 | `Array.isArray(p) ? p : [p]`: a scalar prop becomes a one-element list holding it, an array is used element for element |
| Picker.ShowPicker | src/lib/components/GooglePicker.react.js:155-192 | `showPicker` starts with the builder, the current token, the developer key and the callback, makes as many further calls as there are listed views and features plus one when the locale is truthy, and ends with build and show |
| Picker.ShowPickerDecodes | src/lib/components/GooglePicker.react.js:155-192 | `showPicker` issues a trace that decodes to the props' configuration (list props taken as lists, the locale only when truthy) and builds exactly one picker |
| Picker.ListPropsTaken | src/lib/components/GooglePicker.react.js:164-188 | a scalar `view_ids`, `enabled_features` or `disabled_features` becomes a one-element list and an array is passed through element for element; the locale is applied exactly when it is truthy |
| Picker.CreatePicker | src/lib/components/GooglePicker.react.js:147-217 | with either flag false it calls nothing and changes only `shouldShowPicker`, never `pendingPicker`; with both true it installs the token callback and makes exactly one token request, with prompt "consent" exactly when there is no token and "" exactly when there is one; with both true and no token client it throws and changes nothing |
| Picker.OnTokenResponse | src/lib/components/GooglePicker.react.js:196-204 | an error response is thrown and changes nothing; a success stores the token and issues exactly the `showPicker` calls for the props with that token |
| Picker.Step | src/lib/components/GooglePicker.react.js:72-141 | the join of the two loads (:72-81) runs `createPicker` exactly when `pendingPicker` is set and otherwise changes nothing, and a failed load only logs its error; the API script's load (:124-127) only asks for the picker module, whose load sets only `pickerInited`; the identity script's load (:132-141) creates the token client for the props' client id and scope with no callback and sets only `gisInited` |
| Picker.DidUpdate | src/lib/components/GooglePicker.react.js:224-233 | the new props are taken; an unchanged `open` does nothing else; a changed `open`, either way, is stored in the state and runs the gate: when not ready only `shouldShowPicker` is set and nothing is called or thrown; when ready the rest of the state is kept, the token callback is installed and one token request is made, with prompt "consent" when there is no token and "" otherwise; a missing token client is thrown |
| Js.Truthy | src/lib/components/GooglePicker.react.js:185 | JavaScript truthiness, as `if (this.props.locale)` and `documents && …` use it: exactly `undefined`, `null`, `false`, `0` and `""` are falsy, so every array and object is truthy |
| Picker.LocaleSet | src/lib/components/GooglePicker.react.js:185 | the `if (this.props.locale)` test, decided by JavaScript truthiness of the prop: the locale is applied exactly when it is set and non-empty |
| Picker.Normalize | src/lib/components/GooglePicker.react.js:242-251 | the emitted object always carries the action, and carries the documents exactly when the action equals PICKED and the documents value is truthy, unchanged; it has no other key |
| Picker.OnPickerResult | src/lib/components/GooglePicker.react.js:240-257 | with `setProps` the emitted object goes to the host and the component is unchanged; without it the action is stored, and the documents are stored when emitted and otherwise kept as they were |
| PickerRuns.StepInv | src/lib/components/GooglePicker.react.js:124-257 | every handler keeps the invariant: no pending open, the token client present exactly when the identity script is ready, the token callback installed only when both scripts are ready, and the state's `open` equal to the prop |
| PickerRuns.RunInv | src/lib/components/GooglePicker.react.js:124-257 | the invariant holds after any sequence of events |
| PickerRuns.JoinNeverOpens | src/lib/components/GooglePicker.react.js:73-76 | after any events from construction, the join of the two script loads changes nothing and calls nothing: the deferred open at mount is dead |
| PickerRuns.StepMonotone | src/lib/components/GooglePicker.react.js:124-204 | readiness flags are never reset and a stored token is never forgotten |
| PickerRuns.NothingBeforeReady | src/lib/components/GooglePicker.react.js:147-217 | in a reachable component, no event requests a token or builds a picker unless both scripts are ready |
| PickerRuns.SecondOpenIsSilent | src/lib/components/GooglePicker.react.js:202-216 | after a granted token, the next change of `open` requests a token with the empty prompt |
| PickerRuns.ClosingAlsoOpens | src/lib/components/GooglePicker.react.js:224-231 | when ready, turning `open` from true to false requests a token and installs the callback that will build a picker |
| PickerRuns.TokenErrorChangesNothing | src/lib/components/GooglePicker.react.js:196-201 | in a reachable component a token error response leaves the component as it was, calls nothing and throws the response |
| PickerRuns.TokenGranted | src/lib/components/GooglePicker.react.js:196-204 | in any component whose callback is installed, a successful token response stores the token, throws nothing and issues the builder trace of the props' configuration with that token |
| PickerRuns.Scenario | src/lib/components/GooglePicker.react.js:124-257 | scripts load, the host opens the picker, a token is granted and a file is picked: one consent request, one picker built with the single DOCS view and shown, and the action with the documents sent to the host |
| PickerRuns.DeferredOpenDropped | src/lib/components/GooglePicker.react.js:147-153 | an open requested before the scripts are ready leaves both scripts ready and `open` true but never requests a token |
| PickerRuns.CreatePickerIntended | src/lib/components/GooglePicker.react.js:147-153 | the intended gate records an early open in `pendingPicker` and otherwise behaves as `createPicker` |
| PickerRuns.IntendedStepInv | src/lib/components/GooglePicker.react.js:68-153 | with the intended gate, a pending open never survives both scripts becoming ready |
| PickerRuns.IntendedResumesOnReady | src/lib/components/GooglePicker.react.js:68-153 | with the intended gate, the readiness event that completes loading consumes a pending open and makes exactly one token request, as its last call |
| PickerRuns.DeferredOpenHonoured | src/lib/components/GooglePicker.react.js:68-153 | with the intended gate, the early-open events request exactly one token, with consent |

## Left out

- Script injection (`loadGoogleApi`, `loadGoogleGsiClient`, src/lib/components/GooglePicker.react.js:89-119) is browser I/O. Only its completion and failure appear, as events. The model does not enforce that both loads finish before the join; the invariant lemmas hold for every order of events, and the scenario lemmas each fix one order.
- `render`, `propTypes` and `defaultProps` are UI and type scaffolding. `Picker.DefaultProps` fills in the default values, and the example runs of `PickerRuns` start from it.
- The Google globals (`gapi`, `google.accounts.oauth2`, `google.picker`) are external libraries. Feature lookups, the response keys and the PICKED tag stay symbolic or are a parameter.
- React's batching of `setState` is not modelled. Every update takes effect at once.
- The host's reaction to `setProps` is left out: Dash feeding the new props back into the component.
- dash_google_picker/Enums.py holds constant tables only. dash_google_picker/GooglePicker.py is generated wrapper code. The demo, packaging, docs configuration and browser tests are not part of this model.
- Picker.Props: `view_ids`, `enabled_features` and `disabled_features` hold strings, as their prop types declare. A `null` scalar, which the source would also wrap into a one-element list, is not modelled.
- Picker.OnTokenResponse: a token response that arrives before `createPicker` has installed the callback is ignored. The identity library's handling of its empty callback is not visible here.
- Picker.TokenResponse: `access_token` is always a string. A success response without the field would store `undefined` (:202), and since `undefined === null` is false (:206) the next request would then be silent; that case is not modelled.
- Js.Value: numbers are integers, so NaN and fractional values are not modelled.
- Views.Item: every item that is not a string compares by identity. This is right for nested `ViewGroup` objects, which define no `__eq__`. It is not right for other Python values, such as numbers, which compare by value.
- Views.ToPlotlyJson: the dictionary shares its `views` list with the group in Python. Aliasing is not modelled; the function returns a value.
- Documents.FromDict: the error carries every unexpected key, or every missing one. Python's message names only the first unexpected keyword in dictionary order.
- Documents.GoogleDocuments: a string argument, which the annotation allows and Python would iterate character by character, is not modelled. The argument is `None` or a list of dictionaries.

## Findings

| source | as written | input that shows it | evidently intended | confidence | as-written member | corrected member |
|---|---|---|---|---|---|---|
| src/lib/components/GooglePicker.react.js:151 | the readiness gate sets `shouldShowPicker`, which nothing reads. The join at :73 reads `pendingPicker`, which nothing sets. So an open requested before the scripts are ready is never resumed. Also, `pickerInited` is set only by the later `gapi.load` callback (:126), so even a correctly set flag would often find the picker module not yet loaded at the join | host sets `open` to true, then the API script, identity script and join complete, then the picker module loads | the gate remembers the open in `pendingPicker`, and the event that makes both scripts ready consumes it and requests one token | high (not executed) | PickerRuns.DeferredOpenDropped | PickerRuns.IntendedResumesOnReady |

The state machine in `Picker` keeps the source's behaviour. `PickerRuns.StepIntended` is the corrected variant, and `PickerRuns.Run` runs either one. The corrected variant differs only in three places: the gate, the readiness events and the join.
