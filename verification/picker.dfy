/**
 * The `GooglePicker` React component of
 * src/lib/components/GooglePicker.react.js as a state machine. A component
 * is an immutable record of its props, its React state and the token client
 * the identity script hands it. Each lifecycle hook or library callback is
 * an event; a step returns the next component, the calls it made on the
 * external libraries or the host, and what it threw, if anything.
 *
 * `setState` is modelled as an immediate assignment: `showPicker` reads the
 * token right after it is stored, which is only correct if the update has
 * already taken effect.
 */
module Picker {
  import opened Base
  import Js
  import opened PickerTrace

  /** A prop accepted either as one value or as an array. */
  datatype OneOrMany<T> = One(value: T) | Many(items: seq<T>)

  /** `Array.isArray(p) ? p : [p]`: a scalar becomes the one-element list
      holding it, an array is used element for element. */
  function AsList<T>(p: OneOrMany<T>): (r: seq<T>)
    ensures p.One? ==> |r| == 1 && r[0] == p.value
    ensures p.Many? ==> |r| == |p.items| && forall i :: 0 <= i < |r| ==> r[i] == p.items[i]
  {
    match p
    case One(v) => [v]
    case Many(vs) => vs
  }

  /** The props the component reads. `hasSetProps` says whether the host supplied `setProps`. */
  datatype Props = Props(
    open: bool,
    viewIds: OneOrMany<string>,
    clientId: string,
    scope: string,
    developerKey: string,
    enabledFeatures: OneOrMany<string>,
    disabledFeatures: OneOrMany<string>,
    locale: Option<string>,
    hasSetProps: bool)

  const ReadonlyDriveScope := "https://www.googleapis.com/auth/drive.readonly"

  /** The props of a host that sets only the required ones, the component's
      defaults filled in: closed, every view, the read-only Drive scope, no
      features and no locale. */
  function DefaultProps(clientId: string, developerKey: string, hasSetProps: bool): Props {
    Props(false, Many(["all"]), clientId, ReadonlyDriveScope, developerKey, Many([]), Many([]), None, hasSetProps)
  }

  /** `if (this.props.locale)`: an absent locale is the default `null`, a set
      one a string, and it is applied only when that value is truthy. */
  predicate LocaleSet(locale: Option<string>)
    ensures LocaleSet(locale) <==> locale.Some? && locale.value != ""
  {
    Js.Truthy(if locale.Some? then Js.Str(locale.value) else Js.Null)
  }

  /** The React state. `shouldShowPicker` is written by the readiness gate and
      read nowhere; `action` and `documents` hold the last selection when the
      host gave no `setProps`. */
  datatype State = State(
    pickerInited: bool,
    gisInited: bool,
    accessToken: Option<string>,
    open: bool,
    pendingPicker: bool,
    shouldShowPicker: bool,
    action: Js.Value,
    documents: Js.Value)

  /** The identity script's token client, as initialised; `callbackSet` records
      that `createPicker` has installed the token callback. */
  datatype TokenClient = TokenClient(clientId: string, scope: string, callbackSet: bool)

  datatype Component = Component(props: Props, state: State, tokenClient: Option<TokenClient>)

  /** `google.picker.Response.ACTION`, `Response.DOCUMENTS` and `Action.PICKED`,
      which belong to the external library. */
  datatype PickerConstants = PickerConstants(actionKey: string, documentsKey: string, picked: string)

  /** The token callback's argument: `error` is `None` when the property is undefined. */
  datatype TokenResponse = TokenResponse(error: Option<string>, accessToken: string)

  /** What a step throws: the token callback rethrows an error response; using
      an absent token client is a `TypeError`. */
  datatype Fault = TokenErrorThrown(response: TokenResponse) | MissingTokenClient

  datatype Outcome = Outcome(next: Component, calls: seq<Call>, thrown: Option<Fault>)

  /** The completions and callbacks that drive the component. */
  datatype Event =
    | ApiScriptLoaded              // api.js onload: onApiLoad
    | PickerModuleLoaded           // the gapi.load('picker') callback
    | GisScriptLoaded              // gsi/client onload: gisLoaded
    | ScriptsLoaded                // Promise.all of both loads resolved
    | ScriptFailed(script: Script) // Promise.all rejected
    | PropsChanged(props: Props)   // componentDidUpdate with the new props
    | TokenReply(response: TokenResponse)
    | PickerReply(data: map<string, Js.Value>)

  predicate Ready(s: State) {
    s.pickerInited && s.gisInited
  }

  /** The component as the constructor leaves it. */
  function Init(props: Props): (c: Component)
    ensures !c.state.pickerInited && !c.state.gisInited && !c.state.pendingPicker
    ensures c.state.accessToken.None? && c.state.open == props.open
    ensures c.props == props && c.tokenClient.None?
  {
    Component(props, State(false, false, None, props.open, false, false, Js.Undefined, Js.Undefined), None)
  }

  /** The builder configuration `showPicker` applies for the given props and token. */
  function SpecOf(p: Props, token: Option<string>): BuilderSpec {
    BuilderSpec(token, p.developerKey, AsList(p.viewIds), AsList(p.enabledFeatures),
                AsList(p.disabledFeatures), if LocaleSet(p.locale) then p.locale else None)
  }

  /** `showPicker`: the builder calls for the props and the token. The trace
      opens with the builder, the token, the developer key and the callback,
      has as many calls as there are listed views and features plus one for a
      set locale, and ends with the build and show. */
  function ShowPicker(p: Props, token: Option<string>): (t: seq<Call>)
    ensures |t| == 6 + |AsList(p.viewIds)| + |AsList(p.enabledFeatures)| + |AsList(p.disabledFeatures)|
                   + (if LocaleSet(p.locale) then 1 else 0)
    ensures t[..4] == [NewPickerBuilder, SetOAuthToken(token), SetDeveloperKey(p.developerKey), SetCallback]
    ensures t[|t| - 2..] == Finish
  {
    EndsWithFinish(SpecOf(p, token));
    Encode(SpecOf(p, token))
  }

  /** The calls `showPicker` makes decode back to the props' configuration and
      build exactly one picker. */
  lemma ShowPickerDecodes(p: Props, token: Option<string>)
    ensures Decode(ShowPicker(p, token)) == Some(SpecOf(p, token))
    ensures Count(ShowPicker(p, token), Build) == 1
  {
    var s := SpecOf(p, token);
    DecodeEncode(s);
    OneBuildPerTrace(s);
  }

  /** A scalar `view_ids`, `enabled_features` or `disabled_features` becomes a
      one-element list and an array is used as it is, element for element.
      A corollary of `ShowPickerDecodes` and `AsList`, spelled out per prop. */
  lemma ListPropsTaken(p: Props, token: Option<string>)
    ensures Decode(ShowPicker(p, token)) == Some(SpecOf(p, token))
    ensures var s := SpecOf(p, token);
            (p.viewIds.One? ==> s.views == [p.viewIds.value])
            && (p.viewIds.Many? ==> s.views == p.viewIds.items)
            && (p.enabledFeatures.One? ==> s.enabled == [p.enabledFeatures.value])
            && (p.enabledFeatures.Many? ==> s.enabled == p.enabledFeatures.items)
            && (p.disabledFeatures.One? ==> s.disabled == [p.disabledFeatures.value])
            && (p.disabledFeatures.Many? ==> s.disabled == p.disabledFeatures.items)
            && (s.locale.Some? <==> LocaleSet(p.locale))
  {
    ShowPickerDecodes(p, token);
  }

  /** `createPicker`: the readiness gate, then one token request. */
  function CreatePicker(c: Component): (o: Outcome)
    ensures !Ready(c.state) ==>
      o.calls == [] && o.thrown.None? && o.next.props == c.props && o.next.tokenClient == c.tokenClient
      && o.next.state == c.state.(shouldShowPicker := true)
    ensures Ready(c.state) && c.tokenClient.Some? ==>
      o.thrown.None? && o.next.state == c.state && o.next.props == c.props
      && o.next.tokenClient == Some(c.tokenClient.value.(callbackSet := true))
      && |o.calls| == 1 && o.calls[0].RequestAccessToken?
      && (o.calls[0].prompt == "consent" <==> c.state.accessToken.None?)
      && (o.calls[0].prompt == "" <==> c.state.accessToken.Some?)
    ensures Ready(c.state) && c.tokenClient.None? ==> o == Outcome(c, [], Some(MissingTokenClient))
  {
    if !c.state.pickerInited || !c.state.gisInited then
      Outcome(c.(state := c.state.(shouldShowPicker := true)), [], None)
    else
      match c.tokenClient
      case None => Outcome(c, [], Some(MissingTokenClient))
      case Some(tc) =>
        var prompt := if c.state.accessToken.None? then "consent" else "";
        Outcome(c.(tokenClient := Some(tc.(callbackSet := true))), [RequestAccessToken(prompt)], None)
  }

  /** The token callback `createPicker` installs. Before it is installed the
      library has no callback to run. */
  function OnTokenResponse(c: Component, resp: TokenResponse): (o: Outcome)
    ensures c.tokenClient.None? || !c.tokenClient.value.callbackSet ==> o.next == c && o.calls == [] && o.thrown.None?
    ensures c.tokenClient.Some? && c.tokenClient.value.callbackSet && resp.error.Some? ==>
      o.next == c && o.calls == [] && o.thrown == Some(TokenErrorThrown(resp))
    ensures c.tokenClient.Some? && c.tokenClient.value.callbackSet && resp.error.None? ==>
      o.next == c.(state := c.state.(accessToken := Some(resp.accessToken))) && o.thrown.None?
      && o.calls == ShowPicker(c.props, Some(resp.accessToken))
  {
    if c.tokenClient.None? || !c.tokenClient.value.callbackSet then Outcome(c, [], None)
    else if resp.error.Some? then Outcome(c, [], Some(TokenErrorThrown(resp)))
    else
      var c' := c.(state := c.state.(accessToken := Some(resp.accessToken)));
      Outcome(c', ShowPicker(c'.props, c'.state.accessToken), None)
  }

  /** `componentDidUpdate`: a change of `open`, either way, stores it and runs `createPicker`. */
  function DidUpdate(c: Component, next: Props): (o: Outcome)
    ensures o.next.props == next
    ensures next.open == c.props.open ==>
      o.calls == [] && o.thrown.None? && o.next.state == c.state && o.next.tokenClient == c.tokenClient
    ensures next.open != c.props.open && !Ready(c.state) ==>
      o == Outcome(Component(next, c.state.(open := next.open, shouldShowPicker := true), c.tokenClient), [], None)
    ensures next.open != c.props.open && Ready(c.state) && c.tokenClient.Some? ==>
      o.thrown.None? && o.next.state == c.state.(open := next.open)
      && o.next.tokenClient == Some(c.tokenClient.value.(callbackSet := true))
      && o.calls == [RequestAccessToken(if c.state.accessToken.None? then "consent" else "")]
    ensures next.open != c.props.open && Ready(c.state) && c.tokenClient.None? ==>
      o == Outcome(Component(next, c.state.(open := next.open), None), [], Some(MissingTokenClient))
  {
    if next.open != c.props.open then
      CreatePicker(Component(next, c.state.(open := next.open), c.tokenClient))
    else
      Outcome(c.(props := next), [], None)
  }

  /** The object `pickerCallback` emits: always the action, and the documents
      only when the action is PICKED and the documents value is truthy. */
  function Normalize(k: PickerConstants, data: map<string, Js.Value>): (obj: map<string, Js.Value>)
    ensures "action" in obj && obj["action"] == Js.Get(data, k.actionKey)
    ensures "documents" in obj <==>
      Js.Get(data, k.actionKey) == Js.Str(k.picked) && Js.Truthy(Js.Get(data, k.documentsKey))
    ensures "documents" in obj ==> obj["documents"] == Js.Get(data, k.documentsKey)
    ensures obj.Keys <= {"action", "documents"}
  {
    var action := Js.Get(data, k.actionKey);
    var documents := if action == Js.Str(k.picked) then Js.Get(data, k.documentsKey) else Js.Null;
    if Js.Truthy(documents) then map["action" := action, "documents" := documents]
    else map["action" := action]
  }

  /** `pickerCallback`: the normalised object goes to `setProps` when the host
      gave one, and is otherwise merged into the state (an absent `documents`
      leaves the stored documents as they were). */
  function OnPickerResult(k: PickerConstants, c: Component, data: map<string, Js.Value>): (o: Outcome)
    ensures o.thrown.None?
    ensures c.props.hasSetProps ==> o.next == c && o.calls == [SetProps(Normalize(k, data))]
    ensures !c.props.hasSetProps ==>
      o.calls == [] && o.next.props == c.props && o.next.tokenClient == c.tokenClient
      && o.next.state.action == Js.Get(data, k.actionKey)
      && o.next.state.(action := c.state.action, documents := c.state.documents) == c.state
    ensures !c.props.hasSetProps && "documents" in Normalize(k, data) ==>
      o.next.state.documents == Js.Get(data, k.documentsKey)
    ensures !c.props.hasSetProps && "documents" !in Normalize(k, data) ==>
      o.next.state.documents == c.state.documents
  {
    var obj := Normalize(k, data);
    if c.props.hasSetProps then Outcome(c, [SetProps(obj)], None)
    else
      var docs := if "documents" in obj then obj["documents"] else c.state.documents;
      Outcome(c.(state := c.state.(action := obj["action"], documents := docs)), [], None)
  }

  /** One event, as the component handles it. The API script's load asks for
      the picker module; the module's load and the identity script's load each
      set one readiness flag, the latter after creating the token client with
      an empty callback; the join of both loads runs `createPicker` only for
      a remembered open; a failed load is logged and changes nothing. */
  function Step(k: PickerConstants, c: Component, e: Event): (o: Outcome)
    ensures e.ApiScriptLoaded? ==> o == Outcome(c, [LoadGapiModule("picker")], None)
    ensures e.PickerModuleLoaded? ==>
      o.calls == [] && o.thrown.None? && o.next == c.(state := c.state.(pickerInited := true))
    ensures e.GisScriptLoaded? ==>
      o.calls == [InitTokenClient(c.props.clientId, c.props.scope)] && o.thrown.None?
      && o.next.props == c.props && o.next.state == c.state.(gisInited := true)
      && o.next.tokenClient == Some(TokenClient(c.props.clientId, c.props.scope, false))
    ensures e.ScriptsLoaded? && !c.state.pendingPicker ==> o == Outcome(c, [], None)
    ensures e.ScriptsLoaded? && c.state.pendingPicker ==> o == CreatePicker(c)
    ensures e.ScriptFailed? ==> o == Outcome(c, [ConsoleError(e.script)], None)
  {
    match e
    case ApiScriptLoaded => Outcome(c, [LoadGapiModule("picker")], None)
    case PickerModuleLoaded => Outcome(c.(state := c.state.(pickerInited := true)), [], None)
    case GisScriptLoaded =>
      Outcome(c.(tokenClient := Some(TokenClient(c.props.clientId, c.props.scope, false)),
                 state := c.state.(gisInited := true)),
              [InitTokenClient(c.props.clientId, c.props.scope)], None)
    case ScriptsLoaded => if c.state.pendingPicker then CreatePicker(c) else Outcome(c, [], None)
    case ScriptFailed(s) => Outcome(c, [ConsoleError(s)], None)
    case PropsChanged(p) => DidUpdate(c, p)
    case TokenReply(r) => OnTokenResponse(c, r)
    case PickerReply(data) => OnPickerResult(k, c, data)
  }
}
