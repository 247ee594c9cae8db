/**
 * Runs of the picker component: the invariant every reachable component
 * keeps, what it implies for the readiness gate, the token and the deferred
 * open, a worked scenario, and the deferred open as evidently intended.
 */
module PickerRuns {
  import opened Base
  import Js
  import opened PickerTrace
  import opened Picker

  /** Which `createPicker` gate a run uses: the source's, or the intended one
      that records a deferred open in `pendingPicker` and resumes it. */
  datatype Variant = AsWritten | Intended

  /** The intended gate: an open requested before both scripts are ready is remembered. */
  function CreatePickerIntended(c: Component): (o: Outcome)
    ensures !Ready(c.state) ==> o.calls == [] && o.next == c.(state := c.state.(pendingPicker := true)) && o.thrown.None?
    ensures Ready(c.state) ==> o == CreatePicker(c)
  {
    if !Ready(c.state) then Outcome(c.(state := c.state.(pendingPicker := true)), [], None)
    else CreatePicker(c)
  }

  /** Consumes a remembered open once both scripts are ready. */
  function Resume(c: Component): Outcome {
    if c.state.pendingPicker && Ready(c.state) then
      CreatePicker(c.(state := c.state.(pendingPicker := false)))
    else Outcome(c, [], None)
  }

  /** One event, with the intended gate; every other handler is the source's. */
  function StepIntended(k: PickerConstants, c: Component, e: Event): Outcome {
    match e
    case PickerModuleLoaded =>
      var o := Step(k, c, e);
      var r := Resume(o.next);
      Outcome(r.next, o.calls + r.calls, r.thrown)
    case GisScriptLoaded =>
      var o := Step(k, c, e);
      var r := Resume(o.next);
      Outcome(r.next, o.calls + r.calls, r.thrown)
    case ScriptsLoaded =>
      if c.state.pendingPicker then CreatePickerIntended(c.(state := c.state.(pendingPicker := false)))
      else Outcome(c, [], None)
    case PropsChanged(p) =>
      if p.open != c.props.open then CreatePickerIntended(Component(p, c.state.(open := p.open), c.tokenClient))
      else Outcome(c.(props := p), [], None)
    case _ => Step(k, c, e)
  }

  function StepOf(v: Variant, k: PickerConstants, c: Component, e: Event): Outcome {
    match v
    case AsWritten => Step(k, c, e)
    case Intended => StepIntended(k, c, e)
  }

  /** The component after `events`, with every call made along the way. */
  function Run(v: Variant, k: PickerConstants, c: Component, events: seq<Event>): (Component, seq<Call>)
    decreases |events|
  {
    if |events| == 0 then (c, [])
    else
      var o := StepOf(v, k, c, events[0]);
      var r := Run(v, k, o.next, events[1..]);
      (r.0, o.calls + r.1)
  }

  /** What every handler keeps in both variants: the token client exists
      exactly when the identity script is ready, its callback is installed
      only once both scripts are, and the state's `open` mirrors the prop. */
  predicate Wired(c: Component) {
    && (c.state.gisInited <==> c.tokenClient.Some?)
    && (c.tokenClient.Some? && c.tokenClient.value.callbackSet ==> Ready(c.state))
    && c.state.open == c.props.open
  }

  /** The invariant of every component the source's handlers can reach. */
  predicate Inv(c: Component) {
    !c.state.pendingPicker && Wired(c)
  }

  lemma InitInv(p: Props)
    ensures Inv(Init(p))
  {
  }

  /** Every handler keeps the invariant; in particular nothing ever sets `pendingPicker`. */
  lemma StepInv(k: PickerConstants, c: Component, e: Event)
    requires Inv(c)
    ensures Inv(Step(k, c, e).next)
  {
    match e
    case PropsChanged(p) =>
      if p.open != c.props.open {
        var c' := Component(p, c.state.(open := p.open), c.tokenClient);
        assert Step(k, c, e) == CreatePicker(c');
      } else {
        assert Step(k, c, e).next == c.(props := p);
      }
    case TokenReply(r) =>
      assert Step(k, c, e) == OnTokenResponse(c, r);
    case PickerReply(data) =>
      assert Step(k, c, e) == OnPickerResult(k, c, data);
    case ScriptsLoaded =>
      assert Step(k, c, e).next == c;
    case ApiScriptLoaded =>
    case PickerModuleLoaded =>
    case GisScriptLoaded =>
    case ScriptFailed(_) =>
  }

  lemma {:induction false} RunInv(k: PickerConstants, c: Component, events: seq<Event>)
    requires Inv(c)
    ensures Inv(Run(AsWritten, k, c, events).0)
    decreases |events|
  {
    if |events| > 0 {
      StepInv(k, c, events[0]);
      RunInv(k, Step(k, c, events[0]).next, events[1..]);
    }
  }

  /** The deferred open at mount is dead code: whatever happened before, the
      join of the two script loads changes nothing and calls nothing. */
  lemma {:induction false} JoinNeverOpens(k: PickerConstants, p: Props, events: seq<Event>)
    ensures var c := Run(AsWritten, k, Init(p), events).0;
            Step(k, c, ScriptsLoaded) == Outcome(c, [], None)
  {
    InitInv(p);
    RunInv(k, Init(p), events);
  }

  /** Readiness flags are never reset and a stored token is never forgotten. */
  lemma StepMonotone(k: PickerConstants, c: Component, e: Event)
    ensures var n := Step(k, c, e).next.state;
            (c.state.pickerInited ==> n.pickerInited) && (c.state.gisInited ==> n.gisInited)
            && (c.state.accessToken.Some? ==> n.accessToken.Some?)
  {
    match e
    case PropsChanged(p) =>
      if p.open != c.props.open {
        assert Step(k, c, e) == CreatePicker(Component(p, c.state.(open := p.open), c.tokenClient));
      } else {
        assert Step(k, c, e).next == c.(props := p);
      }
    case TokenReply(r) =>
      assert Step(k, c, e) == OnTokenResponse(c, r);
    case PickerReply(data) =>
      assert Step(k, c, e) == OnPickerResult(k, c, data);
    case ScriptsLoaded =>
      if c.state.pendingPicker {
        assert Step(k, c, e) == CreatePicker(c);
      }
    case ApiScriptLoaded =>
    case PickerModuleLoaded =>
    case GisScriptLoaded =>
    case ScriptFailed(_) =>
  }

  /** No token is requested and no picker built unless both scripts were ready. */
  lemma NothingBeforeReady(k: PickerConstants, c: Component, e: Event)
    requires Inv(c)
    ensures var t := Step(k, c, e).calls;
            (exists i :: 0 <= i < |t| && t[i].RequestAccessToken?) ==> Ready(c.state)
    ensures Build in Step(k, c, e).calls ==> Ready(c.state)
  {
    var t := Step(k, c, e).calls;
    match e
    case PickerReply(data) =>
      if c.props.hasSetProps {
        assert t == [SetProps(Normalize(k, data))];
      }
    case _ =>
  }

  /** Once a token has been granted, the next change of `open` asks for one
      without the consent prompt. */
  lemma SecondOpenIsSilent(k: PickerConstants, c: Component, resp: TokenResponse, p: Props)
    requires Inv(c) && c.tokenClient.Some? && c.tokenClient.value.callbackSet && resp.error.None?
    requires p.open != c.props.open
    ensures var c1 := Step(k, c, TokenReply(resp)).next;
            Step(k, c1, PropsChanged(p)).calls == [RequestAccessToken("")]
  {
    var c1 := c.(state := c.state.(accessToken := Some(resp.accessToken)));
    assert Step(k, c, TokenReply(resp)).next == c1;
    var c2 := Component(p, c1.state.(open := p.open), c1.tokenClient);
    assert Ready(c2.state) && c2.tokenClient.Some?;
    var o := CreatePicker(c2);
    assert Step(k, c1, PropsChanged(p)) == o;
    assert o.calls == [o.calls[0]];
  }

  /** Closing the picker from the host (`open` true to false) also requests a
      token, and so opens a picker once the token arrives. */
  lemma ClosingAlsoOpens(k: PickerConstants, c: Component, p: Props)
    requires Inv(c) && Ready(c.state) && c.props.open && !p.open
    ensures var o := Step(k, c, PropsChanged(p));
            |o.calls| == 1 && o.calls[0].RequestAccessToken?
            && o.next.tokenClient.Some? && o.next.tokenClient.value.callbackSet
  {
  }

  /** A token error leaves the component as it was and builds nothing: the
      error case of `OnTokenResponse`, read through `Step` in a reachable component. */
  lemma TokenErrorChangesNothing(k: PickerConstants, c: Component, resp: TokenResponse)
    requires Inv(c) && c.tokenClient.Some? && c.tokenClient.value.callbackSet && resp.error.Some?
    ensures Step(k, c, TokenReply(resp)) == Outcome(c, [], Some(TokenErrorThrown(resp)))
  {
  }

  const Constants := PickerConstants("action", "docs", "picked")

  /** A Dash host with client id "C" and developer key "K" that shows only
      the DOCS view; everything else is the component's default. */
  function ScenarioProps(open: bool): Props {
    DefaultProps("C", "K", true).(open := open, viewIds := Many(["DOCS"]))
  }

  const PickedDocs := Js.Arr([Js.Obj(map["id" := Js.Str("f1")])])

  const ScenarioData: map<string, Js.Value> := map["action" := Js.Str("picked"), "docs" := PickedDocs]

  const ScenarioReply := SetProps(map["action" := Js.Str("picked"), "documents" := PickedDocs])

  const ScenarioBuilder := Encode(BuilderSpec(Some("tok"), "K", ["DOCS"], [], [], None))

  /** The scenario's component once both scripts are ready, before the host opens the picker. */
  function ScenarioLoaded(): Component {
    Component(ScenarioProps(false),
              State(true, true, None, false, false, false, Js.Undefined, Js.Undefined),
              Some(TokenClient("C", ReadonlyDriveScope, false)))
  }

  /** ... and after the host opened it. */
  function ScenarioOpened(): Component {
    Component(ScenarioProps(true),
              State(true, true, None, true, false, false, Js.Undefined, Js.Undefined),
              Some(TokenClient("C", ReadonlyDriveScope, true)))
  }

  /** A granted token, delivered to an installed callback, is stored and the
      picker is built: the success case of `OnTokenResponse`, read through
      `Step` with `showPicker` unfolded to the trace of the props' configuration. */
  lemma TokenGranted(k: PickerConstants, c: Component, r: TokenResponse)
    requires c.tokenClient.Some? && c.tokenClient.value.callbackSet && r.error.None?
    ensures Step(k, c, TokenReply(r))
            == Outcome(c.(state := c.state.(accessToken := Some(r.accessToken))),
                       Encode(SpecOf(c.props, Some(r.accessToken))), None)
  {
  }

  lemma ScenarioToken()
    ensures var c5 := ScenarioOpened();
            Step(Constants, c5, TokenReply(TokenResponse(None, "tok")))
            == Outcome(c5.(state := c5.state.(accessToken := Some("tok"))), ScenarioBuilder, None)
  {
    var c5 := ScenarioOpened();
    TokenGranted(Constants, c5, TokenResponse(None, "tok"));
    assert SpecOf(c5.props, Some("tok")) == BuilderSpec(Some("tok"), "K", ["DOCS"], [], [], None);
  }

  lemma ScenarioPick(c: Component)
    requires c.props.hasSetProps
    ensures Step(Constants, c, PickerReply(ScenarioData)) == Outcome(c, [ScenarioReply], None)
  {
    assert Normalize(Constants, ScenarioData) == map["action" := Js.Str("picked"), "documents" := PickedDocs];
  }

  lemma ScenarioReplies()
    ensures Run(AsWritten, Constants, ScenarioOpened(),
              [TokenReply(TokenResponse(None, "tok")), PickerReply(ScenarioData)]).1
            == ScenarioBuilder + [ScenarioReply]
  {
    var k := Constants;
    var e := [TokenReply(TokenResponse(None, "tok")), PickerReply(ScenarioData)];
    var c5 := ScenarioOpened();
    var c6 := c5.(state := c5.state.(accessToken := Some("tok")));
    ScenarioToken();
    ScenarioPick(c6);
    assert Run(AsWritten, k, c6, e[1..]).1 == [ScenarioReply] by {
      assert e[1..][1..] == [];
    }
  }

  lemma ScenarioOpenStep()
    ensures Step(Constants, ScenarioLoaded(), PropsChanged(ScenarioProps(true)))
            == Outcome(ScenarioOpened(), [RequestAccessToken("consent")], None)
  {
    var c := ScenarioLoaded();
    var c' := Component(ScenarioProps(true), c.state.(open := true), c.tokenClient);
    assert DidUpdate(c, ScenarioProps(true)) == CreatePicker(c');
  }

  lemma ScenarioOpen()
    ensures Run(AsWritten, Constants, ScenarioLoaded(),
              [ScriptsLoaded, PropsChanged(ScenarioProps(true)),
               TokenReply(TokenResponse(None, "tok")), PickerReply(ScenarioData)]).1
            == [RequestAccessToken("consent")] + ScenarioBuilder + [ScenarioReply]
  {
    var k := Constants;
    var e := [ScriptsLoaded, PropsChanged(ScenarioProps(true)),
              TokenReply(TokenResponse(None, "tok")), PickerReply(ScenarioData)];
    ScenarioReplies();
    ScenarioOpenStep();
    assert e[1..][1..] == e[2..];
    assert Run(AsWritten, k, ScenarioLoaded(), e[1..]).1 == [RequestAccessToken("consent")] + ScenarioBuilder + [ScenarioReply];
    assert Step(k, ScenarioLoaded(), e[0]) == Outcome(ScenarioLoaded(), [], None);
  }

  const ScenarioEvents: seq<Event> :=
    [ApiScriptLoaded, PickerModuleLoaded, GisScriptLoaded, ScriptsLoaded,
     PropsChanged(ScenarioProps(true)), TokenReply(TokenResponse(None, "tok")), PickerReply(ScenarioData)]

  const ScenarioTail: seq<Call> := [RequestAccessToken("consent")] + ScenarioBuilder + [ScenarioReply]

  lemma ScenarioLoading()
    ensures var c0 := Init(ScenarioProps(false));
            Run(AsWritten, Constants, c0.(state := c0.state.(pickerInited := true)), ScenarioEvents[2..]).1
            == [InitTokenClient("C", ReadonlyDriveScope)] + ScenarioTail
  {
    var c0 := Init(ScenarioProps(false));
    var c2 := c0.(state := c0.state.(pickerInited := true));
    var e := ScenarioEvents[2..];
    ScenarioOpen();
    assert e[1..] == [ScriptsLoaded, PropsChanged(ScenarioProps(true)),
                      TokenReply(TokenResponse(None, "tok")), PickerReply(ScenarioData)];
    assert Step(Constants, c2, e[0]) == Outcome(ScenarioLoaded(), [InitTokenClient("C", ReadonlyDriveScope)], None);
  }

  lemma ScenarioBuilderCalls()
    ensures ScenarioBuilder == [NewPickerBuilder, SetOAuthToken(Some("tok")), SetDeveloperKey("K"), SetCallback,
                                AddView("DOCS"), Build, SetVisible(true)]
  {
  }

  /** The calls of the scenario, as the loading calls followed by the rest. */
  lemma ScenarioRun()
    ensures Run(AsWritten, Constants, Init(ScenarioProps(false)), ScenarioEvents).1
            == [LoadGapiModule("picker")] + ([InitTokenClient("C", ReadonlyDriveScope)] + ScenarioTail)
  {
    var k := Constants;
    var c0 := Init(ScenarioProps(false));
    var c2 := c0.(state := c0.state.(pickerInited := true));
    var e := ScenarioEvents;
    ScenarioLoading();
    assert Step(k, c0, e[1]) == Outcome(c2, [], None);
    assert Run(AsWritten, k, c0, e[1..]).1 == [InitTokenClient("C", ReadonlyDriveScope)] + ScenarioTail by {
      assert e[1..][1..] == e[2..];
    }
    assert Step(k, c0, e[0]) == Outcome(c0, [LoadGapiModule("picker")], None);
  }

  lemma ScenarioSpelled()
    ensures [LoadGapiModule("picker")] + ([InitTokenClient("C", ReadonlyDriveScope)] + ScenarioTail)
            == [LoadGapiModule("picker"), InitTokenClient("C", ReadonlyDriveScope),
                RequestAccessToken("consent"),
                NewPickerBuilder, SetOAuthToken(Some("tok")), SetDeveloperKey("K"), SetCallback,
                AddView("DOCS"), Build, SetVisible(true),
                SetProps(map["action" := Js.Str("picked"), "documents" := PickedDocs])]
  {
    ScenarioBuilderCalls();
  }

  /** Both scripts load, the host opens the picker, the token is granted and a
      file is picked: one consent request, one picker with the single view,
      and the selection reported to the host. */
  lemma Scenario()
    ensures Run(AsWritten, Constants, Init(ScenarioProps(false)), ScenarioEvents).1
            == [LoadGapiModule("picker"), InitTokenClient("C", ReadonlyDriveScope),
                RequestAccessToken("consent"),
                NewPickerBuilder, SetOAuthToken(Some("tok")), SetDeveloperKey("K"), SetCallback,
                AddView("DOCS"), Build, SetVisible(true),
                SetProps(map["action" := Js.Str("picked"), "documents" := PickedDocs])]
  {
    ScenarioRun();
    ScenarioSpelled();
  }

  /** The events of an open requested before the scripts finish loading. */
  const EarlyOpen: seq<Event> :=
    [PropsChanged(ScenarioProps(true)), ApiScriptLoaded, GisScriptLoaded, ScriptsLoaded, PickerModuleLoaded]

  /** As written, an open requested before the scripts are ready is dropped:
      both scripts end up ready and `open` is true, but no token is ever requested. */
  lemma DeferredOpenDropped()
    ensures var r := Run(AsWritten, Constants, Init(ScenarioProps(false)), EarlyOpen);
            Ready(r.0.state) && r.0.state.open
            && r.1 == [LoadGapiModule("picker"), InitTokenClient("C", ReadonlyDriveScope)]
  {
  }

  /** With the intended gate the same events request exactly one token, with consent. */
  lemma DeferredOpenHonoured()
    ensures var r := Run(Intended, Constants, Init(ScenarioProps(false)), EarlyOpen);
            !r.0.state.pendingPicker
            && r.1 == [LoadGapiModule("picker"), InitTokenClient("C", ReadonlyDriveScope),
                       RequestAccessToken("consent")]
  {
  }

  /** The invariant of the intended variant: a remembered open never outlives readiness. */
  predicate IntendedInv(c: Component) {
    (c.state.pendingPicker ==> !Ready(c.state)) && Wired(c)
  }

  lemma IntendedStepInv(k: PickerConstants, c: Component, e: Event)
    requires IntendedInv(c)
    ensures IntendedInv(StepIntended(k, c, e).next)
  {
    match e
    case PickerModuleLoaded =>
      var o := Step(k, c, e);
      assert o.next == c.(state := c.state.(pickerInited := true));
      ResumeInv(o.next);
    case GisScriptLoaded =>
      var o := Step(k, c, e);
      assert o.next.state == c.state.(gisInited := true) && o.next.props == c.props;
      ResumeInv(o.next);
    case ScriptsLoaded =>
      if c.state.pendingPicker {
        CreatePickerIntendedInv(c.(state := c.state.(pendingPicker := false)));
      }
    case PropsChanged(p) =>
      if p.open != c.props.open {
        CreatePickerIntendedInv(Component(p, c.state.(open := p.open), c.tokenClient));
      }
    case ScriptFailed(_) =>
      assert StepIntended(k, c, e).next == c;
    case ApiScriptLoaded =>
      assert StepIntended(k, c, e).next == c;
    case TokenReply(r) =>
      assert StepIntended(k, c, e) == OnTokenResponse(c, r);
    case PickerReply(data) =>
      assert StepIntended(k, c, e) == OnPickerResult(k, c, data);
  }

  lemma ResumeInv(c: Component)
    requires Wired(c)
    ensures IntendedInv(Resume(c).next)
  {
    if c.state.pendingPicker && Ready(c.state) {
      var n := c.(state := c.state.(pendingPicker := false));
      assert n.tokenClient.Some?;
    }
  }

  lemma CreatePickerIntendedInv(c: Component)
    requires IntendedInv(c)
    ensures IntendedInv(CreatePickerIntended(c).next)
  {
  }

  /** With the intended gate, the readiness event that completes a deferred
      open consumes it and requests exactly one token, as its last call. */
  lemma IntendedResumesOnReady(k: PickerConstants, c: Component, e: Event)
    requires IntendedInv(c) && c.state.pendingPicker
    requires e == PickerModuleLoaded || e == GisScriptLoaded
    requires Ready(Step(k, c, e).next.state)
    ensures var o := StepIntended(k, c, e);
            !o.next.state.pendingPicker && |o.calls| >= 1
            && o.calls[|o.calls| - 1] == RequestAccessToken(if c.state.accessToken.None? then "consent" else "")
            && forall i :: 0 <= i < |o.calls| - 1 ==> !o.calls[i].RequestAccessToken?
  {
    var o := Step(k, c, e);
    var n := o.next.(state := o.next.state.(pendingPicker := false));
    assert n.tokenClient.Some?;
    var r := CreatePicker(n);
    assert r.calls == [r.calls[0]];
  }
}
