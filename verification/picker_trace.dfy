/**
 * The calls the picker component makes on the external Google libraries,
 * recorded as a trace, and the builder sequence `showPicker` issues
 * (src/lib/components/GooglePicker.react.js:155-192). A decoder reads a
 * builder trace back into the configuration it was built from; the two
 * round-trip lemmas show the trace order is exactly the documented one.
 */
module PickerTrace {
  import opened Base
  import Js

  /** `window.google.picker.Feature[name]`, kept symbolic: the lookup table
      belongs to the external library and is not interpreted here. */
  datatype Feature = FeatureLookup(name: string)

  /** The two scripts the component injects. */
  datatype Script = PickerApi | IdentityServices

  /** One outgoing call to the external libraries or to the host. */
  datatype Call =
    | LoadGapiModule(library: string)                   // window.gapi.load(library, ...)
    | InitTokenClient(clientId: string, scope: string)  // google.accounts.oauth2.initTokenClient
    | RequestAccessToken(prompt: string)                // tokenClient.requestAccessToken({prompt})
    | NewPickerBuilder                                  // new google.picker.PickerBuilder()
    | SetOAuthToken(token: Option<string>)
    | SetDeveloperKey(key: string)
    | SetCallback                                       // .setCallback(this.pickerCallback)
    | AddView(viewId: string)
    | EnableFeature(feature: Feature)
    | DisableFeature(feature: Feature)
    | SetLocale(locale: string)
    | Build
    | SetVisible(visible: bool)
    | SetProps(update: map<string, Js.Value>)           // the host's setProps
    | ConsoleError(failed: Script)                      // console.error of a load failure

  /** The three runs of repeated builder calls, in the order they are issued. */
  datatype Phase = ViewPhase | EnablePhase | DisablePhase

  function Emit(ph: Phase, name: string): Call {
    match ph
    case ViewPhase => AddView(name)
    case EnablePhase => EnableFeature(FeatureLookup(name))
    case DisablePhase => DisableFeature(FeatureLookup(name))
  }

  /** The argument of `c` when it is a call of phase `ph`; the inverse of `Emit`. */
  function Payload(ph: Phase, c: Call): (r: Option<string>)
    ensures r.Some? ==> Emit(ph, r.value) == c
  {
    match (ph, c)
    case (ViewPhase, AddView(v)) => Some(v)
    case (EnablePhase, EnableFeature(FeatureLookup(n))) => Some(n)
    case (DisablePhase, DisableFeature(FeatureLookup(n))) => Some(n)
    case _ => None
  }

  /** One call of phase `ph` per name, in order (the `forEach` loops). */
  function EmitAll(ph: Phase, names: seq<string>): (t: seq<Call>)
    ensures |t| == |names|
  {
    if |names| == 0 then [] else [Emit(ph, names[0])] + EmitAll(ph, names[1..])
  }

  /** The i-th call of a phase carries the i-th name. */
  lemma {:induction false} EmitAllAt(ph: Phase, names: seq<string>, i: int)
    requires 0 <= i < |names|
    ensures EmitAll(ph, names)[i] == Emit(ph, names[i])
  {
    if i > 0 {
      EmitAllAt(ph, names[1..], i - 1);
    }
  }

  lemma PayloadOfEmit(ph: Phase, other: Phase, name: string)
    ensures Payload(ph, Emit(ph, name)) == Some(name)
    ensures other != ph ==> Payload(other, Emit(ph, name)).None?
  {
  }

  /** Splits off the leading calls of phase `ph`. */
  function TakePhase(ph: Phase, t: seq<Call>): (r: (seq<string>, seq<Call>))
    ensures EmitAll(ph, r.0) + r.1 == t
    ensures |r.1| == 0 || Payload(ph, r.1[0]).None?
    decreases |t|
  {
    if |t| == 0 then ([], [])
    else
      match Payload(ph, t[0])
      case None => ([], t)
      case Some(n) =>
        var (names, rest) := TakePhase(ph, t[1..]);
        assert EmitAll(ph, [n] + names) == [Emit(ph, n)] + EmitAll(ph, names) by {
          assert ([n] + names)[1..] == names;
        }
        ([n] + names, rest)
  }

  lemma {:induction false} TakePhaseOfEmitAll(ph: Phase, names: seq<string>, rest: seq<Call>)
    requires |rest| == 0 || Payload(ph, rest[0]).None?
    ensures TakePhase(ph, EmitAll(ph, names) + rest) == (names, rest)
  {
    var t := EmitAll(ph, names) + rest;
    if |names| == 0 {
      assert t == rest;
    } else {
      assert t[0] == Emit(ph, names[0]);
      PayloadOfEmit(ph, ph, names[0]);
      assert t[1..] == EmitAll(ph, names[1..]) + rest;
      TakePhaseOfEmitAll(ph, names[1..], rest);
      assert [names[0]] + names[1..] == names;
    }
  }

  /** What a builder trace configures. */
  datatype BuilderSpec = BuilderSpec(
    token: Option<string>,
    developerKey: string,
    views: seq<string>,
    enabled: seq<string>,
    disabled: seq<string>,
    locale: Option<string>)

  /** A spec a builder trace can express: a locale, when set, is non-empty. */
  predicate Expressible(s: BuilderSpec) {
    s.locale.None? || s.locale.value != ""
  }

  const Finish: seq<Call> := [Build, SetVisible(true)]

  function Header(s: BuilderSpec): seq<Call> {
    [NewPickerBuilder, SetOAuthToken(s.token), SetDeveloperKey(s.developerKey), SetCallback]
  }

  /** The optional locale call, then build and show. */
  function EncodeTail(locale: Option<string>): seq<Call> {
    (if locale.Some? then [SetLocale(locale.value)] else []) + Finish
  }

  function DecodeTail(r: seq<Call>): Option<Option<string>> {
    if r == Finish then Some(None)
    else if |r| == 3 && r[0].SetLocale? && r[0].locale != "" && r[1..] == Finish then Some(Some(r[0].locale))
    else None
  }

  /** The builder trace for a spec: token, key and callback; the views; the
      enabled then the disabled features; the locale if any; build; show. */
  function Encode(s: BuilderSpec): (t: seq<Call>)
    ensures |t| == 6 + |s.views| + |s.enabled| + |s.disabled| + (if s.locale.Some? then 1 else 0)
    ensures t[..4] == Header(s)
  {
    Header(s)
    + (EmitAll(ViewPhase, s.views)
    + (EmitAll(EnablePhase, s.enabled)
    + (EmitAll(DisablePhase, s.disabled)
    + EncodeTail(s.locale))))
  }

  /** What follows the header: the three phases and the tail. */
  datatype Body = Body(views: seq<string>, enabled: seq<string>, disabled: seq<string>, locale: Option<string>)

  function DecodeBody(r: seq<Call>): Option<Body> {
    var p1 := TakePhase(ViewPhase, r);
    var p2 := TakePhase(EnablePhase, p1.1);
    var p3 := TakePhase(DisablePhase, p2.1);
    match DecodeTail(p3.1)
    case None => None
    case Some(loc) => Some(Body(p1.0, p2.0, p3.0, loc))
  }

  /** Reads a builder trace back into its spec; `None` for any other call sequence. */
  function Decode(t: seq<Call>): Option<BuilderSpec> {
    if |t| < 4 || t[0] != NewPickerBuilder || !t[1].SetOAuthToken? || !t[2].SetDeveloperKey?
       || t[3] != SetCallback then None
    else
      match DecodeBody(t[4..])
      case None => None
      case Some(b) => Some(BuilderSpec(t[1].token, t[2].key, b.views, b.enabled, b.disabled, b.locale))
  }

  lemma DecodeTailOfEncode(s: BuilderSpec)
    requires Expressible(s)
    ensures DecodeTail(EncodeTail(s.locale)) == Some(s.locale)
  {
  }

  /** A feature or locale call never reads as a view, nor a locale call as a feature. */
  lemma PhaseBoundaries(s: BuilderSpec)
    ensures var r := EncodeTail(s.locale); Payload(DisablePhase, r[0]).None?
    ensures var r := EmitAll(DisablePhase, s.disabled) + EncodeTail(s.locale); Payload(EnablePhase, r[0]).None?
    ensures var r := EmitAll(EnablePhase, s.enabled) + (EmitAll(DisablePhase, s.disabled) + EncodeTail(s.locale));
            Payload(ViewPhase, r[0]).None?
  {
    if |s.disabled| > 0 {
      PayloadOfEmit(DisablePhase, EnablePhase, s.disabled[0]);
      PayloadOfEmit(DisablePhase, ViewPhase, s.disabled[0]);
    }
    if |s.enabled| > 0 {
      PayloadOfEmit(EnablePhase, ViewPhase, s.enabled[0]);
    }
  }

  lemma DecodeBodyOfEncode(s: BuilderSpec)
    requires Expressible(s)
    ensures DecodeBody(EmitAll(ViewPhase, s.views) + (EmitAll(EnablePhase, s.enabled)
              + (EmitAll(DisablePhase, s.disabled) + EncodeTail(s.locale))))
            == Some(Body(s.views, s.enabled, s.disabled, s.locale))
  {
    var tail := EncodeTail(s.locale);
    var dis := EmitAll(DisablePhase, s.disabled) + tail;
    var en := EmitAll(EnablePhase, s.enabled) + dis;
    var vw := EmitAll(ViewPhase, s.views) + en;
    PhaseBoundaries(s);
    TakePhaseOfEmitAll(ViewPhase, s.views, en);
    TakePhaseOfEmitAll(EnablePhase, s.enabled, dis);
    TakePhaseOfEmitAll(DisablePhase, s.disabled, tail);
    DecodeTailOfEncode(s);
  }

  /** Decoding an encoded spec recovers it. */
  lemma DecodeEncode(s: BuilderSpec)
    requires Expressible(s)
    ensures Decode(Encode(s)) == Some(s)
  {
    var body := EmitAll(ViewPhase, s.views) + (EmitAll(EnablePhase, s.enabled)
              + (EmitAll(DisablePhase, s.disabled) + EncodeTail(s.locale)));
    var t := Encode(s);
    assert t == Header(s) + body;
    assert t[4..] == body;
    DecodeBodyOfEncode(s);
  }

  /** Every trace that decodes is the encoding of what it decodes to. */
  lemma EncodeDecode(t: seq<Call>)
    requires Decode(t).Some?
    ensures Expressible(Decode(t).value)
    ensures Encode(Decode(t).value) == t
  {
    var p1 := TakePhase(ViewPhase, t[4..]);
    var p2 := TakePhase(EnablePhase, p1.1);
    var p3 := TakePhase(DisablePhase, p2.1);
    assert t[4..] == EmitAll(ViewPhase, p1.0) + p1.1;
    assert p1.1 == EmitAll(EnablePhase, p2.0) + p2.1;
    assert p2.1 == EmitAll(DisablePhase, p3.0) + p3.1;
    var loc := DecodeTail(p3.1).value;
    assert EncodeTail(loc) == p3.1;
    var s := BuilderSpec(t[1].token, t[2].key, p1.0, p2.0, p3.0, loc);
    assert Decode(t) == Some(s);
    assert Header(s) == t[..4];
    assert t == t[..4] + t[4..];
  }

  /** How many times `c` occurs in a trace. */
  function Count(t: seq<Call>, c: Call): nat {
    if |t| == 0 then 0 else (if t[0] == c then 1 else 0) + Count(t[1..], c)
  }

  lemma {:induction false} NoBuildInPhase(ph: Phase, names: seq<string>)
    ensures Count(EmitAll(ph, names), Build) == 0
  {
    if |names| > 0 {
      NoBuildInPhase(ph, names[1..]);
      CountConcat([Emit(ph, names[0])], EmitAll(ph, names[1..]));
    }
  }

  /** An encoded trace is everything up to the locale call, then build and show. */
  lemma EncodeSplit(s: BuilderSpec)
    ensures Encode(s) == Header(s) + EmitAll(ViewPhase, s.views) + EmitAll(EnablePhase, s.enabled)
                         + EmitAll(DisablePhase, s.disabled)
                         + (if s.locale.Some? then [SetLocale(s.locale.value)] else []) + Finish
  {
    var loc: seq<Call> := if s.locale.Some? then [SetLocale(s.locale.value)] else [];
    Reassociate(Header(s), EmitAll(ViewPhase, s.views), EmitAll(EnablePhase, s.enabled),
                EmitAll(DisablePhase, s.disabled), loc, Finish);
  }

  lemma Reassociate(a: seq<Call>, b: seq<Call>, c: seq<Call>, d: seq<Call>, e: seq<Call>, f: seq<Call>)
    ensures a + (b + (c + (d + (e + f)))) == a + b + c + d + e + f
  {
  }

  /** A builder trace constructs exactly one picker, as its second-to-last call,
      and shows it with its last call. */
  lemma OneBuildPerTrace(s: BuilderSpec)
    ensures Count(Encode(s), Build) == 1
    ensures Encode(s)[|Encode(s)| - 2] == Build && Encode(s)[|Encode(s)| - 1] == SetVisible(true)
  {
    OneBuild(s);
    EndsWithFinish(s);
  }

  lemma OneBuild(s: BuilderSpec)
    ensures Count(Encode(s), Build) == 1
  {
    var tail := EncodeTail(s.locale);
    var d := EmitAll(DisablePhase, s.disabled);
    var e := EmitAll(EnablePhase, s.enabled);
    var v := EmitAll(ViewPhase, s.views);
    TailHasOneBuild(s.locale);
    NoBuildInPhase(DisablePhase, s.disabled);
    CountConcat(d, tail);
    NoBuildInPhase(EnablePhase, s.enabled);
    CountConcat(e, d + tail);
    NoBuildInPhase(ViewPhase, s.views);
    CountConcat(v, e + (d + tail));
    HeaderHasNoBuild(s);
    CountConcat(Header(s), v + (e + (d + tail)));
  }

  lemma TailHasOneBuild(locale: Option<string>)
    ensures Count(EncodeTail(locale), Build) == 1
  {
    var t := EncodeTail(locale);
    assert Count(Finish[1..], Build) == 0;
    assert Count(Finish, Build) == 1;
    if locale.Some? {
      assert t[1..] == Finish;
    } else {
      assert t == Finish;
    }
  }

  lemma HeaderHasNoBuild(s: BuilderSpec)
    ensures Count(Header(s), Build) == 0
  {
    assert Build !in Header(s);
    NoBuildCountsZero(Header(s));
  }

  lemma {:induction false} NoBuildCountsZero(t: seq<Call>)
    requires Build !in t
    ensures Count(t, Build) == 0
  {
    if |t| > 0 {
      assert t[0] != Build;
      assert Build !in t[1..];
      NoBuildCountsZero(t[1..]);
    }
  }

  lemma {:induction false} CountConcat(a: seq<Call>, b: seq<Call>)
    ensures Count(a + b, Build) == Count(a, Build) + Count(b, Build)
  {
    if |a| == 0 {
      assert a + b == b;
    } else {
      assert (a + b)[1..] == a[1..] + b;
      CountConcat(a[1..], b);
    }
  }

  lemma EndsWithFinish(s: BuilderSpec)
    ensures Encode(s)[|Encode(s)| - 2] == Build && Encode(s)[|Encode(s)| - 1] == SetVisible(true)
  {
    var loc: seq<Call> := if s.locale.Some? then [SetLocale(s.locale.value)] else [];
    var pre := Header(s) + EmitAll(ViewPhase, s.views) + EmitAll(EnablePhase, s.enabled)
               + EmitAll(DisablePhase, s.disabled) + loc;
    EncodeSplit(s);
    assert Encode(s) == pre + Finish;
  }
}
