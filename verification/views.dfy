/**
 * The `ViewGroup` container of dash_google_picker/Views.py: a list of views
 * (view ids or nested groups) shown under one tab, with an optional label.
 * The constructor insists that the first item is a view id; `add` and
 * `remove` edit the list in place, which is modelled by returning the new group.
 */
module Views {
  import opened Base

  /** An element of a group. A view id is a Python `str` and compares by value.
      Any other object (in practice a nested ViewGroup, which defines no
      `__eq__`) is known by its reference and compares by identity. */
  datatype Item = ViewId(id: string) | ObjectRef(ref: nat)

  /** A group; `caption` is the Python attribute `label`. */
  datatype ViewGroup = ViewGroup(views: seq<Item>, caption: Option<string>)

  /** Python's `ValueError` with its message. */
  datatype ViewError = ValueError(message: string)

  const RootMessage := "A ViewGroup needs one ViewID as root item"

  /** The message `list.remove` raises with when the item is absent. */
  const NotInListMessage := "list.remove(x): x not in list"

  /** The invariant the constructor establishes: the group starts with a view id. */
  predicate HasRoot(g: ViewGroup) {
    |g.views| > 0 && g.views[0].ViewId?
  }

  /** `ViewGroup(*args, label=caption)`. */
  function New(args: seq<Item>, caption: Option<string>): (r: Result<ViewGroup, ViewError>)
    ensures r.Err? <==> |args| == 0 || !args[0].ViewId?
    ensures r.Err? ==> r.error == ValueError(RootMessage)
    ensures r.Ok? ==> r.value.views == args && r.value.caption == caption && HasRoot(r.value)
  {
    if |args| == 0 || !args[0].ViewId? then Err(ValueError(RootMessage))
    else Ok(ViewGroup(args, caption))
  }

  /** `g.add(v)`: appends `v`. */
  function Add(g: ViewGroup, v: Item): (r: ViewGroup)
    ensures |r.views| == |g.views| + 1
    ensures r.views[..|g.views|] == g.views && r.views[|g.views|] == v
    ensures r.caption == g.caption
    ensures HasRoot(g) ==> HasRoot(r)
  {
    g.(views := g.views + [v])
  }

  /** The position of the first occurrence of `v` in `s`, as `list.remove` searches for it. */
  function FirstIndex(s: seq<Item>, v: Item): (r: Option<nat>)
    ensures r.None? <==> v !in s
    ensures r.Some? ==> r.value < |s| && s[r.value] == v && v !in s[..r.value]
  {
    if |s| == 0 then None
    else if s[0] == v then Some(0)
    else
      match FirstIndex(s[1..], v)
      case None => None
      case Some(i) =>
        assert s[..i + 1] == [s[0]] + s[1..][..i];
        Some(i + 1)
  }

  /** `g.remove(v)`: deletes the first occurrence of `v`, or raises `ValueError`. */
  function Remove(g: ViewGroup, v: Item): (r: Result<ViewGroup, ViewError>)
    ensures r.Err? <==> v !in g.views
    ensures r.Err? ==> r.error == ValueError(NotInListMessage)
    ensures r.Ok? ==> r.value.caption == g.caption && |r.value.views| == |g.views| - 1
    ensures r.Ok? ==>
      exists i :: 0 <= i < |g.views| && g.views[i] == v && v !in g.views[..i]
                  && r.value.views == g.views[..i] + g.views[i + 1..]
    ensures r.Ok? ==> multiset(r.value.views) == multiset(g.views) - multiset{v}
  {
    match FirstIndex(g.views, v)
    case None => Err(ValueError(NotInListMessage))
    case Some(i) =>
      var rest := g.views[..i] + g.views[i + 1..];
      assert g.views == g.views[..i] + [v] + g.views[i + 1..];
      Ok(g.(views := rest))
  }

  /** A field of the dictionary `to_plotly_json` returns. */
  datatype JsonField = Text(s: string) | Items(items: seq<Item>) | NoneValue

  /** `g.to_plotly_json()`: a three-key dictionary; the group itself is left as it is. */
  function ToPlotlyJson(g: ViewGroup): (j: map<string, JsonField>)
    ensures j.Keys == {"type", "views", "label"}
    ensures j["type"] == Text("ViewGroup")
  {
    map["type" := Text("ViewGroup"),
        "views" := Items(g.views),
        "label" := if g.caption.Some? then Text(g.caption.value) else NoneValue]
  }

  /** Reads a group back from its dictionary form; the partner of `ToPlotlyJson`. */
  function FromPlotlyJson(j: map<string, JsonField>): Option<ViewGroup> {
    if j.Keys != {"type", "views", "label"} || j["type"] != Text("ViewGroup") || !j["views"].Items? then None
    else
      match j["label"]
      case Text(l) => Some(ViewGroup(j["views"].items, Some(l)))
      case NoneValue => Some(ViewGroup(j["views"].items, None))
      case Items(_) => None
  }

  /** The dictionary form loses nothing: views (in order) and label come back unchanged. */
  lemma PlotlyJsonRoundTrip(g: ViewGroup)
    ensures FromPlotlyJson(ToPlotlyJson(g)) == Some(g)
  {
  }

  /** Every dictionary that reads back as a group is exactly that group's dictionary form. */
  lemma PlotlyJsonExact(j: map<string, JsonField>)
    requires FromPlotlyJson(j).Some?
    ensures ToPlotlyJson(FromPlotlyJson(j).value) == j
  {
  }

  /** Removing an item that was just added to a group not holding it gives the group back. */
  lemma {:induction false} RemoveUndoesAdd(g: ViewGroup, v: Item)
    requires v !in g.views
    ensures Remove(Add(g, v), v) == Ok(g)
  {
    var s := Add(g, v).views;
    assert s[..|g.views|] == g.views;
    var r := Remove(Add(g, v), v);
    assert r.Ok?;
    var i :| 0 <= i < |s| && s[i] == v && v !in s[..i] && r.value.views == s[..i] + s[i + 1..];
    assert i == |g.views|;
    assert r.value.views == g.views;
  }

  /** Removing anything other than the root view id keeps the constructor's invariant. */
  lemma {:induction false} RemoveKeepsRootOfOthers(g: ViewGroup, v: Item)
    requires HasRoot(g) && v != g.views[0] && v in g.views
    ensures Remove(g, v).Ok? && HasRoot(Remove(g, v).value)
    ensures Remove(g, v).value.views[0] == g.views[0]
  {
    var r := Remove(g, v);
    var i :| 0 <= i < |g.views| && g.views[i] == v && v !in g.views[..i]
             && r.value.views == g.views[..i] + g.views[i + 1..];
    assert i != 0;
    assert r.value.views[0] == g.views[..i][0];
  }

  /** Removing the root view id keeps the invariant exactly when the next item is a view id,
      so `remove` can leave a group the constructor would have refused. */
  lemma {:induction false} RemoveRootMayBreakInvariant(g: ViewGroup)
    requires HasRoot(g)
    ensures Remove(g, g.views[0]).Ok?
    ensures Remove(g, g.views[0]).value.views == g.views[1..]
    ensures HasRoot(Remove(g, g.views[0]).value) <==> |g.views| > 1 && g.views[1].ViewId?
  {
    assert FirstIndex(g.views, g.views[0]) == Some(0);
    assert g.views[..0] + g.views[1..] == g.views[1..];
  }

  /** A concrete group that satisfies the invariant and loses it through `remove`. */
  lemma RemoveBreaksInvariantExample()
    ensures var g := ViewGroup([ViewId("docs"), ObjectRef(7)], Some("Mine"));
            HasRoot(g) && Remove(g, ViewId("docs")).Ok?
            && !HasRoot(Remove(g, ViewId("docs")).value)
  {
    var g := ViewGroup([ViewId("docs"), ObjectRef(7)], Some("Mine"));
    RemoveRootMayBreakInvariant(g);
  }
}
