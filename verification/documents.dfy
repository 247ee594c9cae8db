/**
 * The `GoogleDocument` record and the `GoogleDocuments` mapping of
 * dash_google_picker/Documents.py. A document is a dataclass of twelve
 * fields built with `GoogleDocument(**d)` from each dictionary the picker
 * reports. Dataclasses do not check their annotations, so the field values
 * are opaque here: the record is generic in the value type `V`.
 */
module Documents {
  import opened Base

  /** The names of the twelve fields. */
  const FieldSet: set<string> :=
    {"id", "serviceId", "mimeType", "name", "description", "type",
     "lastEditedUtc", "iconUrl", "url", "embedUrl", "sizeBytes", "isShared"}

  datatype GoogleDocument<V> = GoogleDocument(
    id: V, serviceId: V, mimeType: V, name: V, description: V, kind: V,
    lastEditedUtc: V, iconUrl: V, url: V, embedUrl: V, sizeBytes: V, isShared: V)

  /** The `TypeError` a keyword call raises. Python checks unknown keywords
      before missing ones, so an unexpected key wins over a missing one. */
  datatype TypeError =
    | UnexpectedKeywords(names: set<string>)
    | MissingArguments(names: set<string>)

  /** The value of the field called `f` (the Python field `type` is `kind` here). */
  function Field<V>(doc: GoogleDocument<V>, f: string): V
    requires f in FieldSet
  {
    match f
    case "id" => doc.id
    case "serviceId" => doc.serviceId
    case "mimeType" => doc.mimeType
    case "name" => doc.name
    case "description" => doc.description
    case "type" => doc.kind
    case "lastEditedUtc" => doc.lastEditedUtc
    case "iconUrl" => doc.iconUrl
    case "url" => doc.url
    case "embedUrl" => doc.embedUrl
    case "sizeBytes" => doc.sizeBytes
    case "isShared" => doc.isShared
  }

  /** `dataclasses.asdict(doc)` for a record of opaque values: the partner of `FromDict`. */
  function ToDict<V>(doc: GoogleDocument<V>): (d: map<string, V>)
    ensures d.Keys == FieldSet
    ensures forall f :: f in FieldSet ==> d[f] == Field(doc, f)
  {
    map f | f in FieldSet :: Field(doc, f)
  }

  /** `GoogleDocument(**d)`. */
  function FromDict<V>(d: map<string, V>): (r: Result<GoogleDocument<V>, TypeError>)
    ensures r.Ok? <==> d.Keys == FieldSet
    ensures r.Ok? ==> forall f :: f in d ==> Field(r.value, f) == d[f]
    ensures r.Err? && d.Keys - FieldSet != {} ==> r.error == UnexpectedKeywords(d.Keys - FieldSet)
    ensures r.Err? && d.Keys <= FieldSet ==> r.error == MissingArguments(FieldSet - d.Keys)
  {
    if d.Keys - FieldSet != {} then Err(UnexpectedKeywords(d.Keys - FieldSet))
    else if FieldSet - d.Keys != {} then Err(MissingArguments(FieldSet - d.Keys))
    else
      Ok(GoogleDocument(
        d["id"], d["serviceId"], d["mimeType"], d["name"], d["description"], d["type"],
        d["lastEditedUtc"], d["iconUrl"], d["url"], d["embedUrl"], d["sizeBytes"], d["isShared"]))
  }

  /** Building a record from a dictionary and reading it back gives the dictionary. */
  lemma DictRoundTrip<V>(d: map<string, V>)
    requires d.Keys == FieldSet
    ensures FromDict(d).Ok? && ToDict(FromDict(d).value) == d
  {
  }

  /** Reading a record into a dictionary and building it again gives the record. */
  lemma RecordRoundTrip<V>(doc: GoogleDocument<V>)
    ensures FromDict(ToDict(doc)) == Ok(doc)
  {
  }

  /** The list comprehension `[GoogleDocument(**d) for d in ds]`: the first
      dictionary that cannot be bound stops it with that dictionary's error. */
  function BuildAll<V>(ds: seq<map<string, V>>): (r: Result<seq<GoogleDocument<V>>, TypeError>)
    ensures r.Ok? <==> forall i :: 0 <= i < |ds| ==> ds[i].Keys == FieldSet
    ensures r.Ok? ==> |r.value| == |ds|
    ensures r.Ok? ==> forall i :: 0 <= i < |ds| ==> FromDict(ds[i]) == Ok(r.value[i])
    ensures r.Err? ==>
      exists i :: 0 <= i < |ds| && FromDict(ds[i]) == Err(r.error)
                  && forall j :: 0 <= j < i ==> ds[j].Keys == FieldSet
  {
    if |ds| == 0 then Ok([])
    else
      match FromDict(ds[0])
      case Err(e) => Err(e)
      case Ok(doc) =>
        match BuildAll(ds[1..])
        case Err(e) =>
          assert forall k :: 1 <= k < |ds| ==> ds[k] == ds[1..][k - 1];
          Err(e)
        case Ok(docs) =>
          assert forall k :: 1 <= k < |ds| ==> ds[k] == ds[1..][k - 1];
          Ok([doc] + docs)
  }

  /** `GoogleDocuments(data)`: `None` gives the empty list, a list of
      dictionaries gives one record per dictionary, in order. */
  function GoogleDocuments<V>(data: Option<seq<map<string, V>>>): (r: Result<seq<GoogleDocument<V>>, TypeError>)
    ensures data.None? ==> r == Ok([])
    ensures data.Some? ==> (r.Ok? <==> forall i :: 0 <= i < |data.value| ==> data.value[i].Keys == FieldSet)
    ensures data.Some? && r.Ok? ==>
      |r.value| == |data.value|
      && forall i, f :: 0 <= i < |r.value| && f in FieldSet ==> Field(r.value[i], f) == data.value[i][f]
  {
    match data
    case None => Ok([])
    case Some(ds) => BuildAll(ds)
  }
}
