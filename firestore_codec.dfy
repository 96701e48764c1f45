/** The Firestore REST document format that both Firestore clients of the source speak:
    value wrappers, the field encoder loop, the document decoder loop, URLs and the
    service-account claim set. */
module FirestoreCodec {
  import opened Wrappers
  import opened Strings
  import opened Values

  /** One value wrapper such as `{ stringValue: "x" }`: its keys, in order, with their values. */
  datatype Wrapper = Wrapper(entries: seq<(string, Value)>)

  /** A document's `fields` object: field name to wrapper. */
  type Fields = map<string, Wrapper>

  /** A document as the REST API returns it; `name` is `projects/.../documents/<collection>/<id>`. */
  datatype Document = Document(name: Option<string>, fields: Option<Fields>)

  /** The kinds of value the encoder knows: string, number, boolean, `Date` and `null`. */
  predicate Encodable(v: Value)
  {
    v.Str? || v.Num? || v.Bool? || v.Date? || v.Null?
  }

  /** The wrapper a value is encoded as, or `None` for a kind the encoder silently drops. */
  function EncodeValue(v: Value): (w: Option<Wrapper>)
    ensures w.Some? <==> Encodable(v)
    ensures w.Some? ==> |w.value.entries| == 1
    ensures w.Some? ==> DecodeWrapper(w.value) == if v.Date? then Str(v.iso) else v
    ensures v.Str? ==> w.value.entries[0].0 == "stringValue"
    ensures v.Num? ==> w.value.entries[0].0 == "doubleValue"
    ensures v.Bool? ==> w.value.entries[0].0 == "booleanValue"
    ensures v.Date? ==> w.value.entries[0].0 == "timestampValue"
    ensures v.Null? ==> w.value.entries[0].0 == "nullValue"
    ensures w.Some? ==> w.value.entries[0].1 == if v.Date? then Str(v.iso) else v
  {
    match v
    case Str(_) => Some(Wrapper([("stringValue", v)]))
    case Num(_) => Some(Wrapper([("doubleValue", v)]))
    case Bool(_) => Some(Wrapper([("booleanValue", v)]))
    case Date(iso) => Some(Wrapper([("timestampValue", Str(iso))]))
    case Null => Some(Wrapper([("nullValue", Null)]))
    case _ => None
  }

  /** `v[Object.keys(v)[0]]`: the value under a wrapper's first key (`undefined` for `{}`). */
  function DecodeWrapper(w: Wrapper): (v: Value)
    ensures |w.entries| > 0 ==> v == w.entries[0].1
    ensures |w.entries| == 0 ==> v == Undefined
  {
    if |w.entries| == 0 then Undefined else w.entries[0].1
  }

  /** The `fields` the encoder produces for a record: every encodable property, wrapped. */
  function EncodedFields(obj: Record): Fields
  {
    map k | k in obj && Encodable(obj[k]) :: EncodeValue(obj[k]).value
  }

  /** The loop `for (const [k, v] of Object.entries(obj))` that fills a fresh `fields` object. */
  method EncodeFields(obj: Record) returns (fields: Fields)
    ensures fields == EncodedFields(obj)
    ensures fields.Keys <= obj.Keys
    ensures forall k :: k in obj ==> (k in fields <==> Encodable(obj[k]))
    ensures forall k :: k in fields ==> EncodeValue(obj[k]) == Some(fields[k])
  {
    fields := map[];
    var todo := obj.Keys;
    while todo != {}
      invariant todo <= obj.Keys
      invariant fields.Keys == set k | k in obj && k !in todo && Encodable(obj[k])
      invariant forall k :: k in fields ==> EncodeValue(obj[k]) == Some(fields[k])
      decreases |todo|
    {
      var k :| k in todo;
      var w := EncodeValue(obj[k]);
      if w.Some? {
        fields := fields[k := w.value];
      }
      todo := todo - {k};
    }
    EncodedFieldsUnique(obj, fields);
  }

  /** The encoded fields are determined by their keys and what each key's value encodes to. */
  lemma EncodedFieldsUnique(obj: Record, fields: Fields)
    requires fields.Keys == set k | k in obj && Encodable(obj[k])
    requires forall k :: k in fields ==> EncodeValue(obj[k]) == Some(fields[k])
    ensures fields == EncodedFields(obj)
  {
  }

  /** The decoded properties of a `fields` object. */
  function DecodedFields(fields: Fields): Record
  {
    map k | k in fields :: DecodeWrapper(fields[k])
  }

  /** What decoding a document yields: `{}` for a missing document or one without `fields`; a
      `TypeError` when a document with fields has no `name`; otherwise `id` taken from the name,
      then every field, so that a field called `id` wins. */
  function DecodedDocument(doc: Option<Document>): (r: Result<Record, string>)
    ensures r.Failure? <==> doc.Some? && doc.value.fields.Some? && doc.value.name.None?
    ensures doc.None? || doc.value.fields.None? ==> r == Success(map[])
    ensures r.Success? && doc.Some? && doc.value.fields.Some? ==>
      && r.value.Keys == doc.value.fields.value.Keys + {"id"}
      && (forall k :: k in doc.value.fields.value ==> r.value[k] == DecodeWrapper(doc.value.fields.value[k]))
      && ("id" !in doc.value.fields.value ==> r.value["id"] == Str(LastSegment(doc.value.name.value)))
  {
    if doc.None? || doc.value.fields.None? then Success(map[])
    else if doc.value.name.None? then Failure("TypeError: Cannot read properties of undefined (reading 'split')")
    else Success(map["id" := Str(LastSegment(doc.value.name.value))] + DecodedFields(doc.value.fields.value))
  }

  /** The loop of `fromFirestoreFields` that starts from `{ id }` and copies every field's value. */
  method DecodeDocument(doc: Option<Document>) returns (r: Result<Record, string>)
    ensures r == DecodedDocument(doc)
  {
    if doc.None? || doc.value.fields.None? {
      return Success(map[]);
    }
    if doc.value.name.None? {
      return Failure("TypeError: Cannot read properties of undefined (reading 'split')");
    }
    var fields := doc.value.fields.value;
    var id := Str(LastSegment(doc.value.name.value));
    var obj: Record := map["id" := id];
    var todo := fields.Keys;
    while todo != {}
      invariant todo <= fields.Keys
      invariant obj.Keys == {"id"} + (fields.Keys - todo)
      invariant forall k :: k in fields && k !in todo ==> obj[k] == DecodeWrapper(fields[k])
      invariant "id" !in fields || "id" in todo ==> obj["id"] == id
      decreases |todo|
    {
      var k :| k in todo;
      obj := obj[k := DecodeWrapper(fields[k])];
      todo := todo - {k};
    }
    assert obj == map["id" := id] + DecodedFields(fields);
    return Success(obj);
  }

  /** A record of strings, numbers, booleans and nulls, with no `id` property. */
  predicate PlainRecord(r: Record)
  {
    "id" !in r && forall k :: k in r ==> r[k].Str? || r[k].Num? || r[k].Bool? || r[k].Null?
  }

  /** Round trip: a stored plain record reads back as itself plus the id from the document name. */
  lemma RoundTrip(name: string, r: Record)
    requires PlainRecord(r)
    ensures DecodedDocument(Some(Document(Some(name), Some(EncodedFields(r))))) == Success(r["id" := Str(LastSegment(name))])
  {
    var f := EncodedFields(r);
    assert f.Keys == r.Keys;
    assert DecodedFields(f) == r;
    assert map["id" := Str(LastSegment(name))] + r == r["id" := Str(LastSegment(name))];
  }

  /** A `Date` does not survive the round trip: it reads back as its ISO string. */
  lemma DateReadsBackAsString(name: string, r: Record, k: string)
    requires k in r && r[k].Date? && k != "id"
    ensures var d := DecodedDocument(Some(Document(Some(name), Some(EncodedFields(r)))));
      d.Success? && d.value[k] == Str(r[k].iso)
  {
  }

  /** Properties of kinds the encoder does not know (arrays, objects, `undefined`) are lost. */
  lemma UnencodableIsDropped(name: string, r: Record, k: string)
    requires k in r && !Encodable(r[k]) && k != "id"
    ensures var d := DecodedDocument(Some(Document(Some(name), Some(EncodedFields(r)))));
      d.Success? && k !in d.value
  {
  }

  /** The id of a decoded document: a field called `id` if there is one, else the last segment of
      the name; a document addressed as `<path>/<id>` without an `id` field reads back as that id. */
  lemma DecodedId(path: string, id: string, fields: Fields)
    requires '/' !in id
    ensures var d := DecodedDocument(Some(Document(Some(path + "/" + id), Some(fields))));
      d.Success? && d.value["id"] == if "id" in fields then DecodeWrapper(fields["id"]) else Str(id)
  {
    LastSegmentOf(path, id);
  }

  /** `https://firestore.googleapis.com/v1/projects/<project>/databases/(default)/documents/<path>`. */
  function DocumentsUrl(projectId: string, path: string): (u: string)
    ensures "https://firestore.googleapis.com/v1/projects/" + projectId + "/databases/(default)/documents/" <= u
    ensures EndsWith(u, "/" + path)
  {
    "https://firestore.googleapis.com/v1/projects/" + projectId + "/databases/(default)/documents/" + path
  }

  /** The URL of a document addresses it by its id: its last segment is the id. */
  lemma DocumentUrlEndsInId(projectId: string, collection: string, id: string)
    requires '/' !in id
    ensures LastSegment(DocumentsUrl(projectId, collection + "/" + id)) == id
  {
    assert DocumentsUrl(projectId, collection + "/" + id)
      == "https://firestore.googleapis.com/v1/projects/" + projectId + "/databases/(default)/documents/" + collection + "/" + id;
    LastSegmentOf("https://firestore.googleapis.com/v1/projects/" + projectId + "/databases/(default)/documents/" + collection, id);
  }

  /** `const { access_token } = answer`, in both clients: an object's property, `undefined` for
      any other non-null value; destructuring `null` or `undefined` throws a `TypeError` that
      names the destructured expression `subject`. */
  function AccessTokenProperty(v: Value, subject: string): (r: Result<Value, string>)
    ensures r.Failure? <==> v.Null? || v.Undefined?
    ensures v.Obj? ==> r == Success(Get(v.fields, "access_token"))
    ensures !v.Obj? && r.Success? ==> r.value == Undefined
  {
    match v
    case Null => Failure("TypeError: Cannot destructure property 'access_token' of '" + subject + "' as it is null.")
    case Undefined => Failure("TypeError: Cannot destructure property 'access_token' of '" + subject + "' as it is undefined.")
    case Obj(fields) => Success(Get(fields, "access_token"))
    case _ => Success(Undefined)
  }

  const TokenEndpoint := "https://oauth2.googleapis.com/token"
  const DatastoreScope := "https://www.googleapis.com/auth/datastore"

  /** The JWT claim set a service account signs to obtain an access token. */
  datatype Claims = Claims(iss: string, scope: string, aud: string, iat: int, exp: int)

  /** The claims minted at `iat` (seconds) for the account `clientEmail`: one hour of validity. */
  function ServiceAccountClaims(iat: int, clientEmail: string): (c: Claims)
    ensures c.exp - c.iat == 3600 && c.iat == iat
    ensures c.iss == clientEmail && c.aud == TokenEndpoint && c.scope == DatastoreScope
  {
    Claims(clientEmail, DatastoreScope, TokenEndpoint, iat, iat + 3600)
  }
}
