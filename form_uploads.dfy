/** What the three form handlers share: validated string fields, data-URI payloads, the upload
    requests they make and the identifiers they mint from the clock. */
module FormUploads {
  import opened Wrappers
  import opened Strings
  import opened Values
  import opened GitHubUpload

  /** A required `z.string()` property: its text, or `None` when it is missing or not a string. */
  function StringField(body: Record, k: string): (r: Option<string>)
    ensures r.Some? <==> k in body && body[k].Str?
    ensures r.Some? ==> body[k] == Str(r.value)
  {
    if k in body && body[k].Str? then Some(body[k].s) else None
  }

  /** `z.string().min(n)`: the string's length in UTF-16 code units is at least `n`. */
  predicate MinLength(body: Record, k: string, n: nat)
  {
    StringField(body, k).Some? && Utf16Length(StringField(body, k).value) >= n
  }

  /** `z.string().startsWith(prefix)`. */
  predicate StartsWith(body: Record, k: string, prefix: string)
  {
    StringField(body, k).Some? && prefix <= StringField(body, k).value
  }

  /** `z.string().email()`, with the format test given as `isEmail`. */
  predicate EmailField(body: Record, k: string, isEmail: string -> bool)
  {
    StringField(body, k).Some? && isEmail(StringField(body, k).value)
  }

  /** One `uploadToGitHub(content, fileName, registrationId, env)` call; `content` is `None` for
      `undefined`. */
  datatype UploadRequest = UploadRequest(content: Option<string>, fileName: string, registrationId: string)

  /** `uri.split("base64,")[1]`. */
  function Base64Payload(uri: string): (r: Option<string>)
    ensures r.None? <==> forall i: nat :: !OccursAt(uri, "base64,", i)
  {
    SplitCount(uri, "base64,");
    Part(uri, "base64,", 1)
  }

  /** `const [, base64] = uri.split(',')`. */
  function CommaPayload(uri: string): (r: Option<string>)
    ensures r.None? <==> ',' !in uri
    ensures r.Some? ==> ',' !in r.value
  {
    SplitCharPieces(uri, ',');
    Part(uri, ",", 1)
  }

  /** For a base64 data URI whose media type and data hold no comma, both ways of cutting it
      give the data. */
  lemma DataUriPayloads(mediaType: string, data: string)
    requires ',' !in mediaType && ',' !in data
    ensures Base64Payload("data:" + mediaType + ";base64," + data) == Some(data)
    ensures CommaPayload("data:" + mediaType + ";base64," + data) == Some(data)
  {
    var uri := "data:" + mediaType + ";base64," + data;
    var head := "data:" + mediaType + ";";
    assert uri == head + "base64," + data;
    assert ',' !in "base64";
    SplitAfterPrefix(head, "base64,", data);
    SplitWithoutSeparator(data, "base64,");
    var beforeComma := head + "base64";
    assert uri == beforeComma + [','] + data;
    SplitCharConcat(beforeComma, ',', data);
    SplitWithoutSeparator(beforeComma, ",");
    SplitWithoutSeparator(data, ",");
  }

  /** The two cuts differ on a URI that is not base64 (its media type, read up to the comma,
      does not end in `base64`): the comma cut still finds the data, the base64 cut finds
      nothing and passes `undefined` on. */
  lemma PlainDataUriPayloads(mediaType: string, data: string)
    requires ',' !in mediaType && ',' !in data && !EndsWith("data:" + mediaType, "base64")
    ensures Base64Payload("data:" + mediaType + "," + data) == None
    ensures CommaPayload("data:" + mediaType + "," + data) == Some(data)
  {
    var head := "data:" + mediaType;
    var uri := head + [','] + data;
    assert uri == "data:" + mediaType + "," + data;
    assert ',' !in head by {
      forall i | 0 <= i < |head| ensures head[i] != ',' {
        if i >= 5 { assert head[i] == mediaType[i - 5]; }
      }
    }
    SplitCharConcat(head, ',', data);
    SplitWithoutSeparator(head, ",");
    SplitWithoutSeparator(data, ",");
    forall i: nat ensures !OccursAt(uri, "base64,", i) {
      if i + 7 > |uri| {
      } else if i + 6 < |head| {
        assert uri[i..i + 7][6] == head[i + 6];
      } else if i + 6 > |head| {
        assert uri[i..i + 7][6] == data[i + 6 - |head| - 1];
      } else {
        assert uri[i..i + 7][..6] == head[|head| - 6..];
      }
    }
    SplitWithoutOccurrence(uri, "base64,");
  }

  /** `{ ...upload }` of an upload result: its two URLs. */
  function UploadFields(u: UploadResult): (r: Record)
    ensures r.Keys == {"html_url", "download_url"}
    ensures r["html_url"] == Str(u.htmlUrl) && r["download_url"] == Str(u.downloadUrl)
  {
    map["html_url" := Str(u.htmlUrl), "download_url" := Str(u.downloadUrl)]
  }

  /** `${prefix}${Date.now()}`. */
  function StampedId(prefix: string, now: nat): (id: string)
    ensures prefix <= id && |id| > |prefix| && IsDigits(id[|prefix|..])
  {
    prefix + NatToString(now)
  }

  const IndividualPrefix := "PACUIT-INDIV-"
  const InstitutionalPrefix := "PACUIT-INST-"
  const SubmissionPrefix := "PACUIT2025-"

  /** Two identifiers with the same prefix are equal only when minted at the same millisecond. */
  lemma StampedIdInjective(prefix: string, a: nat, b: nat)
    requires StampedId(prefix, a) == StampedId(prefix, b)
    ensures a == b
  {
    assert NatToString(a) == StampedId(prefix, a)[|prefix|..];
    assert NatToString(b) == StampedId(prefix, b)[|prefix|..];
    if a != b {
      NatToStringInjective(a, b);
    }
  }

  /** The three kinds of identifier never collide, whatever the clocks read. */
  lemma StampedIdsDistinct(a: nat, b: nat)
    ensures StampedId(IndividualPrefix, a) != StampedId(InstitutionalPrefix, b)
    ensures StampedId(IndividualPrefix, a) != StampedId(SubmissionPrefix, b)
    ensures StampedId(InstitutionalPrefix, a) != StampedId(SubmissionPrefix, b)
    ensures StampedId(InstitutionalPrefix, a) != StampedId(IndividualPrefix, b)
    ensures StampedId(SubmissionPrefix, a) != StampedId(IndividualPrefix, b)
    ensures StampedId(SubmissionPrefix, a) != StampedId(InstitutionalPrefix, b)
  {
    assert StampedId(IndividualPrefix, a)[9] == 'D' && StampedId(InstitutionalPrefix, b)[9] == 'S';
    assert StampedId(IndividualPrefix, a)[6] == '-' && StampedId(SubmissionPrefix, b)[6] == '2';
    assert StampedId(InstitutionalPrefix, a)[6] == '-' && StampedId(SubmissionPrefix, b)[6] == '2';
    assert StampedId(InstitutionalPrefix, a)[9] == 'S' && StampedId(IndividualPrefix, b)[9] == 'D';
    assert StampedId(SubmissionPrefix, a)[6] == '2' && StampedId(IndividualPrefix, b)[6] == '-';
    assert StampedId(SubmissionPrefix, a)[6] == '2' && StampedId(InstitutionalPrefix, b)[6] == '-';
  }

  /** The document-store write a handler asks for: `collection(name).add(record)`. */
  datatype StoreWrite = StoreWrite(collection: string, record: Record)
}
