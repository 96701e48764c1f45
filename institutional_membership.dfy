/** `InstitutionalMembershipCreate` of `src/endpoints/memberships/institutionalMembershipCreate.ts`:
    four documents uploaded, then one record written to `institutionalMemberships`. */
module InstitutionalMembership {
  import opened Wrappers
  import opened Values
  import opened Http
  import opened GitHubUpload
  import opened FormUploads

  /** The validated body. */
  datatype Input = Input(institutionName: string, contactPerson: string, email: string, contactNumber: string,
                         letterOfIntentUri: string, letterOfIntentName: string,
                         registrationUri: string, registrationName: string,
                         facultyListUri: string, facultyListName: string,
                         applicationFormUri: string, applicationFormName: string)

  /** The input schema: names at least 2 characters, contact number at least 10, a valid email,
      every URI starting with `data:` and every file name non-empty. */
  function Validate(body: Record, isEmail: string -> bool): (r: Option<Input>)
    ensures r.Some? <==>
      && MinLength(body, "institutionName", 2) && MinLength(body, "contactPerson", 2)
      && EmailField(body, "email", isEmail) && MinLength(body, "contactNumber", 10)
      && StartsWith(body, "letterOfIntentUri", "data:") && MinLength(body, "letterOfIntentName", 1)
      && StartsWith(body, "registrationUri", "data:") && MinLength(body, "registrationName", 1)
      && StartsWith(body, "facultyListUri", "data:") && MinLength(body, "facultyListName", 1)
      && StartsWith(body, "applicationFormUri", "data:") && MinLength(body, "applicationFormName", 1)
    ensures r.Some? ==> forall i :: 0 <= i < 4 ==>
      && "data:" <= Uris(r.value)[i] && |FileNames(r.value)[i]| >= 1
    ensures r.Some? ==>
      && body["institutionName"] == Str(r.value.institutionName) && body["contactPerson"] == Str(r.value.contactPerson)
      && body["email"] == Str(r.value.email) && isEmail(r.value.email) && body["contactNumber"] == Str(r.value.contactNumber)
    ensures r.Some? ==> forall i :: 0 <= i < 4 ==>
      && body[UriKeys[i]] == Str(Uris(r.value)[i]) && body[NameKeys[i]] == Str(FileNames(r.value)[i])
  {
    if && MinLength(body, "institutionName", 2) && MinLength(body, "contactPerson", 2)
       && EmailField(body, "email", isEmail) && MinLength(body, "contactNumber", 10)
       && StartsWith(body, "letterOfIntentUri", "data:") && MinLength(body, "letterOfIntentName", 1)
       && StartsWith(body, "registrationUri", "data:") && MinLength(body, "registrationName", 1)
       && StartsWith(body, "facultyListUri", "data:") && MinLength(body, "facultyListName", 1)
       && StartsWith(body, "applicationFormUri", "data:") && MinLength(body, "applicationFormName", 1)
    then Some(Input(body["institutionName"].s, body["contactPerson"].s, body["email"].s, body["contactNumber"].s,
                    body["letterOfIntentUri"].s, body["letterOfIntentName"].s,
                    body["registrationUri"].s, body["registrationName"].s,
                    body["facultyListUri"].s, body["facultyListName"].s,
                    body["applicationFormUri"].s, body["applicationFormName"].s))
    else None
  }

  /** The four documents, in upload order. */
  function Uris(input: Input): seq<string>
  {
    [input.letterOfIntentUri, input.registrationUri, input.facultyListUri, input.applicationFormUri]
  }

  function FileNames(input: Input): seq<string>
  {
    [input.letterOfIntentName, input.registrationName, input.facultyListName, input.applicationFormName]
  }

  /** The body properties the four documents come from, in upload order. */
  const UriKeys: seq<string> := ["letterOfIntentUri", "registrationUri", "facultyListUri", "applicationFormUri"]
  const NameKeys: seq<string> := ["letterOfIntentName", "registrationName", "facultyListName", "applicationFormName"]

  const DocumentNames: seq<string> := ["Letter of Intent", "SEC/CDA Registration", "Faculty List", "Application Form"]

  const SuccessMessage := "Application submitted successfully."

  /** How `Promise.all` settles on uploads started together: the first failure, taken in list
      order, or `None` when every upload succeeded. */
  function FirstFailure(results: seq<Result<UploadResult, string>>): (e: Option<string>)
    ensures e.None? <==> forall i :: 0 <= i < |results| ==> results[i].Success?
    ensures e.Some? ==> exists i :: 0 <= i < |results| && results[i] == Failure(e.value) &&
                                    forall j :: 0 <= j < i ==> results[j].Success?
  {
    if |results| == 0 then None
    else if results[0].Failure? then Some(results[0].error)
    else
      var rest := FirstFailure(results[1..]);
      if rest.Some? then
        ghost var i :| 0 <= i < |results[1..]| && results[1..][i] == Failure(rest.value) &&
                       forall j :: 0 <= j < i ==> results[1..][j].Success?;
        assert results[i + 1] == Failure(rest.value);
        rest
      else rest
  }

  /** `documents: [{ name: 'Letter of Intent', ...letterUpload }, …]`: the four results bound by
      position to the four fixed names. */
  function Documents(uploaded: seq<Result<UploadResult, string>>): (docs: seq<Value>)
    requires |uploaded| == 4 && forall i :: 0 <= i < 4 ==> uploaded[i].Success?
    ensures |docs| == 4
    ensures forall i :: 0 <= i < 4 ==> docs[i] == Obj(map["name" := Str(DocumentNames[i])] + UploadFields(uploaded[i].value))
  {
    var letterUpload, regUpload, facultyUpload, appFormUpload := uploaded[0].value, uploaded[1].value, uploaded[2].value, uploaded[3].value;
    [Obj(map["name" := Str("Letter of Intent")] + UploadFields(letterUpload)),
     Obj(map["name" := Str("SEC/CDA Registration")] + UploadFields(regUpload)),
     Obj(map["name" := Str("Faculty List")] + UploadFields(facultyUpload)),
     Obj(map["name" := Str("Application Form")] + UploadFields(appFormUpload))]
  }

  /** The record handed to `collection('institutionalMemberships').add`. */
  function StoredRecord(input: Input, applicationId: string, submittedAt: string, documents: seq<Value>): (rec: Record)
    ensures rec.Keys == {"applicationId", "institutionName", "contactPerson", "email", "contactNumber", "status", "submittedAt", "documents"}
    ensures rec["applicationId"] == Str(applicationId) && rec["status"] == Str("Pending") && rec["submittedAt"] == Str(submittedAt)
    ensures rec["institutionName"] == Str(input.institutionName) && rec["contactPerson"] == Str(input.contactPerson)
    ensures rec["email"] == Str(input.email) && rec["contactNumber"] == Str(input.contactNumber)
    ensures rec["documents"] == Arr(documents)
  {
    map[
      "applicationId" := Str(applicationId),
      "institutionName" := Str(input.institutionName),
      "contactPerson" := Str(input.contactPerson),
      "email" := Str(input.email),
      "contactNumber" := Str(input.contactNumber),
      "status" := Str("Pending"),
      "submittedAt" := Str(submittedAt),
      "documents" := Arr(documents)]
  }

  /** What the handler did: the four uploads, the write it asked for, and its reply (`Failure`
      when it threw). */
  datatype Run = Run(uploads: seq<UploadRequest>, write: Option<StoreWrite>, outcome: Result<Reply, string>)

  /** `handle(c)` at clock `now` (ms) and ISO time `submittedAt`; `uploaded` lists the four
      uploads' outcomes in the order they were started, `stored` is the write's. */
  function Handle(input: Input, now: nat, submittedAt: string, uploaded: seq<Result<UploadResult, string>>, stored: Result<(), string>): (r: Run)
    requires |uploaded| == 4
    ensures |r.uploads| == 4
    ensures forall i :: 0 <= i < 4 ==>
      r.uploads[i] == UploadRequest(CommaPayload(Uris(input)[i]), FileNames(input)[i], StampedId(InstitutionalPrefix, now))
    ensures r.write.Some? <==> forall i :: 0 <= i < 4 ==> uploaded[i].Success?
    ensures r.write.None? ==> r.outcome == Failure(FirstFailure(uploaded).value)
    ensures r.write.Some? ==>
      r.write.value == StoreWrite("institutionalMemberships", StoredRecord(input, StampedId(InstitutionalPrefix, now), submittedAt, Documents(uploaded)))
    ensures r.write.Some? && stored.Failure? ==> r.outcome == Failure(stored.error)
    ensures r.write.Some? && stored.Success? ==>
      r.outcome == Success(Reply(201, Obj(map["applicationId" := Str(StampedId(InstitutionalPrefix, now)), "message" := Str(SuccessMessage)])))
  {
    var applicationId := StampedId(InstitutionalPrefix, now);
    var uploads := [
      UploadRequest(CommaPayload(input.letterOfIntentUri), input.letterOfIntentName, applicationId),
      UploadRequest(CommaPayload(input.registrationUri), input.registrationName, applicationId),
      UploadRequest(CommaPayload(input.facultyListUri), input.facultyListName, applicationId),
      UploadRequest(CommaPayload(input.applicationFormUri), input.applicationFormName, applicationId)];
    var failed := FirstFailure(uploaded);
    if failed.Some? then Run(uploads, None, Failure(failed.value))
    else
      Run(uploads, Some(StoreWrite("institutionalMemberships", StoredRecord(input, applicationId, submittedAt, Documents(uploaded)))),
          match stored
          case Failure(e) => Failure(e)
          case Success(_) => Success(Reply(201, Obj(map["applicationId" := Str(applicationId), "message" := Str(SuccessMessage)]))))
  }

  /** Each stored document keeps the URLs of its own upload and nothing else: the name is never
      overwritten, since an upload result has no `name`. */
  lemma DocumentsKeepTheirNames(input: Input, now: nat, submittedAt: string, uploaded: seq<Result<UploadResult, string>>, stored: Result<(), string>, i: nat)
    requires |uploaded| == 4 && i < 4
    requires forall j :: 0 <= j < 4 ==> uploaded[j].Success?
    ensures var doc := Handle(input, now, submittedAt, uploaded, stored).write.value.record["documents"].elems[i].fields;
      && doc.Keys == {"name", "html_url", "download_url"}
      && doc["name"] == Str(DocumentNames[i])
      && doc["html_url"] == Str(uploaded[i].value.htmlUrl)
      && doc["download_url"] == Str(uploaded[i].value.downloadUrl)
  {
    var doc := Handle(input, now, submittedAt, uploaded, stored).write.value.record["documents"].elems[i].fields;
    assert doc == map["name" := Str(DocumentNames[i])] + UploadFields(uploaded[i].value);
    assert "name" !in UploadFields(uploaded[i].value);
  }

  /** A failed upload stops the handler before the write, with the first failure in list order. */
  lemma FailedUploadStopsWrite(input: Input, now: nat, submittedAt: string, uploaded: seq<Result<UploadResult, string>>, stored: Result<(), string>, k: nat, e: string)
    requires |uploaded| == 4 && k < 4 && uploaded[k] == Failure(e)
    requires forall j :: 0 <= j < k ==> uploaded[j].Success?
    ensures Handle(input, now, submittedAt, uploaded, stored).write.None?
    ensures Handle(input, now, submittedAt, uploaded, stored).outcome == Failure(e)
  {
    var f := FirstFailure(uploaded);
    var i :| 0 <= i < |uploaded| && uploaded[i] == Failure(f.value) && forall j :: 0 <= j < i ==> uploaded[j].Success?;
    assert i == k;
  }
}
