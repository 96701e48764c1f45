/** `IndividualMembershipCreate` of `src/endpoints/memberships/individualMembershipCreate.ts`: one
    application form uploaded, then one record written to `individualMemberships`. */
module IndividualMembership {
  import opened Wrappers
  import opened Values
  import opened Http
  import opened GitHubUpload
  import opened FormUploads

  /** The validated body. */
  datatype Input = Input(fullName: string, email: string, institution: string, phone: string,
                         applicationFormUri: string, applicationFormName: string)

  /** The input schema: names at least 2 characters, phone at least 10, a valid email, and two
      further strings. `None` is a rejected body. */
  function Validate(body: Record, isEmail: string -> bool): (r: Option<Input>)
    ensures r.Some? <==>
      && MinLength(body, "fullName", 2) && EmailField(body, "email", isEmail)
      && MinLength(body, "institution", 2) && MinLength(body, "phone", 10)
      && StringField(body, "applicationFormUri").Some? && StringField(body, "applicationFormName").Some?
    ensures r.Some? ==>
      && body["fullName"] == Str(r.value.fullName) && body["email"] == Str(r.value.email)
      && body["institution"] == Str(r.value.institution) && body["phone"] == Str(r.value.phone)
      && body["applicationFormUri"] == Str(r.value.applicationFormUri)
      && body["applicationFormName"] == Str(r.value.applicationFormName)
  {
    if && MinLength(body, "fullName", 2) && EmailField(body, "email", isEmail)
       && MinLength(body, "institution", 2) && MinLength(body, "phone", 10)
       && StringField(body, "applicationFormUri").Some? && StringField(body, "applicationFormName").Some?
    then Some(Input(body["fullName"].s, body["email"].s, body["institution"].s, body["phone"].s,
                    body["applicationFormUri"].s, body["applicationFormName"].s))
    else None
  }

  const SuccessMessage := "Application submitted successfully. A confirmation email has been sent."

  /** What the handler did: the upload it asked for, the write it asked for, and its reply
      (`Failure` when it threw). */
  datatype Run = Run(upload: UploadRequest, write: Option<StoreWrite>, outcome: Result<Reply, string>)

  /** `handle(c)` at clock `now` (ms) and ISO time `submittedAt`; `uploaded` is the upload's
      outcome and `stored` the write's. */
  function Handle(input: Input, now: nat, submittedAt: string, uploaded: Result<UploadResult, string>, stored: Result<(), string>): (r: Run)
    ensures r.upload == UploadRequest(Base64Payload(input.applicationFormUri), input.applicationFormName, StampedId(IndividualPrefix, now))
    ensures r.write.Some? <==> uploaded.Success?
    ensures uploaded.Failure? ==> r.outcome == Failure(uploaded.error)
    ensures uploaded.Success? ==> r.write.value.collection == "individualMemberships"
    ensures uploaded.Success? ==> var rec := r.write.value.record;
      && rec.Keys == {"applicationId", "fullName", "email", "institution", "phone", "status", "submittedAt", "document"}
      && rec["applicationId"] == Str(r.upload.registrationId)
      && rec["fullName"] == Str(input.fullName) && rec["email"] == Str(input.email)
      && rec["institution"] == Str(input.institution) && rec["phone"] == Str(input.phone)
      && rec["status"] == Str("Pending") && rec["submittedAt"] == Str(submittedAt)
      && rec["document"] == Obj(map["name" := Str("Application Form")] + UploadFields(uploaded.value))
    ensures uploaded.Success? && stored.Failure? ==> r.outcome == Failure(stored.error)
    ensures uploaded.Success? && stored.Success? ==>
      r.outcome == Success(Reply(201, Obj(map["applicationId" := Str(r.upload.registrationId), "message" := Str(SuccessMessage)])))
  {
    var applicationId := StampedId(IndividualPrefix, now);
    var upload := UploadRequest(Base64Payload(input.applicationFormUri), input.applicationFormName, applicationId);
    match uploaded
    case Failure(e) => Run(upload, None, Failure(e))
    case Success(form) =>
      var record := map[
        "applicationId" := Str(applicationId),
        "fullName" := Str(input.fullName),
        "email" := Str(input.email),
        "institution" := Str(input.institution),
        "phone" := Str(input.phone),
        "status" := Str("Pending"),
        "submittedAt" := Str(submittedAt),
        "document" := Obj(map["name" := Str("Application Form"), "html_url" := Str(form.htmlUrl), "download_url" := Str(form.downloadUrl)])];
      Run(upload, Some(StoreWrite("individualMemberships", record)),
          match stored
          case Failure(e) => Failure(e)
          case Success(_) => Success(Reply(201, Obj(map["applicationId" := Str(applicationId), "message" := Str(SuccessMessage)]))))
  }

  /** A base64 data URI hands the upload exactly its data, and the reply names the identifier the
      file was filed under. */
  lemma FormDataIsUploaded(input: Input, mediaType: string, data: string, now: nat, submittedAt: string, form: UploadResult)
    requires input.applicationFormUri == "data:" + mediaType + ";base64," + data
    requires ',' !in mediaType && ',' !in data
    ensures Handle(input, now, submittedAt, Success(form), Success(())).upload.content == Some(data)
    ensures Handle(input, now, submittedAt, Success(form), Success(())).outcome.value.body.fields["applicationId"]
         == Str(Handle(input, now, submittedAt, Success(form), Success(())).upload.registrationId)
  {
    DataUriPayloads(mediaType, data);
  }
}
