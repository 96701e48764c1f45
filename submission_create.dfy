/** `SubmissionCreate` of `src/endpoints/submissions/submissionCreate.ts`: two files uploaded in
    turn, then one row inserted into the `submissions` table. */
module SubmissionCreate {
  import opened Wrappers
  import opened Values
  import opened GitHubUpload
  import opened FormUploads

  /** The validated body; `coAuthors` is the only optional property. */
  datatype Input = Input(fullName: string, email: string, contactNumber: string, institution: string,
                         researchTitle: string, bionote: string, coAuthors: Option<string>, keywords: string,
                         abstractFileDataUri: string, abstractFileName: string,
                         proofOfPaymentDataUri: string, proofOfPaymentFileName: string)

  /** `z.string().optional()`: absent (or `undefined`) is accepted as `None`. */
  function OptionalString(body: Record, k: string): (r: Option<Option<string>>)
    ensures r == Some(None) <==> Get(body, k) == Undefined
    ensures forall s :: r == Some(Some(s)) <==> Get(body, k) == Str(s)
  {
    match Get(body, k)
    case Undefined => Some(None)
    case Str(s) => Some(Some(s))
    case _ => None
  }

  /** The input schema: every property a string, `email` a valid address, `coAuthors` optional. */
  function Validate(body: Record, isEmail: string -> bool): (r: Option<Input>)
    ensures r.Some? <==>
      && StringField(body, "fullName").Some? && EmailField(body, "email", isEmail)
      && StringField(body, "contactNumber").Some? && StringField(body, "institution").Some?
      && StringField(body, "researchTitle").Some? && StringField(body, "bionote").Some?
      && OptionalString(body, "coAuthors").Some? && StringField(body, "keywords").Some?
      && StringField(body, "abstractFileDataUri").Some? && StringField(body, "abstractFileName").Some?
      && StringField(body, "proofOfPaymentDataUri").Some? && StringField(body, "proofOfPaymentFileName").Some?
    ensures r.Some? ==> isEmail(r.value.email) && Get(body, "email") == Str(r.value.email)
    ensures r.Some? ==> (r.value.coAuthors.None? <==> Get(body, "coAuthors") == Undefined)
    ensures r.Some? && r.value.coAuthors.Some? ==> Get(body, "coAuthors") == Str(r.value.coAuthors.value)
    ensures r.Some? ==>
      && body["fullName"] == Str(r.value.fullName) && body["contactNumber"] == Str(r.value.contactNumber)
      && body["institution"] == Str(r.value.institution) && body["researchTitle"] == Str(r.value.researchTitle)
      && body["bionote"] == Str(r.value.bionote) && body["keywords"] == Str(r.value.keywords)
      && body["abstractFileDataUri"] == Str(r.value.abstractFileDataUri)
      && body["abstractFileName"] == Str(r.value.abstractFileName)
      && body["proofOfPaymentDataUri"] == Str(r.value.proofOfPaymentDataUri)
      && body["proofOfPaymentFileName"] == Str(r.value.proofOfPaymentFileName)
  {
    if && StringField(body, "fullName").Some? && EmailField(body, "email", isEmail)
       && StringField(body, "contactNumber").Some? && StringField(body, "institution").Some?
       && StringField(body, "researchTitle").Some? && StringField(body, "bionote").Some?
       && OptionalString(body, "coAuthors").Some? && StringField(body, "keywords").Some?
       && StringField(body, "abstractFileDataUri").Some? && StringField(body, "abstractFileName").Some?
       && StringField(body, "proofOfPaymentDataUri").Some? && StringField(body, "proofOfPaymentFileName").Some?
    then Some(Input(body["fullName"].s, body["email"].s, body["contactNumber"].s, body["institution"].s,
                    body["researchTitle"].s, body["bionote"].s, OptionalString(body, "coAuthors").value, body["keywords"].s,
                    body["abstractFileDataUri"].s, body["abstractFileName"].s,
                    body["proofOfPaymentDataUri"].s, body["proofOfPaymentFileName"].s))
    else None
  }

  /** The columns of the `INSERT`, in statement order. */
  const Columns: seq<string> := [
    "registration_id", "full_name", "email", "contact_number", "institution", "research_title",
    "bionote", "co_authors", "keywords", "status", "abstract_name", "abstract_html_url",
    "abstract_download_url", "proof_of_payment_name", "proof_of_payment_html_url",
    "proof_of_payment_download_url"]

  /** `body.coAuthors || 'N/A'`. */
  function CoAuthorsOrDefault(coAuthors: Option<string>): (s: string)
    ensures s == "N/A" <==> coAuthors.None? || coAuthors.value == "" || coAuthors.value == "N/A"
    ensures s != "N/A" ==> coAuthors == Some(s)
  {
    if coAuthors.Some? && coAuthors.value != "" then coAuthors.value else "N/A"
  }

  /** The reference reading of a row: the value each column receives, by column name. */
  function ColumnValue(column: string, registrationId: string, input: Input, abstractUpload: UploadResult, paymentUpload: UploadResult): string
  {
    match column
    case "registration_id" => registrationId
    case "full_name" => input.fullName
    case "email" => input.email
    case "contact_number" => input.contactNumber
    case "institution" => input.institution
    case "research_title" => input.researchTitle
    case "bionote" => input.bionote
    case "co_authors" => CoAuthorsOrDefault(input.coAuthors)
    case "keywords" => input.keywords
    case "status" => "Pending Review"
    case "abstract_name" => input.abstractFileName
    case "abstract_html_url" => abstractUpload.htmlUrl
    case "abstract_download_url" => abstractUpload.downloadUrl
    case "proof_of_payment_name" => input.proofOfPaymentFileName
    case "proof_of_payment_html_url" => paymentUpload.htmlUrl
    case "proof_of_payment_download_url" => paymentUpload.downloadUrl
    case _ => ""
  }

  /** The sixteen values passed to `.bind(...)`, in argument order. */
  function Bound(registrationId: string, input: Input, abstractUpload: UploadResult, paymentUpload: UploadResult): (values: seq<string>)
    ensures |values| == |Columns|
    ensures forall i :: 0 <= i < |Columns| ==> values[i] == ColumnValue(Columns[i], registrationId, input, abstractUpload, paymentUpload)
  {
    [registrationId, input.fullName, input.email, input.contactNumber, input.institution,
     input.researchTitle, input.bionote, CoAuthorsOrDefault(input.coAuthors), input.keywords,
     "Pending Review", input.abstractFileName, abstractUpload.htmlUrl, abstractUpload.downloadUrl,
     input.proofOfPaymentFileName, paymentUpload.htmlUrl, paymentUpload.downloadUrl]
  }

  /** `INSERT INTO submissions (columns) VALUES (?, …)` with its bound values. */
  datatype Insert = Insert(table: string, columns: seq<string>, values: seq<string>)

  const SuccessMessage := "Registration successful. Please check your email for confirmation."

  /** What the handler did: the uploads it asked for, in order, the insert, and its result
      (`Failure` when it threw). */
  datatype Run = Run(uploads: seq<UploadRequest>, insert: Option<Insert>, outcome: Result<Value, string>)

  /** `handle(c)` at clock `now` (ms); `abstractUploaded` and `paymentUploaded` are the two uploads'
      outcomes and `ran` the statement's. */
  function Handle(input: Input, now: nat, abstractUploaded: Result<UploadResult, string>, paymentUploaded: Result<UploadResult, string>, ran: Result<(), string>): (r: Run)
    ensures 1 <= |r.uploads| <= 2
    ensures r.uploads[0] == UploadRequest(Base64Payload(input.abstractFileDataUri), input.abstractFileName, StampedId(SubmissionPrefix, now))
    ensures |r.uploads| == 2 <==> abstractUploaded.Success?
    ensures |r.uploads| == 2 ==> r.uploads[1] == UploadRequest(Base64Payload(input.proofOfPaymentDataUri), input.proofOfPaymentFileName, StampedId(SubmissionPrefix, now))
    ensures r.insert.Some? <==> abstractUploaded.Success? && paymentUploaded.Success?
    ensures abstractUploaded.Failure? ==> r.outcome == Failure(abstractUploaded.error)
    ensures abstractUploaded.Success? && paymentUploaded.Failure? ==> r.outcome == Failure(paymentUploaded.error)
    ensures r.insert.Some? ==> r.insert.value.table == "submissions" && r.insert.value.columns == Columns
    ensures r.insert.Some? ==> r.insert.value.values == Bound(StampedId(SubmissionPrefix, now), input, abstractUploaded.value, paymentUploaded.value)
    ensures r.insert.Some? && ran.Failure? ==> r.outcome == Failure(ran.error)
    ensures r.insert.Some? && ran.Success? ==>
      r.outcome == Success(Obj(map["registrationId" := Str(StampedId(SubmissionPrefix, now)), "message" := Str(SuccessMessage)]))
  {
    var registrationId := StampedId(SubmissionPrefix, now);
    var first := UploadRequest(Base64Payload(input.abstractFileDataUri), input.abstractFileName, registrationId);
    match abstractUploaded
    case Failure(e) => Run([first], None, Failure(e))
    case Success(abstractUpload) =>
      var second := UploadRequest(Base64Payload(input.proofOfPaymentDataUri), input.proofOfPaymentFileName, registrationId);
      match paymentUploaded
      case Failure(e) => Run([first, second], None, Failure(e))
      case Success(paymentUpload) =>
        var insert := Insert("submissions", Columns, Bound(registrationId, input, abstractUpload, paymentUpload));
        Run([first, second], Some(insert),
            match ran
            case Failure(e) => Failure(e)
            case Success(_) => Success(Obj(map["registrationId" := Str(registrationId), "message" := Str(SuccessMessage)])))
  }

  /** Every column is named once, so reading a row by column name is unambiguous. */
  lemma ColumnsDistinct()
    ensures forall i, j :: 0 <= i < j < |Columns| ==> Columns[i] != Columns[j]
  {
  }

  /** The stored row is status `Pending Review`, with `N/A` for missing or empty co-authors and
      the URLs of the matching uploads. */
  lemma StoredRow(input: Input, now: nat, abstractUpload: UploadResult, paymentUpload: UploadResult, ran: Result<(), string>)
    ensures var row := Handle(input, now, Success(abstractUpload), Success(paymentUpload), ran).insert.value.values;
      && row[9] == "Pending Review"
      && (input.coAuthors.None? || input.coAuthors == Some("") ==> row[7] == "N/A")
      && row[11] == abstractUpload.htmlUrl && row[12] == abstractUpload.downloadUrl
      && row[14] == paymentUpload.htmlUrl && row[15] == paymentUpload.downloadUrl
      && row[0] == StampedId(SubmissionPrefix, now)
  {
  }
}
