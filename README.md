# A Dafny model of the chanfana-openapi worker core

The worker keeps tasks and users as issues of a Git hosting repository and stores form
submissions (individual and institutional membership applications, conference submissions) by
uploading their files to the repository's contents API and writing a record to a document store
or an SQL table. This project models the deterministic core of that system and proves what
it promises:

- the Firestore value codec (`toFirestoreFields` / `fromFirestoreFields`), its round trip, and the
  `Firestore` class's two-field access-token cache (modules `FirestoreCodec`, `FirestoreClient`,
  `FirestoreRest`);
- the single lookup-then-write upload procedure (`GitHubUpload`);
- the issue-to-record mappings of the issue client class and of the issue helpers, with their
  URLs, payloads, label query and the 404 rule (`GitHubClient`, `GitHubIssues`, `IssueTracker`);
- the create handlers for tasks and users, the two membership handlers and the submission
  handler: validation, identifiers minted from the clock, data-URI payloads, stored records and
  the bound row (`TaskCreate`, `UserCreate`, `FormUploads`, `IndividualMembership`,
  `InstitutionalMembership`, `SubmissionCreate`);
- the in-memory issue store the integration tests use as a stand-in, as a class whose methods
  change its array and counter in place (`RecordStore`).

JavaScript values are the datatype `Values.Value`; a plain object is a `map<string, Value>`, so a
spread `{...a, ...b}` is `a + b`. JSON text is abstracted as `Values.JsonText`: either what
`JSON.stringify` produced for a value, which `JSON.parse` gives back, or some other text, which
it rejects. Every network call is an input: the model receives the response (status, status
text, body) and returns the requests it made together with its result or the message it throws.
The clock (`Date.now()`, `toISOString()`) and the email-format test are inputs as well.

The access-token cache is modelled as written: it stores `Math.floor(now / 1000) + 3500`
(seconds) and compares it against `Date.now()` (milliseconds), so once the clock reads more than
a few seconds past the epoch a cached token is never reused (`FirestoreClient.RefreshedTokenNeverReused`).

## Model

| member | source | states |
|---|---|---|
| FirestoreCodec.EncodeValue | src/lib/firestore.ts:12-16 | strings, numbers, booleans, dates and null get exactly one wrapper entry, other kinds none; the entry's key is `stringValue`, `doubleValue`, `booleanValue`, `timestampValue` or `nullValue` by kind, and its value is the value itself, a date as its ISO text |
| FirestoreCodec.DecodeWrapper | src/lib/firestore.ts:32-33 | a wrapper reads back as the value under its first key, `undefined` when it has none; RoundTrip and DateReadsBackAsString are its partner lemmas |
| FirestoreCodec.EncodeFields | src/lib/firestore.ts:10-19 | the loop's result has exactly the input keys whose values are encodable, each under its own wrapper, and nothing else |
| FirestoreCodec.DecodeDocument | src/lib/firestore.ts:23-35 | the loop builds the reference decoding: `{}` for a missing document or one without fields, else the id from the name overlaid by the decoded fields |
| FirestoreCodec.DecodedDocument | src/lib/firestore.ts:23-35 | fails exactly when a document with fields has no name; `{}` for a missing document or one without fields; otherwise the fields' keys plus `id`, each field its wrapper's first value, and `id` the name's last segment unless a field overrides it |
| FirestoreCodec.RoundTrip | src/lib/firestore.ts:11-34 | a record of strings, numbers, booleans and nulls without an `id` key, encoded and decoded under a document name, comes back unchanged plus the name's last segment as `id` |
| FirestoreCodec.DateReadsBackAsString | src/lib/firestore.ts:15 | a date property reads back as the string of its ISO text, not as a date |
| FirestoreCodec.UnencodableIsDropped | src/lib/firestore.ts:11-18 | an array, object or undefined property is absent after the round trip |
| FirestoreCodec.DecodedId | src/lib/firestore.ts:28-33 | the decoded id is the text after the last slash of the name unless a field named `id` overwrites it |
| FirestoreCodec.DocumentsUrl | src/lib/firestore.ts:88-90 | the URL starts with the project's `/databases/(default)/documents/` path and ends in a slash followed by the document path; DocumentUrlEndsInId is its partner lemma |
| FirestoreCodec.DocumentUrlEndsInId | src/lib/firestore.ts:88-90 | the document URL for `collection/id` ends in the segment `id` |
| FirestoreCodec.ServiceAccountClaims | src/lib/firestore.ts:58-64 | the JWT claims expire 3600 s after issue, are issued by the client email, for the token endpoint and the datastore scope |
| FirestoreClient.ToFirestoreFields | src/lib/firestore.ts:6-20 | a null or undefined record encodes to no fields; any other record to its encoding |
| FirestoreClient.Exchanged | src/lib/firestore.ts:75-85 | the body is parsed before `resp.ok` is tested, so a non-JSON answer throws the parser's error whatever the status; a token comes back exactly when the answer parses, is ok and has a non-empty string `access_token`; a non-ok answer throws `Failed to get access token: ` and the re-serialised body, a `null` body throws the destructuring `TypeError`, any other tokenless answer throws `access_token not found in response: ` and the re-serialised body |
| FirestoreCodec.AccessTokenProperty | src/lib/firestore.ts:80 | destructuring the answer, in either client, throws a `TypeError` exactly for `null` and `undefined`; an object gives its `access_token` property, any other value `undefined` |
| FirestoreClient.CacheHit | src/lib/firestore.ts:48 | the cached token is used exactly when it is a non-empty string and the clock is below the stored expiry; RefreshedTokenNeverReused and CachedTokenIgnoresExchange are its partner lemmas |
| FirestoreClient.TokenOutcome | src/lib/firestore.ts:47-86 | a cache hit yields the cached token whatever the exchange; a miss yields exactly the exchange's outcome |
| FirestoreClient.RefreshedExpiry | src/lib/firestore.ts:52-53 | the stored expiry is `floor(now / 1000) + 3500`: dividing it back gives the second the clock reading falls in |
| FirestoreClient.DecodeAll | src/lib/firestore.ts:123 | every document decoded, order and length kept; fails exactly when one of them fails |
| FirestoreClient.Firestore.constructor | src/lib/firestore.ts:38-45 | a fresh client has no token and expiry 0 |
| FirestoreClient.Firestore.GetAccessToken | src/lib/firestore.ts:47-86 | a cache hit returns the cached token and changes nothing; otherwise the expiry is rewritten first, the claims are signed, and the token field changes only on a successful exchange |
| FirestoreClient.Firestore.GetUrl | src/lib/firestore.ts:88-90 | the URL starts with the project's path and ends in `/databases/(default)/documents/` followed by the path |
| FirestoreClient.Firestore.Request | src/lib/firestore.ts:92-108 | no call without a token; the call carries `Bearer <token>`; a non-ok response throws with its status and text; the cache moves as in `GetAccessToken` |
| FirestoreClient.Firestore.AddDocument | src/lib/firestore.ts:110-115 | POSTs the encoded record to the collection URL and returns the decoded reply; the token cache is kept on a hit and refreshed as `request` refreshes it otherwise |
| FirestoreClient.Firestore.ListDocuments | src/lib/firestore.ts:117-124 | GETs the collection; a reply without `documents` is the empty list, otherwise every document decoded in order; the token cache is kept on a hit and refreshed otherwise |
| FirestoreClient.Firestore.GetDocument | src/lib/firestore.ts:126-130 | GETs `collection/id` and returns its decoding; the token cache is kept on a hit and refreshed otherwise |
| FirestoreClient.Firestore.UpdateDocument | src/lib/firestore.ts:132-137 | PATCHes the encoded record to `collection/id` and returns the decoded reply; the token cache is kept on a hit and refreshed otherwise |
| FirestoreClient.Firestore.DeleteDocument | src/lib/firestore.ts:139-143 | DELETEs `collection/id` and answers `{ id }` whatever the reply body; the token cache is kept on a hit and refreshed otherwise |
| FirestoreClient.RefreshedTokenNeverReused | src/lib/firestore.ts:48-53 | after a refresh at any clock reading of 3504 ms or more, no later call finds the cache valid |
| FirestoreClient.CachedTokenIgnoresExchange | src/lib/firestore.ts:48-50 | a valid cached token is returned whatever the token endpoint would answer |
| FirestoreClient.CacheExpiryPrecedesJwtExpiry | src/lib/firestore.ts:52-59 | the stored expiry is 100 seconds before the signed JWT's expiry |
| FirestoreRest.ToFirestoreFields | src/lib/firestore-rest.ts:41-52 | there is no null guard: an absent record throws, any other encodes like the first client |
| FirestoreRest.ClosingDashes | src/lib/firestore-rest.ts:21 | the lazy match's closing dashes, when found, lie after the opening ones and within the text |
| FirestoreRest.StripArmour | src/lib/firestore-rest.ts:21 | stripping never lengthens the text; StripKeepsDashFreeText, StripRemovesMarker and StripPem state what it removes |
| FirestoreRest.StripKeepsMarkerFreeText | src/lib/firestore-rest.ts:21 | a prefix in which no `-----` starts survives the replacement untouched, and the rest is stripped on its own |
| FirestoreRest.StripKeepsDashFreeText | src/lib/firestore-rest.ts:21 | a prefix holding no dash at all survives the replacement untouched |
| FirestoreRest.StripRemovesMarker | src/lib/firestore-rest.ts:21 | a `-----TAG-----` marker is removed entirely |
| FirestoreRest.StripPem | src/lib/firestore-rest.ts:21 | a PEM key with BEGIN and END markers leaves exactly its body and what follows |
| FirestoreRest.MintAccessToken | src/lib/firestore-rest.ts:6-38 | the claims are issued at `floor(now / 1000)` seconds, expire 3600 s later, are issued by the account's email for the token endpoint and the datastore scope; the key material is the armour-stripped private key, no longer than it; the answer's `access_token` is taken without checking the status, and reading it throws exactly when the answer is not JSON (the parser's error) or is `null` or `undefined` (the destructuring `TypeError`) |
| FirestoreRest.BearerHeader | src/lib/firestore-rest.ts:69 | the header is `Bearer ` followed by the token as a template literal renders it: a string as itself, a missing token as `undefined` |
| FirestoreRest.AddDocument | src/lib/firestore-rest.ts:55-80 | the token is minted first, and a token answer that cannot be read throws its error with no POST; an absent record then throws with no POST; otherwise exactly one POST goes to the project's collection URL with the bearer header and the encoded record; a non-ok reply throws with status and text, an ok one yields its parsed JSON, so a non-JSON ok reply throws the parser's error |
| GitHubUpload.Payload | src/lib/github-upload.ts:28-32 | the commit message is `Upload <file name> for <registration id>`, the content is passed through and `sha` is present exactly when the revision is truthy |
| GitHubUpload.UploadPath | src/lib/github-upload.ts:9 | the path starts with the upload folder and a slash and ends in `/<registration id>/<file name>` |
| GitHubUpload.ContentsUrl | src/lib/github-upload.ts:10 | the URL starts with the owner's repository path and ends in `/contents/` followed by the path |
| GitHubUpload.UploadHeaders | src/lib/github-upload.ts:11-15 | the calls carry exactly `Authorization`, `User-Agent` and `Accept`, the first being `token ` followed by the upload token |
| GitHubUpload.UploadToGitHub | src/lib/github-upload.ts:1-52 | one lookup and at most one write, both to the contents URL with the upload headers; a failed lookup other than 404 throws before any write; the write carries the found revision; a failed write throws; success projects the two URLs |
| GitHubUpload.UploadPathLayout | src/lib/github-upload.ts:9 | the path's segments are the upload path's, then the registration id, then the file name |
| GitHubClient.RequestHeaders | src/github.ts:28-41 | the caller's headers win on a clash and every other default is kept |
| GitHubClient.DefaultHeaders | src/github.ts:28-33 | the defaults are exactly `Authorization`, `Content-Type`, `Accept` and `User-Agent`, with `token <token>` and `application/json` |
| GitHubClient.NewClient | src/github.ts:22-25 | the client keeps the token, and its URL starts with the owner's repository path and ends in `/<repo>/issues` |
| GitHubClient.Send | src/github.ts:27-41 | the request keeps the verb and payload, its URL is the client's URL followed by exactly the path, and its headers are exactly the defaults |
| GitHubClient.ParsedBody | src/github.ts:53 | a missing or empty body reads as `{}`; a serialised body reads as its value; parsing fails exactly for non-empty malformed text |
| GitHubClient.IssueToTask | src/github.ts:52-58 | the task holds the body's properties, `id` from the issue number unless the body has its own, and `completed` from the state overriding any body value |
| GitHubClient.NullBodyTask | src/github.ts:53 | an issue without a body becomes `{ id, completed }` |
| GitHubClient.IssuesToTasks | src/github.ts:52-59 | every issue mapped, order and length kept |
| GitHubClient.ListIssues | src/github.ts:44-60 | GETs the issues URL; a non-ok reply throws its status text |
| GitHubClient.CreateIssue | src/github.ts:62-78 | POSTs, with the default headers, a title equal to the task's name and a body that parses back to the task |
| GitHubClient.GetIssue | src/github.ts:80-93 | GETs `/<number>`, the number rendered with its sign, and maps the issue |
| GitHubClient.UpdateState | src/github.ts:98 | the state is `closed` exactly when the task's `completed` is truthy, else `open` |
| GitHubClient.UpdateIssue | src/github.ts:95-111 | PATCHes `/<number>`, the number rendered with its sign, with the default headers and the task's name, JSON and state |
| GitHubClient.CloseIssue | src/github.ts:113-116 | reads the issue and only then writes it back with `completed: true`, so the requested state is `closed` and the write is exactly `updateIssue`'s request for the read task with `completed: true`; a failed read makes no write |
| GitHubClient.CreatedTaskIdentity | src/github.ts:62-77 | a created task reads back with its data, the issue number as id unless the data has one, and not completed |
| GitHubIssues.CreateIssue | src/lib/github-issues.ts:15-35 | POSTs the title, a body that parses back to the record, and the labels, `["task"]` by default |
| GitHubIssues.ParseNullable | src/lib/github-issues.ts:53 | a null body parses to `null` |
| GitHubIssues.IssueRecord | src/lib/github-issues.ts:51-54 | the record is the parsed body's properties plus `id`, the body's own `id` winning over the number |
| GitHubIssues.GetIssue | src/lib/github-issues.ts:37-55 | GETs `/<number>`, the number rendered with its sign; 404 is `null`, any other failure throws status and text, success is the issue's record |
| GitHubIssues.UpdateIssue | src/lib/github-issues.ts:57-75 | PATCHes, with the helpers' headers, a payload holding only the new body |
| GitHubIssues.CloseIssue | src/lib/github-issues.ts:77-95 | PATCHes, with the helpers' headers, exactly `{ state: "closed" }` |
| GitHubIssues.IssueRecords | src/lib/github-issues.ts:109-112 | every issue mapped, order and length kept |
| GitHubIssues.ListIssues | src/lib/github-issues.ts:97-113 | GETs `?labels=<joined>&state=open` with `["task"]` by default and maps the issues |
| GitHubIssues.ListQuery | src/lib/github-issues.ts:98-99 | the query is `?labels=`, then exactly the comma-joined labels, then `&state=open` |
| GitHubIssues.LabelQueryRoundTrip | src/lib/github-issues.ts:98 | the labels can be read back from the query by splitting at commas |
| GitHubIssues.WrittenBodyReadsBack | src/lib/github-issues.ts:50-62 | a body written by create or update reads back as exactly that record with `id`; properties it lacks are gone (replacement, not merge) |
| GitHubIssues.MissingIssueIsNull | src/lib/github-issues.ts:43-47 | the lookup is `null` exactly for status 404 |
| GitHubIssues.SameIssueUrl | src/lib/github-issues.ts:3-5 | the helpers and the client class address the same issue URL |
| GitHubIssues.ApiUrl | src/lib/github-issues.ts:3-5 | the URL starts with the owner's repository path and ends in `/issues` followed by the path |
| GitHubIssues.ApiHeaders | src/lib/github-issues.ts:7-13 | every helper sends exactly `Authorization`, `User-Agent` and `Accept`, with `token <token>` and `task-manager-app` |
| GitHubIssues.LabelsOrDefault | src/lib/github-issues.ts:97 | absent labels default to `["task"]`, given ones are kept |
| TaskCreate.Handle | src/endpoints/tasks/taskCreate.ts:5-19 | a falsy name or slug is 400 "Missing required fields" with no call; otherwise one create with the name, the whole body and `["task"]`, then 201 with its result or 500 with the error |
| TaskCreate.CreatedIssueCarriesBody | src/endpoints/tasks/taskCreate.ts:14 | the issue is titled by the name, labelled `task` only, and its body parses back to the request body |
| UserCreate.Handle | src/endpoints/users/userCreate.ts:5-19 | a falsy username or email is 400 with no call; otherwise one create with the username and `["user"]`, then 201 or 500 |
| UserCreate.AnyEmailTextIsAccepted | src/endpoints/users/userCreate.ts:9 | any non-empty email text is passed to the store and answered with 201 |
| FormUploads.DataUriPayloads | src/endpoints/memberships/individualMembershipCreate.ts:40 | for a base64 data URI both the `base64,` cut and the comma cut give the data |
| FormUploads.PlainDataUriPayloads | src/endpoints/memberships/institutionalMembershipCreate.ts:63 | on a URI whose media type does not end in `base64` (and with no comma in media type or data) the comma cut finds the data and the base64 cut finds nothing |
| FormUploads.Base64Payload | src/endpoints/memberships/individualMembershipCreate.ts:40 | `split("base64,")[1]` is missing exactly when `base64,` occurs nowhere in the URI |
| FormUploads.CommaPayload | src/endpoints/memberships/institutionalMembershipCreate.ts:63 | `split(',')[1]` is missing exactly when the URI has no comma, and never holds a comma |
| FormUploads.StampedId | src/endpoints/memberships/individualMembershipCreate.ts:37 | the identifier is the prefix followed by at least one decimal digit and nothing else; StampedIdInjective is its partner |
| FormUploads.MinLength | src/endpoints/memberships/individualMembershipCreate.ts:8-11 | `z.string().min(n)` holds exactly when the property is a string of at least `n` UTF-16 code units, as Strings.Utf16Length counts them |
| FormUploads.UploadFields | src/endpoints/memberships/institutionalMembershipCreate.ts:89-92 | spreading an upload result contributes its two URLs and nothing else |
| FormUploads.StampedIdInjective | src/endpoints/memberships/individualMembershipCreate.ts:37 | two identifiers with one prefix are equal only for the same clock reading |
| FormUploads.StampedIdsDistinct | src/endpoints/memberships/individualMembershipCreate.ts:37 | individual, institutional and submission identifiers never collide |
| Strings.Utf16Length | src/endpoints/memberships/individualMembershipCreate.ts:8-11 | the length `z.string().min` compares is between the character count and twice it, and equals the character count exactly when no character lies beyond U+FFFF |
| Values.TemplateText | src/lib/firestore-rest.ts:69 | a string renders as itself and `undefined` as `undefined` |
| IndividualMembership.Validate | src/endpoints/memberships/individualMembershipCreate.ts:7-14 | accepted exactly when the names have at least 2 UTF-16 code units, the phone at least 10, the email is valid and the form fields are strings; the values are the body's |
| IndividualMembership.Handle | src/endpoints/memberships/individualMembershipCreate.ts:34-66 | uploads the form's base64 payload under the new id, writes only after a successful upload, stores a Pending record whose document has the upload's URLs, replies 201 with the same id |
| IndividualMembership.FormDataIsUploaded | src/endpoints/memberships/individualMembershipCreate.ts:39-44 | a base64 data URI hands the upload exactly its data |
| InstitutionalMembership.Validate | src/endpoints/memberships/institutionalMembershipCreate.ts:7-22 | accepted exactly when the names have at least 2 UTF-16 code units, the number at least 10, the email is valid, every URI starts `data:` and every file name is non-empty; every value, the four URIs and four file names included, is the body's |
| InstitutionalMembership.FirstFailure | src/endpoints/memberships/institutionalMembershipCreate.ts:67-77 | no failure exactly when all uploads succeed, otherwise the first failing one's message |
| InstitutionalMembership.Documents | src/endpoints/memberships/institutionalMembershipCreate.ts:88-93 | four documents, each the fixed name at its position with the URLs of the upload at that position |
| InstitutionalMembership.StoredRecord | src/endpoints/memberships/institutionalMembershipCreate.ts:80-94 | the stored record has the input's contact fields, status Pending, the submission time and the documents |
| InstitutionalMembership.Handle | src/endpoints/memberships/institutionalMembershipCreate.ts:42-100 | four uploads of the comma payloads under one id, a write only when all succeed, 201 with the id |
| InstitutionalMembership.DocumentsKeepTheirNames | src/endpoints/memberships/institutionalMembershipCreate.ts:88-93 | each stored document is its name and its own upload's two URLs |
| InstitutionalMembership.FailedUploadStopsWrite | src/endpoints/memberships/institutionalMembershipCreate.ts:67-77 | a failed upload prevents the write and its message is thrown |
| SubmissionCreate.OptionalString | src/endpoints/submissions/submissionCreate.ts:14 | an absent property is accepted as missing, a string as itself, anything else is rejected |
| SubmissionCreate.Validate | src/endpoints/submissions/submissionCreate.ts:7-20 | accepted exactly when every property is a string (co-authors optional) and the email is valid; every value is the body's, co-authors absent exactly when the body's is undefined |
| SubmissionCreate.CoAuthorsOrDefault | src/endpoints/submissions/submissionCreate.ts:61 | missing or empty co-authors become `N/A`, any other text is kept |
| SubmissionCreate.Bound | src/endpoints/submissions/submissionCreate.ts:52-70 | sixteen values, the i-th being what the i-th listed column should hold |
| SubmissionCreate.Handle | src/endpoints/submissions/submissionCreate.ts:40-78 | the abstract is uploaded first and a failure skips the rest; the insert goes to `submissions` with the listed columns; the result is the id and the fixed message |
| SubmissionCreate.ColumnsDistinct | src/endpoints/submissions/submissionCreate.ts:52 | no column is listed twice |
| SubmissionCreate.StoredRow | src/endpoints/submissions/submissionCreate.ts:54-69 | the row starts with the id, says Pending Review, and carries each upload's URLs |
| RecordStore.NewRecord | tests/integration/tasks.test.ts:13 | the record holds the data, `id` from the counter unless the data has one, and the labels overriding any in the data |
| RecordStore.HasId | tests/integration/tasks.test.ts:18 | `t.id === id` holds exactly when the record has an `id` property equal to that number; a record without one never matches |
| RecordStore.FindIndex | tests/integration/tasks.test.ts:25 | the first position with the id, or none exactly when no record has it |
| RecordStore.Find | tests/integration/tasks.test.ts:18 | the record at the first matching position, or none |
| RecordStore.Removed | tests/integration/tasks.test.ts:33-36 | without a match nothing changes; with one, that record is taken out and the others keep their order |
| RecordStore.MockIssueStore.constructor | tests/integration/tasks.test.ts:5-6 | the store starts empty with the counter at 1 |
| RecordStore.MockIssueStore.Reset | tests/integration/tasks.test.ts:61-62 | the store is emptied and the counter set to 1 |
| RecordStore.MockIssueStore.CreateIssue | tests/integration/tasks.test.ts:11-16 | the new record is numbered by the counter, appended and returned; the counter goes up by one |
| RecordStore.MockIssueStore.GetIssue | tests/integration/tasks.test.ts:17-23 | a stored record with the id, or none exactly when no record has it |
| RecordStore.MockIssueStore.UpdateIssue | tests/integration/tasks.test.ts:24-31 | success exactly when the id exists; the matching record is merged with the data winning; otherwise nothing changes |
| RecordStore.MockIssueStore.CloseIssue | tests/integration/tasks.test.ts:32-38 | the matching record is removed, if any, and success is always reported |
| RecordStore.MockIssueStore.ListIssues | tests/integration/tasks.test.ts:39-43 | every record in insertion order, whatever the labels |
| RecordStore.CreateKeepsNumbering | tests/integration/tasks.test.ts:12 | ids stay below the counter and strictly increasing when the data brings no id |
| RecordStore.CreateThenGet | tests/integration/tasks.test.ts:136-150 | a created record is found under the counter's id |
| RecordStore.UpdateThenGet | tests/integration/tasks.test.ts:166-185 | after an update that keeps the id, the merged record is found |
| RecordStore.CloseThenGet | tests/integration/tasks.test.ts:190-207 | with distinct ids, after a close nothing is found under that id and the numbering still holds |
| RecordStore.CreateThenReadScenario | tests/integration/tasks.test.ts:136-150 | after a reset, the created task has id 1 and reads back with its data |
| RecordStore.UpdateThenReadScenario | tests/integration/tasks.test.ts:166-185 | the updated fields read back and the others are kept |
| RecordStore.DeleteThenReadScenario | tests/integration/tasks.test.ts:190-207 | the delete succeeds and the record is no longer found |
| RecordStore.ListAfterOneCreateScenario | tests/integration/users.test.ts:74-91 | after one create the list is exactly that record |

## Left out

- Network, signing and decoding calls (`fetch`, `jwt.sign`, `SignJWT`, `crypto.subtle.importKey`, `atob`) are foreign I/O or cryptography: their answers are inputs and their requests are returned as values.
- `JSON.parse` and `JSON.stringify` are abstracted as a lossless pair of a value and its text; their error messages are reduced to one text.
- zod's email format is an input predicate; its error messages are not modelled, a rejected body is `None`.
- Numbers are integers; floating point is not modelled.
- TaskCreate.Handle and UserCreate.Handle take the request body as a JSON object; a body that is not JSON, or not an object, is left to the framework.
- Object key order is not modelled, records are maps.
- Routing, OpenAPI, CORS (src/index.ts, the routers, src/lib/firestore-endpoints.ts, src/endpoints/dummyEndpoint.ts) are framework glue.
- The pass-through handlers (user read, update, delete and list; task list, read, update and delete) are one library call each; the task ones import a `getDb` that src/lib/firestore.ts does not export.
- The membership handlers also call `getDb`; the write they ask for is returned as a `StoreWrite`, and its outcome is an input.
- The submission result's HTTP status is set by the framework, the handler returns a plain object; the D1 database is external and its outcome is an input.
- How a thrown error becomes an HTTP response in the form handlers is the framework's; the model reports the message.
- The `\\n` replacement of the private key in src/lib/firestore.ts:55 is not modelled; the key is passed to signing, which is left out.
- Spreads are modelled on objects only. `...taskData` and `...JSON.parse(body)` could spread an array or a string, which would contribute index keys; the model does not represent that case.
- FirestoreClient.Firestore.GetAccessToken: the two `Date.now()` readings on lines 48 and 52 are one clock input.
- FirestoreClient.DecodeAll: a document without `name` makes the decoding throw; the model reports a failure rather than a particular exception object.
- GitHubClient.IssueToTask: `issueSchema.parse` is not modelled; issues are taken to be schema-valid.
- InstitutionalMembership.FirstFailure: `Promise.all` rejects with the upload that fails first in time; all four uploads are started together, so which failure comes first depends on timing; the model takes the first failure in list order.
- RecordStore.HasId: `===` on ids is value equality on numbers; identity of object-valued ids is not modelled.
- GitHubIssues.CreateIssue: the titles the handlers pass are whatever `body.name` or `body.username` holds, so the title is any value rather than only a string.
- FormUploads.MinLength: lengths are UTF-16 code units, as zod counts them; a lone surrogate cannot be a Dafny `char`, so strings holding one are not modelled.
- GitHubUpload.UploadToGitHub: the `console.error` logging on a failed write is output only and is not modelled.
- RecordStore.MockIssueStore.GetIssue and RecordStore.MockIssueStore.ListIssues: the mock returns the stored object and the live array, so a caller's later change shows through; the model returns copies.
- GitHubClient.GetIssue, GitHubClient.UpdateIssue, GitHubClient.CloseIssue and the GitHubIssues issue-number operations: issue numbers are integers, rendered with their sign; non-integer and `NaN` numbers are not modelled.
- FirestoreClient.Exchanged: the re-serialised body `JSON.stringify(tokenResponse)` that both messages carry is an input (`shown`), because JSON text is abstract here and has no rendering. A truthy `access_token` that is not a string (a number, an object) is treated as missing, although the source would cache it.
- FirestoreClient.Firestore.Request: the body of an ok reply is taken as already decoded, so a 2xx reply whose text is not JSON, for which `res.json()` would throw, is not represented; the REST client's `FirestoreRest.AddDocument` does represent it.
- Values.TemplateText: a `Date` renders as its ISO text, whereas JavaScript writes a longer local form; the token it renders comes from parsed JSON, which holds no dates.
- FirestoreRest.AddDocument: the fixed `Content-Type: application/json` header of the POST is not recorded.
