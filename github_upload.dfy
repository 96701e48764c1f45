/** `uploadToGitHub` of `src/lib/github-upload.ts`: upsert one file through the contents API with
    exactly one revision lookup and at most one write. There is no retry. */
module GitHubUpload {
  import opened Wrappers
  import opened Strings
  import opened Http

  /** `GITHUB_TOKEN`, `GITHUB_OWNER`, `GITHUB_REPO` and `GITHUB_UPLOAD_PATH`. */
  datatype UploadEnv = UploadEnv(token: string, owner: string, repo: string, uploadPath: string)

  /** The body of a successful lookup: the existing file's `sha`, if the response carries one. */
  datatype LookupBody = LookupBody(sha: Option<string>)

  /** The `content` object of a successful write. */
  datatype PutBody = PutBody(htmlUrl: string, downloadUrl: string)

  /** What the caller gets back: `{ html_url, download_url }`. */
  datatype UploadResult = UploadResult(htmlUrl: string, downloadUrl: string)

  /** The upsert payload. `content` is `None` when the caller passed `undefined`, so that
      `JSON.stringify` leaves the key out; `sha` is present only for a truthy revision. */
  datatype UpsertPayload = UpsertPayload(message: string, content: Option<string>, sha: Option<string>)

  /** The calls made on the contents endpoint, with the headers each carries. */
  datatype ContentsCall =
    | Lookup(url: string, headers: map<string, string>)
    | Put(url: string, headers: map<string, string>, payload: UpsertPayload)

  /** The headers both calls send. */
  function UploadHeaders(env: UploadEnv): (h: map<string, string>)
    ensures h.Keys == {"Authorization", "User-Agent", "Accept"}
    ensures h["Authorization"] == "token " + env.token
  {
    map["Authorization" := "token " + env.token, "User-Agent" := "Chanfana-App",
        "Accept" := "application/vnd.github.v3+json"]
  }

  /** `${GITHUB_UPLOAD_PATH}/${registrationId}/${fileName}`. */
  function UploadPath(env: UploadEnv, registrationId: string, fileName: string): (path: string)
    ensures env.uploadPath + "/" <= path
    ensures EndsWith(path, "/" + registrationId + "/" + fileName)
  {
    env.uploadPath + "/" + registrationId + "/" + fileName
  }

  /** The contents endpoint of the owner's repository for `path`. */
  function ContentsUrl(env: UploadEnv, path: string): (u: string)
    ensures "https://api.github.com/repos/" + env.owner + "/" <= u
    ensures EndsWith(u, "/" + env.repo + "/contents/" + path)
  {
    "https://api.github.com/repos/" + env.owner + "/" + env.repo + "/contents/" + path
  }

  /** The payload of the write, given the revision the lookup found. */
  function Payload(fileName: string, registrationId: string, content: Option<string>, sha: Option<string>): (p: UpsertPayload)
    ensures p.message == "Upload " + fileName + " for " + registrationId
    ensures p.content == content
    ensures p.sha.Some? <==> sha.Some? && sha.value != ""
    ensures p.sha.Some? ==> p.sha == sha
  {
    UpsertPayload("Upload " + fileName + " for " + registrationId, content,
                  if sha.Some? && sha.value != "" then sha else None)
  }

  /** One upload. `lookup` and `put` are the answers the store gives to the lookup and to the
      write; `calls` lists what was sent, in order. */
  method UploadToGitHub(fileContent: Option<string>, fileName: string, registrationId: string, env: UploadEnv,
                        lookup: Response<LookupBody>, put: Response<PutBody>)
    returns (r: Result<UploadResult, string>, calls: seq<ContentsCall>)
    ensures 1 <= |calls| <= 2
    ensures calls[0] == Lookup(ContentsUrl(env, UploadPath(env, registrationId, fileName)), UploadHeaders(env))
    ensures |calls| == 1 <==> !lookup.Ok() && lookup.status != 404
    ensures |calls| == 1 ==> r == Failure("Error checking file existence: " + NatToString(lookup.status) + " " + lookup.statusText)
    ensures |calls| == 2 ==> calls[1] == Put(ContentsUrl(env, UploadPath(env, registrationId, fileName)), UploadHeaders(env),
      Payload(fileName, registrationId, fileContent, if lookup.Ok() then lookup.body.sha else None))
    ensures |calls| == 2 ==> (r.Success? <==> put.Ok())
    ensures |calls| == 2 && !put.Ok() ==> r == Failure("Failed to upload " + fileName + ": " + put.statusText)
    ensures r.Success? ==> r.value == UploadResult(put.body.htmlUrl, put.body.downloadUrl)
  {
    var path := env.uploadPath + "/" + registrationId + "/" + fileName;
    var url := "https://api.github.com/repos/" + env.owner + "/" + env.repo + "/contents/" + path;
    var headers := map["Authorization" := "token " + env.token, "User-Agent" := "Chanfana-App",
                       "Accept" := "application/vnd.github.v3+json"];
    calls := [Lookup(url, headers)];
    var sha: Option<string> := None;
    if lookup.Ok() {
      sha := lookup.body.sha;
    } else if lookup.status != 404 {
      return Failure("Error checking file existence: " + NatToString(lookup.status) + " " + lookup.statusText), calls;
    }
    var payload := Payload(fileName, registrationId, fileContent, sha);
    calls := calls + [Put(url, headers, payload)];
    if !put.Ok() {
      return Failure("Failed to upload " + fileName + ": " + put.statusText), calls;
    }
    r := Success(UploadResult(put.body.htmlUrl, put.body.downloadUrl));
  }

  /** The destination keeps the file's name as its last segment under the namespace, so uploads
      of distinct file names into one namespace go to distinct paths. */
  lemma UploadPathLayout(env: UploadEnv, registrationId: string, fileName: string)
    requires '/' !in registrationId && '/' !in fileName
    ensures LastSegment(UploadPath(env, registrationId, fileName)) == fileName
    ensures Split(UploadPath(env, registrationId, fileName), "/") == Split(env.uploadPath, "/") + [registrationId, fileName]
  {
    var p := UploadPath(env, registrationId, fileName);
    assert p == (env.uploadPath + "/" + registrationId) + "/" + fileName;
    LastSegmentOf(env.uploadPath + "/" + registrationId, fileName);
    SplitCharConcat(env.uploadPath + "/" + registrationId, '/', fileName);
    SplitCharConcat(env.uploadPath, '/', registrationId);
    SplitWithoutSeparator(registrationId, "/");
    SplitWithoutSeparator(fileName, "/");
  }
}
