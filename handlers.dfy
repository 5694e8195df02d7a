/**
 * The request handlers of the PH Arbitrage relay API as pure functions over
 * the contents of its data directory: a map from file name to the JSON
 * document stored in that file.
 */
module Handlers {
  import opened Wrappers
  import opened Json

  /** The name, inside the data directory, that `free` reads. */
  const FreeFile: string := "free_data.json"
  /** The name, inside the data directory, that `pro` reads. */
  const ProFile: string := "pro_data.json"
  /** The upload key used when `UPLOAD_KEY` is not set in the environment. */
  const DefaultApiKey: string := "changeme"

  /** The data directory: file name to stored document. */
  type Files = map<string, Json>

  /** An HTTP status with a JSON body. */
  datatype Reply = Reply(status: int, body: Json)

  /** What a handler does with a request: it answers, or it raises and the
      web framework answers with its own error page. */
  datatype Outcome = Responded(reply: Reply) | Raised

  function ErrorBody(message: string): Json {
    JObj(map["error" := JStr(message)])
  }

  const Unauthorized: Reply := Reply(403, ErrorBody("unauthorized"))
  const Invalid: Reply := Reply(400, ErrorBody("invalid"))
  const NoData: Reply := Reply(404, ErrorBody("no data"))

  function Saved(fname: string): Reply {
    Reply(200, JObj(map["status" := JStr("saved"), "file" := JStr(fname)]))
  }

  /** The `X-API-Key` header matches the configured key; an absent header
      (Python's `None`) never does. */
  predicate Authorized(apiKey: string, key: Option<string>)
    ensures Authorized(apiKey, key) ==> key.Some?
    ensures key.Some? ==> (Authorized(apiKey, key) <==> key.value == apiKey)
  {
    key == Some(apiKey)
  }

  /** The body's `filename` member, `None` when missing. */
  function FileField(body: Json): Json
    requires body.JObj?
  {
    Get(body.fields, "filename")
  }

  /** The body's `data` member, `None` when missing. */
  function DataField(body: Json): Json
    requires body.JObj?
  {
    Get(body.fields, "data")
  }

  /** A request that `upload` writes to the data directory. */
  predicate Accepted(apiKey: string, key: Option<string>, body: Json) {
    Authorized(apiKey, key) && body.JObj? &&
    Truthy(FileField(body)) && FileField(body).JStr? && Truthy(DataField(body))
  }

  /** The file an accepted request writes. */
  function FileName(body: Json): string
    requires body.JObj? && FileField(body).JStr?
  {
    FileField(body).s
  }

  /** The result of one request: what it answers and the directory after it. */
  datatype Step = Step(outcome: Outcome, files: Files)

  /**
   * `upload`: the key is checked first, then the body is read as an object,
   * then `filename` and `data` must both be truthy, and then the named file
   * is overwritten with `data`. A body that is not an object makes
   * `content.get` raise; a truthy `filename` that is not a string makes the
   * path join raise. Either way nothing has been written.
   */
  function UploadStep(apiKey: string, files: Files, key: Option<string>, body: Json): (r: Step)
    // A wrong or absent key is refused before the body is looked at, and nothing changes.
    ensures !Authorized(apiKey, key) ==> r == Step(Responded(Unauthorized), files)
    // With the right key, a missing or falsy filename or data is refused, and nothing changes.
    ensures Authorized(apiKey, key) && body.JObj? &&
            (!Truthy(FileField(body)) || !Truthy(DataField(body))) ==>
            r == Step(Responded(Invalid), files)
    // The request raises exactly when the right key comes with a non-object body,
    // or with both fields truthy but a filename that is not a string.
    ensures r.outcome.Raised? <==>
            Authorized(apiKey, key) &&
            (!body.JObj? ||
             (Truthy(FileField(body)) && Truthy(DataField(body)) && !FileField(body).JStr?))
    // The answer is a success exactly for accepted requests.
    ensures (r.outcome.Responded? && r.outcome.reply.status == 200) <==> Accepted(apiKey, key, body)
    // An accepted request overwrites its one file with data and names it in the answer.
    ensures Accepted(apiKey, key, body) ==>
            r.outcome == Responded(Saved(FileName(body))) &&
            FileName(body) in r.files && r.files[FileName(body)] == DataField(body) &&
            forall n :: n != FileName(body) ==> (n in r.files <==> n in files) &&
                                                 (n in files ==> r.files[n] == files[n])
    // Any other request leaves the directory as it was.
    ensures !Accepted(apiKey, key, body) ==> r.files == files
  {
    if key != Some(apiKey) then
      Step(Responded(Unauthorized), files)
    else
      match body
      case JObj(fields) =>
        var fname := Get(fields, "filename");
        var data := Get(fields, "data");
        if !Truthy(fname) || !Truthy(data) then
          Step(Responded(Invalid), files)
        else if !fname.JStr? then
          Step(Raised, files)
        else
          Step(Responded(Saved(fname.s)), files[fname.s := data])
      case _ =>
        Step(Raised, files)
  }

  /**
   * `free` and `pro`: an existence check on one fixed file, then its
   * document; a file never written answers 404.
   */
  function Fetch(files: Files, name: string): (r: Reply)
    ensures r.status == 200 <==> name in files
    ensures name in files ==> r.body == files[name]
    ensures name !in files ==> r == NoData
  {
    if name in files then Reply(200, files[name]) else NoData
  }

  /** Last write wins: of two accepted uploads to one file only the second
      document remains, and the first leaves no trace anywhere. */
  lemma LastWriteWins(apiKey: string, files: Files,
                      key1: Option<string>, body1: Json, key2: Option<string>, body2: Json)
    requires Accepted(apiKey, key1, body1) && Accepted(apiKey, key2, body2)
    requires FileName(body1) == FileName(body2)
    ensures UploadStep(apiKey, UploadStep(apiKey, files, key1, body1).files, key2, body2).files
            == UploadStep(apiKey, files, key2, body2).files
  {
  }

  /** Round trip: reading back the file an accepted upload wrote gives its data. */
  lemma UploadThenFetch(apiKey: string, files: Files, key: Option<string>, body: Json)
    requires Accepted(apiKey, key, body)
    ensures Fetch(UploadStep(apiKey, files, key, body).files, FileName(body)) == Reply(200, DataField(body))
  {
  }

  /** Independence: an upload that does not write `name` changes nothing a read of `name` sees. */
  lemma UploadElsewhere(apiKey: string, files: Files, key: Option<string>, body: Json, name: string)
    requires !Accepted(apiKey, key, body) || FileName(body) != name
    ensures Fetch(UploadStep(apiKey, files, key, body).files, name) == Fetch(files, name)
  {
  }
}
