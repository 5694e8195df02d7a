/**
 * The running service: the configured upload key, fixed at start-up, and the
 * data directory, which `upload` overwrites one file at a time.
 */
module Service {
  import opened Wrappers
  import opened Json
  import opened Handlers

  class Server {
    /** The key `upload` demands in the `X-API-Key` header. */
    const apiKey: string
    /** The documents in the data directory, by file name. */
    var files: Files

    /** Start-up: the key is `UPLOAD_KEY` from the environment, or
        `"changeme"` when that is unset; the directory holds whatever
        earlier runs left in it. */
    constructor (uploadKey: Option<string>, existing: Files)
      ensures apiKey == (if uploadKey.Some? then uploadKey.value else DefaultApiKey)
      ensures files == existing
    {
      apiKey := if uploadKey.Some? then uploadKey.value else DefaultApiKey;
      files := existing;
    }

    /** `POST /upload` with the given `X-API-Key` header and JSON body. */
    method Upload(key: Option<string>, body: Json) returns (o: Outcome)
      modifies this`files
      ensures o == UploadStep(apiKey, old(files), key, body).outcome
      ensures files == UploadStep(apiKey, old(files), key, body).files
    {
      if key != Some(apiKey) {
        return Responded(Unauthorized);
      }
      if !body.JObj? {
        return Raised;
      }
      var fname := Get(body.fields, "filename");
      var data := Get(body.fields, "data");
      if !Truthy(fname) || !Truthy(data) {
        return Responded(Invalid);
      }
      if !fname.JStr? {
        return Raised;
      }
      files := files[fname.s := data];
      o := Responded(Saved(fname.s));
    }

    /** `GET /free`. */
    function Free(): (r: Reply)
      reads this
      ensures r.status == 200 <==> FreeFile in files
      ensures FreeFile in files ==> r == Reply(200, files[FreeFile])
      ensures FreeFile !in files ==> r == NoData
    {
      Fetch(files, FreeFile)
    }

    /** `GET /pro`. */
    function Pro(): (r: Reply)
      reads this
      ensures r.status == 200 <==> ProFile in files
      ensures ProFile in files ==> r == Reply(200, files[ProFile])
      ensures ProFile !in files ==> r == NoData
    {
      Fetch(files, ProFile)
    }
  }

  /** An upload of a truthy document to `free_data.json` with the right key
      is answered as saved and is what `free` then returns, while `pro` is
      untouched. */
  method UploadFreeThenRead(s: Server, data: Json) returns (saved: Outcome, read: Reply)
    requires Truthy(data)
    modifies s
    ensures saved == Responded(Saved(FreeFile))
    ensures read == Reply(200, data)
    ensures s.Pro() == old(s.Pro())
  {
    var body := JObj(map["filename" := JStr(FreeFile), "data" := data]);
    assert FileField(body) == JStr(FreeFile) && DataField(body) == data;
    saved := s.Upload(Some(s.apiKey), body);
    UploadElsewhere(s.apiKey, old(s.files), Some(s.apiKey), body, ProFile);
    read := s.Free();
  }

  /** A wrong key is refused with 403 whatever the body, and neither read changes. */
  method WrongKeyIsInert(s: Server, key: Option<string>, body: Json) returns (o: Outcome)
    requires key != Some(s.apiKey)
    modifies s
    ensures o == Responded(Unauthorized)
    ensures s.files == old(s.files) && s.Free() == old(s.Free()) && s.Pro() == old(s.Pro())
  {
    o := s.Upload(key, body);
  }
}
