/**
 * The service over its lifetime: requests are handled one after another
 * against the same data directory, and a read sees the state that the
 * uploads before it left.
 */
module History {
  import opened Wrappers
  import opened Json
  import opened Handlers

  /** One `POST /upload`: its `X-API-Key` header and its JSON body. */
  datatype Request = Request(key: Option<string>, body: Json)

  /** The data directory after handling `reqs` in order, starting from `files`. */
  function Serve(apiKey: string, files: Files, reqs: seq<Request>): Files
    decreases |reqs|
  {
    if reqs == [] then files
    else Serve(apiKey, UploadStep(apiKey, files, reqs[0].key, reqs[0].body).files, reqs[1..])
  }

  /** Reference definition, scanning backwards: the data of the last request
      in `reqs` that was accepted for file `name`, if any. */
  function LastSaved(apiKey: string, reqs: seq<Request>, name: string): Option<Json>
    decreases |reqs|
  {
    if reqs == [] then None
    else
      var r := reqs[|reqs| - 1];
      if Accepted(apiKey, r.key, r.body) && FileName(r.body) == name then Some(DataField(r.body))
      else LastSaved(apiKey, reqs[..|reqs| - 1], name)
  }

  /** Handling two batches in turn is handling them joined. */
  lemma {:induction false} ServeAppend(apiKey: string, files: Files, a: seq<Request>, b: seq<Request>)
    ensures Serve(apiKey, files, a + b) == Serve(apiKey, Serve(apiKey, files, a), b)
    decreases |a|
  {
    if a != [] {
      assert (a + b)[1..] == a[1..] + b;
      ServeAppend(apiKey, UploadStep(apiKey, files, a[0].key, a[0].body).files, a[1..], b);
    } else {
      assert a + b == b;
    }
  }

  /** A request that is not accepted may be dropped from anywhere in a
      history without changing the final directory: no failed upload ever
      mutates the store. */
  lemma {:induction false} RejectedIsInert(apiKey: string, files: Files,
                                           before: seq<Request>, r: Request, after: seq<Request>)
    requires !Accepted(apiKey, r.key, r.body)
    ensures Serve(apiKey, files, before + [r] + after) == Serve(apiKey, files, before + after)
  {
    ServeAppend(apiKey, files, before + [r], after);
    ServeAppend(apiKey, files, before, [r]);
    ServeAppend(apiKey, files, before, after);
    var mid := Serve(apiKey, files, before);
    assert [r][1..] == [];
    assert Serve(apiKey, mid, [r]) == UploadStep(apiKey, mid, r.key, r.body).files;
  }

  /** A history in which every key is wrong leaves the directory as it was. */
  lemma {:induction false} WrongKeysAreInert(apiKey: string, files: Files, reqs: seq<Request>)
    requires forall i :: 0 <= i < |reqs| ==> !Authorized(apiKey, reqs[i].key)
    ensures Serve(apiKey, files, reqs) == files
    decreases |reqs|
  {
    if reqs != [] {
      WrongKeysAreInert(apiKey, files, reqs[1..]);
    }
  }

  /**
   * Last write wins over a whole history: a read of `name` returns the data
   * of the last accepted upload to `name`, and if there was none, whatever
   * it returned before the history began (404 when the file never existed).
   */
  lemma {:induction false} ReadSeesLastWrite(apiKey: string, files: Files, reqs: seq<Request>, name: string)
    ensures Fetch(Serve(apiKey, files, reqs), name) ==
            match LastSaved(apiKey, reqs, name)
            case Some(data) => Reply(200, data)
            case None => Fetch(files, name)
    decreases |reqs|
  {
    if reqs != [] {
      var init, r := reqs[..|reqs| - 1], reqs[|reqs| - 1];
      assert reqs == init + [r];
      ServeAppend(apiKey, files, init, [r]);
      var mid := Serve(apiKey, files, init);
      assert [r][1..] == [];
      assert Serve(apiKey, mid, [r]) == UploadStep(apiKey, mid, r.key, r.body).files;
      ReadSeesLastWrite(apiKey, files, init, name);
    }
  }

  /** `free` after a history: the last document accepted for `free_data.json`,
      or what it answered before. */
  lemma FreeSeesLastWrite(apiKey: string, files: Files, reqs: seq<Request>)
    ensures Fetch(Serve(apiKey, files, reqs), FreeFile) ==
            match LastSaved(apiKey, reqs, FreeFile)
            case Some(data) => Reply(200, data)
            case None => Fetch(files, FreeFile)
  {
    ReadSeesLastWrite(apiKey, files, reqs, FreeFile);
  }

  /** `pro` after a history: the last document accepted for `pro_data.json`,
      or what it answered before. */
  lemma ProSeesLastWrite(apiKey: string, files: Files, reqs: seq<Request>)
    ensures Fetch(Serve(apiKey, files, reqs), ProFile) ==
            match LastSaved(apiKey, reqs, ProFile)
            case Some(data) => Reply(200, data)
            case None => Fetch(files, ProFile)
  {
    ReadSeesLastWrite(apiKey, files, reqs, ProFile);
  }
}
