# PH Arbitrage relay API: a Dafny model of its key-value store

The service is a small Flask application. A price collector pushes JSON
snapshots with `POST /upload`, and a dashboard reads them back with
`GET /free` and `GET /pro`. Its state is the `data/` directory. This model
holds that directory as a map from file name to JSON document, stored in the
`files` field of the class `Service.Server`.

- `upload` checks the `X-API-Key` header against the configured key. A
  mismatch, including an absent header, gives 403 `{"error":"unauthorized"}`.
- Otherwise it reads `filename` and `data` from the JSON body. If either is
  missing or falsy, it gives 400 `{"error":"invalid"}`.
- Otherwise it overwrites the named file with `data` and answers 200
  `{"status":"saved","file":fname}`.
- `free` and `pro` return the document in `free_data.json` or
  `pro_data.json`. If that file does not exist, they give 404 `{"error":"no data"}`.

Modules:

- `Wrappers` (wrappers.dfy) holds `Option`.
- `Json` (json.dfy) holds decoded JSON values and Python's truth value on them (`Truthy`).
- `Handlers` (handlers.dfy) holds the handlers as pure functions of the key and the directory.
  - `UploadStep` gives the answer and the new directory for one upload.
  - `Fetch` is the read that `free` and `pro` share.
  - It also holds the lemmas that relate several calls.
- `Service` (server.dfy) holds the class `Server`.
  - `Upload` is an imperative method that updates `files`. It is proved
    against `UploadStep`.
  - `Free` and `Pro` read `files`.
- `History` (history.dfy) treats the service's lifetime as a sequence of
  uploads. It proves last-write-wins over a whole history against an
  independent backward-scanning definition, `LastSaved`.

Parameters stand in for the environment:

- The `X-API-Key` header is an `Option<string>`. `None` means the header is absent.
- The value of `UPLOAD_KEY` is a constructor argument. `None` selects the
  default, `"changeme"` (app.py:11). So some key is always configured, and
  writes are never disabled.
- The request body is a decoded JSON value.
- The directory's contents at start-up are a constructor argument.

Facts of the program that the model keeps:

- A bad key gets 403. The header is `X-API-Key`.
- `upload` writes whatever `filename` it is given, unsanitised.
- The write truncates the file in place.
- The key falls back to `"changeme"`, so writes are never disabled.

The constants `Handlers.FreeFile` and `Handlers.ProFile` are the two fixed
read names (app.py:8-9). `Handlers.DefaultApiKey` is the fallback key (app.py:11).

The class and the pure functions are tied together by `Server.Upload`. Its
contract says that each call's answer and new `files` are those of
`UploadStep` on the old `files`. `Server.Free` and `Server.Pro` are `Fetch` on
`files` at the two fixed names. So a run of `Upload` calls leaves `files`
equal to `History.Serve` of those requests. `History.FreeSeesLastWrite` and
`History.ProSeesLastWrite` therefore describe what `Free` and `Pro` answer
after the run.

## Model

| member | source | states |
|---|---|---|
| Json.Truthy | app.py:33 | Python's `not v` holds of a decoded JSON value exactly for null, false, 0, "", [] and {} |
| Json.Get | app.py:30-31 | `content.get(k)` gives the member stored under `k`, and a missing key reads as `None`, which is falsy |
| Handlers.Authorized | app.py:25-26 | the header matches only when it is present and equal to the configured key; an absent header never matches |
| Handlers.UploadStep | app.py:23-38 | a wrong or absent key gives 403 with the directory unchanged, whatever the body; with the right key, a missing or falsy filename or data gives 400 with the directory unchanged; with file-system errors left out, it raises exactly for a non-object body, or for a truthy non-string filename alongside truthy data; it succeeds exactly for accepted requests, which overwrite only the named file with `data` and answer `saved` with that file name |
| Handlers.Fetch | app.py:40-50 | a read answers 200 exactly when the file exists, with the stored document as body, and otherwise 404 "no data" |
| Handlers.LastWriteWins | app.py:36-37 | two accepted uploads to one file leave the same directory as the second one alone |
| Handlers.UploadThenFetch | app.py:36-37 | after an accepted upload, reading its file returns 200 with the uploaded data |
| Handlers.UploadElsewhere | app.py:36 | an upload that is refused, or that writes a different file, does not change what a read of a file returns |
| Service.Server.constructor | app.py:7-13 | the key is `UPLOAD_KEY` if set, otherwise "changeme"; the directory starts with the given contents |
| Service.Server.Upload | app.py:23-38 | the imperative handler's answer and new directory are exactly those of `UploadStep` on the old directory |
| Service.Server.Free | app.py:40-44 | answers 200 with the stored document exactly when `free_data.json` exists, otherwise 404 "no data" |
| Service.Server.Pro | app.py:46-50 | answers 200 with the stored document exactly when `pro_data.json` exists, otherwise 404 "no data" |
| Service.UploadFreeThenRead | app.py:36-44 | an upload by the key holder of truthy data to `free_data.json` is answered `saved`; `free` then returns that data, and `pro` is unchanged |
| Service.WrongKeyIsInert | app.py:25-27 | a wrong key gives 403 for any body, and leaves the directory and both reads unchanged |
| History.ServeAppend | app.py:23-38 | handling two batches of uploads one after the other is the same as handling them joined |
| History.RejectedIsInert | app.py:25-34 | a refused or raising upload can be dropped from anywhere in a history without changing the final directory |
| History.WrongKeysAreInert | app.py:25-27 | a history in which every key is wrong leaves the directory as it was |
| History.ReadSeesLastWrite | app.py:36-43 | after any history, a read of a file returns the data of the last accepted upload to it; if there was none, it returns what it returned before |
| History.FreeSeesLastWrite | app.py:36-44 | `free` after a history returns the last document accepted for `free_data.json`, or its earlier answer |
| History.ProSeesLastWrite | app.py:36-50 | `pro` after a history returns the last document accepted for `pro_data.json`, or its earlier answer |

## Left out

- Flask routing, the request and response objects, and `app.run` (app.py:1, 5, 52-53) are HTTP plumbing. Requests are plain arguments.
- The `home` endpoint (app.py:15-21) only reports the wall-clock time.
- Environment reads and `os.makedirs` (app.py:11, 13, 53) are replaced by constructor arguments.
- JSON text: `json.dump(..., indent=2)` followed by `json.load` is treated as the identity on decoded values.
- Numbers are exact reals. The model does not tell integers from floats, and has no NaN or infinity.
- Bodies that are not JSON, or are sent with a content type other than JSON, are not modelled. `request.get_json()` parses the body inside the handler (app.py:29), after the key check. So a wrong key with such a body still gets 403. With the right key, what happens depends on the Flask version. Recent Flask answers 400 or 415. Older Flask returns `None`, and then `content.get` raises.
- A raised exception is the `Raised` outcome. The model does not model the error page Flask sends for it.
- File names are opaque map keys, with no path semantics. In the real directory, a name such as `./free_data.json` reaches the same file as `free_data.json`. So does `sub/../free_data.json`, but only when `data/sub` exists; otherwise `open` raises. A name such as `../x`, or an absolute path, leaves `data/`.
- Handlers.UploadElsewhere: this guarantee holds only for those opaque keys. A different name that aliases the same path does change what a read of that path returns.
- Handlers.UploadStep: it answers `saved` and writes for every truthy string `filename`. In the program, `open` at app.py:36 raises for some of those names, so the request raises and nothing is written. These names are a missing directory part (`sub/x.json` when `data/sub` does not exist), an embedded NUL character, a name that is a directory, and a name longer than the file system allows.
- File-system failures are not modelled: an unreadable or corrupt file, a full disk, permissions, or a `filename` that names a directory.
- The write is not atomic, and requests may run concurrently. The model handles requests one at a time, each completely.
