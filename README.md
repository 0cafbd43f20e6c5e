# A1.art API wrapper — a Dafny model

`app.py` is a small FastAPI service that wraps the A1.art image-generation open API. At
start-up it loads a table of templates from `templates.json`. Each template is a named preset
of three provider ids: app, version and ControlNet form. The service has four endpoints:

- `POST /create`: saves the uploaded image locally under a timestamped name, uploads it to A1.art,
  and asks for a generation with caller-given (or default) ids.
- `POST /generate`: does the same with the ids of a template, and always asks for one image.
- `GET /templates`: lists the template table by ascending id.
- `GET /status/{task_id}`: queries a generation task and normalises the provider's task record.

This project models the decision logic of those endpoints and of the helpers they call. That
covers the payloads and headers sent, the checks on each reply, and the order of the outside
calls with the stop at the first failure. It also covers how each `except` clause turns a failure
into the HTTP status and detail the caller sees. Properties of the model are proved.

Modules, one concern each:

- `Wrappers` (`wrappers.dfy`): `Option` and `Result`.
- `Json` (`json.dfy`): a JSON key is missing, `null`, or present (`Field`).
  `dict.get(k, default)` tells the first two apart; truthiness does not.
- `Errors` (`errors.dfy`):
  - An exception in flight is an `HTTPException(status, detail)` or any other exception with its
    `str(e)` (`Raised`).
  - The two boundary handlers are `CatchAll` and `KeepHttp`. `CatchAll` is
    `except Exception as e: raise HTTPException(500, str(e))`. `KeepHttp` is that handler with
    `except HTTPException: raise` in front of it.
  - `str(HTTPException(s, d))` renders as `"s: d"`. It is kept as the structure
    `Wrapped(s, d)`, so nested failures stay readable: `500: 400: msg` is
    `Wrapped(500, Wrapped(400, Text(msg)))`.
- `Text` (`text.dfy`): decimal rendering of ids, the `%Y%m%d_%H%M%S` timestamp,
  POSIX `os.path.splitext`, and the local file name built from them.
- `Templates` (`templates.dfy`):
  - `load_templates`: the dict is the sequence of its items in insertion order.
  - `get_template_config`.
  - The template listing of `GET /templates`.
- `Provider` (`provider.dfy`):
  - The URLs and headers of the three provider calls, and the generation payload.
  - The reply envelope (`code`, `msg_cn`, `msg`, `data`).
  - How `upload_image`, `generate_image` and `check_task_result` turn a reply into a value or an
    exception.
  - The checks both creating endpoints run on a generation reply.
- `Status` (`status.dfy`): `TaskState` and the status response.
- `Workflow` (`workflow.dfy`): each endpoint as a function from its inputs and the provider's
  replies to the calls it makes and the response it gives.
- `Service` (`service.dfy`): the running service.
  - It is a class with the API key, the template table and a stand-in provider. The stand-in
    answers each kind of call with a fixed reply and appends every call to `trace`.
  - Each endpoint and helper is a method that makes its calls one at a time. Each is proved to
    extend `trace` by exactly the calls of the matching `Workflow` function and to return that
    function's response.

The clock (`datetime.now()`), the API key from the environment, the template file contents and
every reply from the provider or the file system are parameters of the model.

## Model

| member | source | states |
|---|---|---|
| Errors.CatchAll | app.py:330-332 | every failure leaves as a 500; a caught `HTTPException` survives only inside the detail, its status turned into a `"status: "` prefix |
| Errors.KeepHttp | app.py:446-450 | an `HTTPException` keeps its status and detail; any other exception becomes a 500 carrying `str(e)` |
| Errors.KeyErrorText | app.py:376-378 | `str(KeyError(k))` is the key in single quotes: the detail a missing template key gives here and in the `cnet` list and the listing |
| Json.Field.Get | app.py:189-191 | `obj.get(key)` is `None` exactly when the key is missing or `null`, and the value otherwise |
| Json.TruthyText | app.py:307 | a string read with `obj.get(key)` is truthy exactly when it is present and non-empty |
| Templates.Lookup | app.py:66 | `dict.get(k)`: a hit is an item of the table under `k`; a miss means no item has key `k` |
| Templates.Put | app.py:56 | `table[k] = t` keeps the keys distinct and adds nothing but `(k, t)` |
| Templates.Template.IsEmpty | app.py:67 | `not template` holds exactly for the object with no keys at all |
| Templates.BuildTable | app.py:56 | the dict comprehension yields a table keyed by each entry's own `template_id`, with distinct keys |
| Templates.BuildTableSucceedsIff | app.py:56 | the comprehension completes exactly when every entry has a `template_id` |
| Templates.PutLookup | app.py:56 | assigning `table[k] = t` makes `k` read `t` and leaves every other key as it was |
| Templates.TableHoldsLastEntry | app.py:56 | each id maps to the last entry carrying it (later duplicates override earlier ones); ids no entry carries are absent |
| Templates.LoadTemplates | app.py:50-59 | the result is always a valid table, and a non-empty one comes from a decoded `templates` list |
| Templates.LookupAfterLoad | app.py:50-70 | after a successful load, a lookup finds nothing exactly when no entry has the id, and otherwise finds the last entry with it |
| Templates.LookupAfterFailedLoad | app.py:57-59 | an unreadable file, a missing or `null` `templates` key, or an entry without an id gives `{}`, so every lookup misses |
| Templates.GetTemplateConfig | app.py:64-70 | the template stored under an id, or `None` when the id is absent; a stored template carries its own id |
| Templates.TemplateName | app.py:441 | `template.get('name', f'模板 {id}')`: a missing name is defaulted, a `null` one passed on as `None` |
| Templates.DefaultName | app.py:441 | the default name is `模板 ` followed by the decimal id |
| Templates.TemplateIds | app.py:376-378 | the three ids are read in the order app, version, cnet form; the first missing key raises its `KeyError` |
| Templates.InsertByKey | app.py:488 | inserting an item among ascending items keeps them ascending and adds exactly that item |
| Templates.SortByKey | app.py:488 | `sorted(TEMPLATES.items())` holds exactly the table's items, as many as the table, by strictly ascending id |
| Templates.ListEntry | app.py:479-487 | one listing object: the id, the name as `TemplateName`, the stored ids and the image path or `None`; a missing id key raises its `KeyError` |
| Templates.ListEntries | app.py:479-488 | the comprehension succeeds exactly when every item has its three ids, building one object per item in order; otherwise it raises the `KeyError` of the first item, in order, that lacks one |
| Templates.GetTemplates | app.py:477-497 | `count` is the number of listed templates; any failure is a 500 |
| Templates.ListingSucceedsIff | app.py:477-497 | the listing answers exactly when every template has its three provider ids |
| Templates.ListingFailureNamesFirst | app.py:479-497 | a failed listing is the 500 of the `KeyError` of the first template, by ascending id, that lacks one of its three ids |
| Templates.ListingIsSorted | app.py:488-494 | a listing has one object per template, by strictly ascending id |
| Templates.ListingIsComplete | app.py:479-488 | every template appears in the listing, and only templates appear there |
| Text.NatToString | app.py:373-374 | the decimal rendering in f-strings: non-empty digits with no leading zero |
| Text.ParseNatToString | app.py:373-374 | reading back the decimal rendering of a natural gives the number |
| Text.IntToString | app.py:373-374 | negative ids render with a leading `-` and then the digits of their magnitude |
| Text.IntToStringInjective | app.py:374 | different integers have different decimal renderings |
| Text.Timestamp | app.py:271 | `%Y%m%d_%H%M%S` is 15 characters: digits, with `_` at position 8 |
| Text.ParsePadded | app.py:271 | a zero-padded field reads back as its number when the number fits the width |
| Text.TimestampRoundTrip | app.py:271 | the timestamp determines the date and time it was taken at, to the second |
| Text.LastIndexOf | app.py:272 | `rfind`: the last position of the character, or -1 |
| Text.SplitExt | app.py:272 | `os.path.splitext`: the two parts concatenate to the path; the extension is empty or a `.` followed by no `.` and no `/` |
| Text.ExtensionIff | app.py:272 | there is an extension exactly when the base name has a `.` after a non-dot character |
| Text.ExtensionInBaseName | app.py:272 | a non-empty extension sits at the end of the base name, never in a directory name |
| Text.LocalFileName | app.py:271-273 | the saved name is 15 timestamp characters, `_` at position 8, followed by the upload's extension |
| Text.LocalPath | app.py:274 | the saved file lies in `input/` |
| Text.LocalPathDeterminesTime | app.py:271-274 | two uploads get the same local path only when saved within the same second with the same extension |
| Provider.TaskUrl | app.py:212 | the task id is the whole path after the fixed tasks prefix |
| Provider.TaskUrlInjective | app.py:212 | different task ids query different URLs |
| Provider.HeaderValue | app.py:148-154 | a header is present exactly when some entry has its name, and its value is one of those entries |
| Provider.HeaderValueFirst | app.py:148-154 | the value of a header is the one at its first occurrence |
| Provider.UploadHeaders | app.py:173-175 | the upload sends only the API key |
| Provider.GenerateHeaders | app.py:148-154 | the generation request sends five headers, among them the API key, JSON content type and the `a1.art` host |
| Provider.GenerateHeadersComplete | app.py:151-153 | the other two generation headers are `Accept: */*` and `Connection: keep-alive` |
| Provider.TaskHeaders | app.py:213-219 | the task query sends the API key and JSON content type, and `section: cn` exactly when `is_china` |
| Provider.DetailOr | app.py:163 | `detail=reply.get('msg_cn', default)`: a missing key gives the default, `null` gives the reason phrase, a value is used as is |
| Provider.Unwrap | app.py:189-198 | the upload and the task query succeed exactly on an object reply with `code == 0`, giving its `data` (`None` when missing or `null`); every failure is a 500; a non-zero code quotes `400: msg_cn`, a `null` body gives `None.get`'s message, and a request that raised gives its `str(e)` |
| Provider.CatchAllRaised | app.py:196-198 | a helper's own `except Exception` re-raises every failure as a 500 whose detail is `str(e)`, a caught `HTTPException` turned into a `"status: "` prefix |
| Provider.GenerateOutcome | app.py:156-167 | the generation call succeeds exactly on HTTP 200, giving the whole body; every failure is a 500; another status is quoted with `msg_cn`, or with `None.get`'s message for a `null` body; a request that raised gives its `str(e)` |
| Provider.Envelope.IsEmpty | app.py:303 | `not generation_result` holds for an object reply exactly when it has no keys |
| Provider.GenData.IsEmpty | app.py:312 | `not data` holds for a `data` object exactly when it has no keys |
| Provider.BuildCnet | app.py:283-287 | the `cnet` list is the single entry of the form id and the uploaded image's URL and path; a `None` upload result raises `TypeError`; a missing key raises its `KeyError` |
| Provider.ErrorMessage | app.py:307 | `msg_cn or msg or '未知錯誤'`: never empty, and the first truthy of the three |
| Provider.ValidateGeneration | app.py:303-319 | the reply is accepted exactly when it is a non-empty object with `code == 0` and a non-empty `data` holding a truthy `taskId`, which is returned; every rejection is a 400 with a literal message |
| Provider.ValidationOrder | app.py:303-319 | the four checks run in source order, and the first failing one names the error |
| Status.TaskState.Code | app.py:72-75 | the codes are 10, 20 and 30 |
| Status.TaskState.Name | app.py:551 | the member name of a state is never the text `UNKNOWN` |
| Status.FromCode | app.py:551 | `TaskState(code)` exists exactly for 10, 20 and 30 and has that code |
| Status.StateCodesRoundTrip | app.py:72-75 | each state is recovered from its code; codes and names tell states apart |
| Status.StateText | app.py:551 | the state's member name for a known code, `UNKNOWN` otherwise |
| Status.UnknownIff | app.py:551 | the text is `UNKNOWN` exactly when the state is missing, `null`, or not 10, 20 or 30 |
| Status.ImagesOf | app.py:543 | `get("images", [])`: a missing list reads empty, a `null` one as `None` |
| Status.Normalise | app.py:539-573 | the report passes on id, state, dates and images, with the state text; it fails exactly for state 10 with a `null` image list, where `len(None)` raises |
| Status.ImagesPassedThrough | app.py:562-571 | a present image list is reported whatever the state |
| Status.NullImagesOutsideCompleted | app.py:560-573 | outside COMPLETED a `null` image list still answers, with `images` null |
| Workflow.SaveStep | app.py:200-208 | saving gives back the destination, or a 500 `檔案保存失敗: cause` |
| Workflow.GenerationPayload | app.py:138-146 | the generation payload carries the `cnet` list, ids and count it is given, with an empty description, style and size, as both endpoints call it (app.py:290-298, 404-412) |
| Workflow.SubmitRun | app.py:276-299 | the calls start with the save; the upload follows exactly when the save worked; there are at most three calls |
| Workflow.Generated | app.py:291-319 | the generation step succeeds exactly when the call succeeds and its reply passes the checks, giving the reply's task id |
| Workflow.GenerationFollowsUpload | app.py:281-299 | a generation request is made exactly when save, upload and `cnet` all succeed, and it carries the single `cnet` entry from the upload reply |
| Workflow.UploadFailureStopsBeforeGenerate | app.py:280-281 | a failed upload ends the run after two calls, with the upload's error |
| Workflow.SubmitFailsWithFirstError | app.py:276-319 | a failed save ends the run after one call with its error, a `cnet` list that cannot be built after two with its `TypeError` or `KeyError`, and a sent generation request with what the request or the reply checks raise |
| Workflow.SubmitSucceedsIff | app.py:276-322 | the shared steps succeed exactly when every step does; the task id is the reply's non-empty `taskId` |
| Workflow.CreateRun | app.py:241-332 | every failure of `/create` is a 500; a success reports the timestamped local path |
| Workflow.CreateUsesForm | app.py:243-297 | `/create` saves under `input/<timestamp><ext>` and sends the form's ids and count, the defaults standing in for omitted fields |
| Workflow.CreateSucceedsIff | app.py:276-328 | `/create` answers exactly when save, upload, `cnet`, generation and the reply checks all succeed, with the reply's `taskId`, the upload's `data` and the local path |
| Workflow.CreateFailsWith | app.py:276-332 | `/create` makes the shared steps' calls and fails exactly when they do, with the 500 `str(e)` of their error |
| Workflow.TemplateForm.Id | app.py:342 | an omitted `template_id` is 0 |
| Workflow.MissingTemplate | app.py:373-374 | an unknown id raises a 400 `模板 ID <id> 不存在` |
| Workflow.MissingTemplateInjective | app.py:374 | the message for an unknown template names exactly the id asked for |
| Workflow.GenerateRun | app.py:340-450 | a successful `/generate` names the requested template id (0 when the field is omitted) and that template's name |
| Workflow.UnknownTemplateRejectedFirst | app.py:371-374 | an id absent from the table is answered 400 `模板 ID <id> 不存在` before anything is saved or sent |
| Workflow.TemplateRunUsesTemplate | app.py:371-411 | `/generate` calls out exactly for a known template with all three ids, sends those ids, and asks for one image |
| Workflow.GenerateSucceedsIff | app.py:371-444 | `/generate` answers exactly for a known template with its three ids when every step succeeds, with the reply's `taskId`, the template id and name, the upload's `data` and the local path |
| Workflow.GenerateFailsWith | app.py:376-450 | a template missing an id fails with no call and the 500 of its `KeyError`; otherwise `/generate` makes the shared steps' calls and fails exactly when they do, an `HTTPException` keeping its status and detail |
| Workflow.UploadRejectionAtEndpoints | app.py:192-198 | an upload the provider rejects answers 500 `400: msg_cn` on `/generate` and 500 `500: 400: msg_cn` on `/create`, never 400 |
| Workflow.ValidationStatusByEndpoint | app.py:303-332 | a rejected generation reply gives the check's own 400 on `/generate` but a 500 folding that 400 on `/create` |
| Workflow.StatusRun | app.py:536-577 | `/status` makes exactly one task query, for the given id with `is_china`; any failure is a 500 |
| Workflow.StatusAnswersIff | app.py:536-577 | the query names the task and sends `section: cn`; it answers exactly when the provider's record normalises, with that report |
| Workflow.StatusFailures | app.py:536-577 | a failed task query answers 500 folding its own 500 (`500: 400: msg_cn` for a rejection); a reply without `data` answers 500 `None.get`'s message; a completed task with `null` images answers 500 `len(None)`'s message |
| Service.Service.constructor | app.py:61 | the service starts with the loaded table, a valid one, and an empty trace |
| Service.Service.SaveUploadedFile | app.py:200-208 | records one save and returns `SaveStep` |
| Service.Service.UploadImage | app.py:169-198 | records one upload call to the upload URL with the upload headers and returns `Unwrap` of the reply |
| Service.Service.GenerateImage | app.py:134-167 | records one generation call with the generation headers and payload and returns `GenerateOutcome` |
| Service.Service.CheckTaskResult | app.py:210-233 | records one task query with the task URL and headers and returns `Unwrap` of the reply |
| Service.Service.Submit | app.py:276-322 | extends the trace by exactly the calls of `SubmitRun` and returns its result |
| Service.Service.GenerateStep | app.py:291-319 | records the generation call and returns `Generated` |
| Service.Service.CreateProcess | app.py:241-332 | extends the trace by exactly the calls of `CreateRun` and returns its response |
| Service.Service.GenerateWithTemplate | app.py:340-450 | extends the trace by exactly the calls of `GenerateRun` and returns its response |
| Service.Service.GetProcessStatus | app.py:505-577 | extends the trace by exactly the calls of `StatusRun` and returns its response |

## Left out

- Logging, the FastAPI application object, CORS, static files, the `/` page and `uvicorn`: none of them decides anything.
- `aiohttp`, file I/O and `async`: each outside call is one step whose reply is a parameter.
  - The upload's multipart form (file name and `image/jpeg` content type) is not modelled.
  - Calls do not interleave; concurrent requests are not modelled.
- `os.makedirs("input")` failing is not modelled. Neither is `file.filename` being missing, nor a
  template file path other than `templates.json` beside the program.
- `datetime.now()` is a parameter. For years below 1000 the model pads `%Y` to four digits, as
  `datetime` promises; some C libraries do not pad.
- JSON values of types the service does not expect, which raise other exceptions or compare
  differently, are not modelled. Examples: a `code` of `false` or `0.0`, which Python counts equal
  to 0; a non-string `msg_cn`, `taskId` or image entry; a non-object `data`; a JSON array as the
  whole reply; a string or `null` `template_id`.
- `Errors.Detail` keeps `Phrase(status)` rather than the reason-phrase text. Python's
  `HTTPStatus(status)` raises for unknown codes, and that case is not modelled.
- The empty-string handling and type coercion of FastAPI's form parser are not modelled.
  `CreateForm` and `TemplateForm` treat a field as given or omitted, an omitted one taking its default.
- An unset `API_KEY` (`None`) is not modelled; the key is a string.
- Points where the code behaves in a way a reader might not expect, which the model follows:
  - A provider rejection inside `upload_image`, `generate_image` or `check_task_result` is raised
    as a 400 or another status, and the helper's own `except` rewraps it as a 500
    (app.py:165-167, 196-198, 231-233).
  - The `/status` docstring says images come back only for COMPLETED tasks (app.py:525); the
    other branch passes them on as well (app.py:570).
  - A state code outside 10, 20 and 30 is answered normally, with `state_text` `UNKNOWN`
    (app.py:551, 565).
