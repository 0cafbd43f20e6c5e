/**
 * What each endpoint does, as a function of its inputs and of the provider's replies: the
 * outside calls it makes, in order, and the response it gives. The class in `Service` runs
 * the same steps one call at a time and is proved to follow these functions.
 */
module Workflow {
  import opened Wrappers
  import opened Json
  import opened Errors
  import opened Text
  import opened Templates
  import opened Provider
  import opened Status

  /** An outside effect: saving the upload locally, or one request to the provider. */
  datatype Call =
    | SaveFile(path: string)
    | UploadCall(url: string, headers: Headers, path: string)
    | GenerateCall(url: string, headers: Headers, payload: Payload)
    | TaskQuery(url: string, headers: Headers)

  /** The outcome of copying the upload to disk: done, or the `str(e)` of what it raised. */
  datatype SaveOutcome = Saved | SaveFailed(cause: string)

  /** What the environment answers to each kind of call. */
  datatype Replies = Replies(
    save: SaveOutcome,
    upload: Reply<UploadData>,
    generate: Reply<GenData>,
    task: Reply<TaskRecord>)

  /** `save_uploaded_file`: the destination, or a 500 naming the cause. */
  function SaveStep(o: SaveOutcome, destination: string): (r: Result<string, Raised>)
    ensures r.Success? <==> o.Saved?
    ensures r.Success? ==> r.value == destination
    ensures o.SaveFailed? ==> r == Failure(HttpException(500, Text("檔案保存失敗: " + o.cause)))
  {
    match o
    case Saved => Success(destination)
    case SaveFailed(cause) => Failure(HttpException(500, Text("檔案保存失敗: " + cause)))
  }

  /** The calls made so far and how the steps ended. */
  datatype Run<+R> = Run(calls: seq<Call>, result: Result<R, Raised>)

  /** The calls an endpoint made and the response it gave. */
  datatype Exchange<+R> = Exchange(calls: seq<Call>, response: Result<R, HttpError>)

  /** What the shared steps of both creating endpoints produce. */
  datatype Submitted = Submitted(taskId: string, upload: Option<UploadData>, localPath: string)

  /** The generation request both creating endpoints send: no description, no style, no size. */
  function GenerationPayload(cnet: seq<CnetRef>, appId: Option<string>, versionId: Option<string>,
                             generateNum: int): (p: Payload)
    ensures p.cnet == cnet && p.appId == appId && p.versionId == versionId && p.generateNum == generateNum
    ensures p.description == [] && p.styleId == "" && p.size == Size("")
  {
    Payload(cnet, [], "", Size(""), appId, versionId, generateNum)
  }

  /**
   * The steps both `/create` and `/generate` run after choosing their parameters:
   * save the upload, upload it, build the `cnet` list, request the generation, check the
   * reply. The first step that raises ends the run.
   */
  function SubmitRun(apiKey: string, replies: Replies, path: string, cnetFormId: Option<string>,
                     appId: Option<string>, versionId: Option<string>, generateNum: int): (run: Run<Submitted>)
    ensures 1 <= |run.calls| <= 3 && run.calls[0] == SaveFile(path)
    ensures |run.calls| >= 2 <==> replies.save.Saved?
    ensures |run.calls| >= 2 ==> run.calls[1] == UploadCall(UploadUrl, UploadHeaders(apiKey), path)
  {
    var save := SaveFile(path);
    var upload := UploadCall(UploadUrl, UploadHeaders(apiKey), path);
    match SaveStep(replies.save, path)
    case Failure(e) => Run([save], Failure(e))
    case Success(_) =>
      match Unwrap(replies.upload)
      case Failure(e) => Run([save, upload], Failure(e))
      case Success(data) =>
        match BuildCnet(cnetFormId, data)
        case Failure(e) => Run([save, upload], Failure(e))
        case Success(cnet) =>
          var generate := GenerateCall(GenerateUrl, GenerateHeaders(apiKey),
                                       GenerationPayload(cnet, appId, versionId, generateNum));
          Run([save, upload, generate], Generated(replies.generate, data, path))
  }

  /** How the generation request and the checks on its reply end. */
  function Generated(reply: Reply<GenData>, upload: Option<UploadData>, path: string): (r: Result<Submitted, Raised>)
    ensures r.Success? <==>
      GenerateOutcome(reply).Success? && ValidateGeneration(GenerateOutcome(reply).value).Success?
    ensures r.Success? ==>
      r.value == Submitted(ValidateGeneration(GenerateOutcome(reply).value).value, upload, path)
  {
    var body :- GenerateOutcome(reply);
    var taskId :- ValidateGeneration(body);
    Success(Submitted(taskId, upload, path))
  }

  /**
   * A generation request is made exactly when the upload was saved and uploaded and its reply
   * carries both keys; it then holds the single `cnet` entry built from that reply.
   */
  lemma GenerationFollowsUpload(apiKey: string, replies: Replies, path: string, cnetFormId: Option<string>,
                                appId: Option<string>, versionId: Option<string>, generateNum: int)
    ensures var run := SubmitRun(apiKey, replies, path, cnetFormId, appId, versionId, generateNum);
      |run.calls| == 3 <==>
        replies.save.Saved? && Unwrap(replies.upload).Success? &&
        BuildCnet(cnetFormId, Unwrap(replies.upload).value).Success?
    ensures var run := SubmitRun(apiKey, replies, path, cnetFormId, appId, versionId, generateNum);
      |run.calls| == 3 ==>
        var d := Unwrap(replies.upload).value.value;
        run.calls[2] == GenerateCall(GenerateUrl, GenerateHeaders(apiKey),
          GenerationPayload([CnetRef(cnetFormId, d.imageUrl.Get(), d.path.Get())], appId, versionId, generateNum))
  {
  }

  /** An upload that fails ends the run before any generation request, with the upload's own error. */
  lemma UploadFailureStopsBeforeGenerate(apiKey: string, replies: Replies, path: string, cnetFormId: Option<string>,
                                         appId: Option<string>, versionId: Option<string>, generateNum: int)
    requires replies.save.Saved? && Unwrap(replies.upload).Failure?
    ensures var run := SubmitRun(apiKey, replies, path, cnetFormId, appId, versionId, generateNum);
      && run.calls == [SaveFile(path), UploadCall(UploadUrl, UploadHeaders(apiKey), path)]
      && run.result == Failure(Unwrap(replies.upload).error)
  {
  }

  /**
   * Each step that raises ends the run with its own error: a failed save after one call, a
   * `cnet` list that cannot be built after two, and once the generation request is sent,
   * whatever the request or the checks on its reply raise.
   */
  lemma SubmitFailsWithFirstError(apiKey: string, replies: Replies, path: string, cnetFormId: Option<string>,
                                  appId: Option<string>, versionId: Option<string>, generateNum: int)
    ensures var run := SubmitRun(apiKey, replies, path, cnetFormId, appId, versionId, generateNum);
      !replies.save.Saved? ==>
        |run.calls| == 1 && run.result == Failure(SaveStep(replies.save, path).error)
    ensures var run := SubmitRun(apiKey, replies, path, cnetFormId, appId, versionId, generateNum);
      (replies.save.Saved? && Unwrap(replies.upload).Success? &&
       BuildCnet(cnetFormId, Unwrap(replies.upload).value).Failure?) ==>
        |run.calls| == 2 && run.result == Failure(BuildCnet(cnetFormId, Unwrap(replies.upload).value).error)
    ensures var run := SubmitRun(apiKey, replies, path, cnetFormId, appId, versionId, generateNum);
      |run.calls| == 3 ==> run.result == Generated(replies.generate, Unwrap(replies.upload).value, path)
  {
  }

  /**
   * The shared steps succeed exactly when every step succeeds, and the task id they return is
   * the non-empty `taskId` of the generation reply.
   */
  lemma SubmitSucceedsIff(apiKey: string, replies: Replies, path: string, cnetFormId: Option<string>,
                          appId: Option<string>, versionId: Option<string>, generateNum: int)
    ensures var run := SubmitRun(apiKey, replies, path, cnetFormId, appId, versionId, generateNum);
      run.result.Success? <==>
        && replies.save.Saved? && Unwrap(replies.upload).Success?
        && BuildCnet(cnetFormId, Unwrap(replies.upload).value).Success?
        && GenerateOutcome(replies.generate).Success?
        && ValidateGeneration(GenerateOutcome(replies.generate).value).Success?
    ensures var run := SubmitRun(apiKey, replies, path, cnetFormId, appId, versionId, generateNum);
      run.result.Success? ==>
        && run.result.value.taskId == ValidateGeneration(GenerateOutcome(replies.generate).value).value
        && run.result.value.taskId != ""
        && run.result.value.upload == Unwrap(replies.upload).value
        && run.result.value.localPath == path
        && |run.calls| == 3
  {
  }

  /** The form of `POST /create`; `None` for a field left out, which then takes its default. */
  datatype CreateForm = CreateForm(
    filename: string,
    appId: Option<string>,
    versionId: Option<string>,
    cnetFormId: Option<string>,
    generateNum: Option<int>)

  const DefaultAppId := "1920079111241039873"
  const DefaultVersionId := "1920079111245234177"
  const DefaultCnetFormId := "17466175263110005"
  const DefaultGenerateNum := 1

  /** The body of a successful `POST /create` (its `status` is always `"success"`). */
  datatype Created = Created(taskId: string, uploadResult: Option<UploadData>, localPath: string)

  /** `POST /create`: the shared steps with the form's parameters; every failure becomes a 500. */
  function CreateRun(apiKey: string, replies: Replies, now: DateTime, form: CreateForm): (x: Exchange<Created>)
    requires now.Valid()
    ensures x.response.Failure? ==> x.response.error.status == 500
    ensures x.response.Success? ==> x.response.value.localPath == LocalPath(now, form.filename)
  {
    var run := SubmitRun(apiKey, replies, LocalPath(now, form.filename),
                         Some(form.cnetFormId.GetOr(DefaultCnetFormId)),
                         Some(form.appId.GetOr(DefaultAppId)),
                         Some(form.versionId.GetOr(DefaultVersionId)),
                         form.generateNum.GetOr(DefaultGenerateNum));
    match run.result
    case Success(s) => Exchange(run.calls, Success(Created(s.taskId, s.upload, s.localPath)))
    case Failure(e) => Exchange(run.calls, Failure(CatchAll(e)))
  }

  /**
   * `/create` saves under the timestamped name, and its generation request carries the form's
   * parameters, the defaults standing in for the fields left out.
   */
  lemma CreateUsesForm(apiKey: string, replies: Replies, now: DateTime, form: CreateForm)
    requires now.Valid()
    ensures CreateRun(apiKey, replies, now, form).calls[0] == SaveFile("input/" + Timestamp(now) + SplitExt(form.filename).1)
    ensures var calls := CreateRun(apiKey, replies, now, form).calls;
      |calls| == 3 ==>
        && calls[2].payload.appId == Some(if form.appId.Some? then form.appId.value else DefaultAppId)
        && calls[2].payload.versionId == Some(if form.versionId.Some? then form.versionId.value else DefaultVersionId)
        && calls[2].payload.generateNum == (if form.generateNum.Some? then form.generateNum.value else 1)
        && |calls[2].payload.cnet| == 1
        && calls[2].payload.cnet[0].id == Some(if form.cnetFormId.Some? then form.cnetFormId.value else DefaultCnetFormId)
  {
    var path := LocalPath(now, form.filename);
    GenerationFollowsUpload(apiKey, replies, path, Some(form.cnetFormId.GetOr(DefaultCnetFormId)),
                            Some(form.appId.GetOr(DefaultAppId)), Some(form.versionId.GetOr(DefaultVersionId)),
                            form.generateNum.GetOr(DefaultGenerateNum));
  }

  /**
   * `/create` answers exactly when every step succeeds, and its answer carries the generation
   * reply's task id, the upload's `data` and the timestamped local path.
   */
  lemma CreateSucceedsIff(apiKey: string, replies: Replies, now: DateTime, form: CreateForm)
    requires now.Valid()
    ensures var x := CreateRun(apiKey, replies, now, form);
      x.response.Success? <==>
        && replies.save.Saved? && Unwrap(replies.upload).Success?
        && BuildCnet(Some(form.cnetFormId.GetOr(DefaultCnetFormId)), Unwrap(replies.upload).value).Success?
        && GenerateOutcome(replies.generate).Success?
        && ValidateGeneration(GenerateOutcome(replies.generate).value).Success?
    ensures var x := CreateRun(apiKey, replies, now, form);
      x.response.Success? ==>
        x.response.value == Created(ValidateGeneration(GenerateOutcome(replies.generate).value).value,
                                    Unwrap(replies.upload).value, LocalPath(now, form.filename))
  {
    SubmitSucceedsIff(apiKey, replies, LocalPath(now, form.filename),
                      Some(form.cnetFormId.GetOr(DefaultCnetFormId)),
                      Some(form.appId.GetOr(DefaultAppId)), Some(form.versionId.GetOr(DefaultVersionId)),
                      form.generateNum.GetOr(DefaultGenerateNum));
  }

  /**
   * `/create` makes the calls of the shared steps, and fails exactly when they do, with the
   * 500 that `CatchAll` makes of their error.
   */
  lemma CreateFailsWith(apiKey: string, replies: Replies, now: DateTime, form: CreateForm)
    requires now.Valid()
    ensures var x := CreateRun(apiKey, replies, now, form);
      var run := SubmitRun(apiKey, replies, LocalPath(now, form.filename),
                           Some(form.cnetFormId.GetOr(DefaultCnetFormId)),
                           Some(form.appId.GetOr(DefaultAppId)), Some(form.versionId.GetOr(DefaultVersionId)),
                           form.generateNum.GetOr(DefaultGenerateNum));
      && x.calls == run.calls
      && (x.response.Failure? <==> run.result.Failure?)
      && (x.response.Failure? ==> x.response.error == CatchAll(run.result.error))
  {
  }

  /** The form of `POST /generate`; `templateId` is `None` when the field is left out. */
  datatype TemplateForm = TemplateForm(filename: string, templateId: Option<int>)
  {
    /** The template id asked for: `Form(default=0)`. */
    function Id(): (id: int)
      ensures templateId.None? ==> id == DefaultTemplateId
      ensures templateId.Some? ==> id == templateId.value
    {
      templateId.GetOr(DefaultTemplateId)
    }
  }

  const DefaultTemplateId := 0

  /** The body of a successful `POST /generate` (its `status` is always `"success"`). */
  datatype TemplateCreated = TemplateCreated(
    taskId: string,
    templateId: int,
    templateName: Option<string>,
    uploadResult: Option<UploadData>,
    localPath: string)

  /** The 400 for an unknown template id. */
  function MissingTemplate(id: int): (e: Raised)
    ensures e.HttpException? && e.status == 400 && e.detail.Text?
    ensures e.detail.text == "模板 ID " + IntToString(id) + " 不存在"
  {
    HttpException(400, Text("模板 ID " + IntToString(id) + " 不存在"))
  }

  /** The message for an unknown template names exactly the id that was asked for. */
  lemma MissingTemplateInjective(a: int, b: int)
    requires MissingTemplate(a) == MissingTemplate(b)
    ensures a == b
  {
    var prefix, suffix := "模板 ID ", " 不存在";
    var s, t := IntToString(a), IntToString(b);
    var m := MissingTemplate(a).detail.text;
    assert |s| == |t|;
    assert m[|prefix|..|m| - |suffix|] == s;
    assert MissingTemplate(b).detail.text[|prefix|..|m| - |suffix|] == t;
    IntToStringInjective(a, b);
  }

  /**
   * `POST /generate`: the template's parameters and one image for the shared steps. An
   * `HTTPException` keeps its status and detail; any other exception becomes a 500.
   */
  function GenerateRun(apiKey: string, replies: Replies, table: Table, now: DateTime,
                       form: TemplateForm): (x: Exchange<TemplateCreated>)
    requires ValidTable(table) && now.Valid()
    ensures x.response.Success? ==>
      && x.response.value.templateId == form.Id()
      && GetTemplateConfig(table, form.Id()).Some?
      && x.response.value.templateName == TemplateName(GetTemplateConfig(table, form.Id()).value, form.Id())
  {
    var templateId := form.Id();
    match GetTemplateConfig(table, templateId)
    case None => Exchange([], Failure(KeepHttp(MissingTemplate(templateId))))
    case Some(t) =>
      match TemplateIds(t)
      case Failure(e) => Exchange([], Failure(KeepHttp(e)))
      case Success(ids) =>
        var run := SubmitRun(apiKey, replies, LocalPath(now, form.filename), ids.cnetFormId, ids.appId, ids.versionId, 1);
        match run.result
        case Success(s) =>
          Exchange(run.calls, Success(TemplateCreated(s.taskId, templateId, TemplateName(t, templateId),
                                                      s.upload, s.localPath)))
        case Failure(e) => Exchange(run.calls, Failure(KeepHttp(e)))
  }

  /** An unknown template id is answered with a 400 naming it, before anything is saved or sent. */
  lemma UnknownTemplateRejectedFirst(apiKey: string, replies: Replies, table: Table, now: DateTime,
                                     form: TemplateForm)
    requires ValidTable(table) && now.Valid()
    requires forall i :: 0 <= i < |table| ==> table[i].0 != form.Id()
    ensures GenerateRun(apiKey, replies, table, now, form) ==
      Exchange([], Failure(HttpError(400, Text("模板 ID " + IntToString(form.Id()) + " 不存在"))))
  {
  }

  /**
   * `/generate` makes outside calls only for a known template with all three ids, and then
   * sends that template's ids and asks for exactly one image.
   */
  lemma TemplateRunUsesTemplate(apiKey: string, replies: Replies, table: Table, now: DateTime,
                                form: TemplateForm)
    requires ValidTable(table) && now.Valid()
    ensures var calls := GenerateRun(apiKey, replies, table, now, form).calls;
      calls != [] <==>
        GetTemplateConfig(table, form.Id()).Some? && TemplateIds(GetTemplateConfig(table, form.Id()).value).Success?
    ensures var calls := GenerateRun(apiKey, replies, table, now, form).calls;
      |calls| == 3 ==>
        var t := GetTemplateConfig(table, form.Id()).value;
        && calls[2].payload.appId == t.appId.Get() && calls[2].payload.versionId == t.versionId.Get()
        && calls[2].payload.generateNum == 1
        && |calls[2].payload.cnet| == 1 && calls[2].payload.cnet[0].id == t.cnetFormId.Get()
  {
    match GetTemplateConfig(table, form.Id())
    case None =>
    case Some(t) =>
      match TemplateIds(t)
      case Failure(_) =>
      case Success(ids) =>
        GenerationFollowsUpload(apiKey, replies, LocalPath(now, form.filename), ids.cnetFormId, ids.appId, ids.versionId, 1);
  }

  /**
   * `/generate` answers exactly for a known template with all three ids when every step
   * succeeds, and its answer carries the generation reply's task id, the requested template,
   * the upload's `data` and the timestamped local path.
   */
  lemma GenerateSucceedsIff(apiKey: string, replies: Replies, table: Table, now: DateTime, form: TemplateForm)
    requires ValidTable(table) && now.Valid()
    ensures var x := GenerateRun(apiKey, replies, table, now, form);
      var t := GetTemplateConfig(table, form.Id());
      x.response.Success? <==>
        && t.Some? && TemplateIds(t.value).Success?
        && replies.save.Saved? && Unwrap(replies.upload).Success?
        && BuildCnet(TemplateIds(t.value).value.cnetFormId, Unwrap(replies.upload).value).Success?
        && GenerateOutcome(replies.generate).Success?
        && ValidateGeneration(GenerateOutcome(replies.generate).value).Success?
    ensures var x := GenerateRun(apiKey, replies, table, now, form);
      x.response.Success? ==>
        var t := GetTemplateConfig(table, form.Id()).value;
        x.response.value == TemplateCreated(ValidateGeneration(GenerateOutcome(replies.generate).value).value,
                                            form.Id(), TemplateName(t, form.Id()),
                                            Unwrap(replies.upload).value, LocalPath(now, form.filename))
  {
    match GetTemplateConfig(table, form.Id())
    case None =>
    case Some(t) =>
      match TemplateIds(t)
      case Failure(_) =>
      case Success(ids) =>
        SubmitSucceedsIff(apiKey, replies, LocalPath(now, form.filename), ids.cnetFormId, ids.appId, ids.versionId, 1);
  }

  /**
   * `/generate` fails without any call for a template without its three ids, with the
   * `KeyError` of the first missing one as a 500; past that, it makes the calls of the shared
   * steps and fails exactly when they do, with the error `KeepHttp` keeps of theirs.
   */
  lemma GenerateFailsWith(apiKey: string, replies: Replies, table: Table, now: DateTime, form: TemplateForm)
    requires ValidTable(table) && now.Valid()
    ensures var x := GenerateRun(apiKey, replies, table, now, form);
      var t := GetTemplateConfig(table, form.Id());
      t.Some? && TemplateIds(t.value).Failure? ==>
        x == Exchange([], Failure(KeepHttp(TemplateIds(t.value).error)))
    ensures var x := GenerateRun(apiKey, replies, table, now, form);
      var t := GetTemplateConfig(table, form.Id());
      t.Some? && TemplateIds(t.value).Success? ==>
        var ids := TemplateIds(t.value).value;
        var run := SubmitRun(apiKey, replies, LocalPath(now, form.filename),
                             ids.cnetFormId, ids.appId, ids.versionId, 1);
        && x.calls == run.calls
        && (x.response.Failure? <==> run.result.Failure?)
        && (x.response.Failure? ==> x.response.error == KeepHttp(run.result.error))
  {
  }

  /**
   * An upload the provider rejects (`code` other than 0) is never answered with a 400:
   * `upload_image`'s own handler turns its 400 into a 500, which `/generate` passes on
   * and `/create` wraps once more.
   */
  lemma UploadRejectionAtEndpoints(apiKey: string, replies: Replies, table: Table, now: DateTime,
                                   tform: TemplateForm, cform: CreateForm)
    requires ValidTable(table) && now.Valid()
    requires GetTemplateConfig(table, tform.Id()).Some?
    requires TemplateIds(GetTemplateConfig(table, tform.Id()).value).Success?
    requires replies.save.Saved?
    requires replies.upload.Received? && replies.upload.body.Object? && replies.upload.body.envelope.code != Value(0)
    ensures var rejected := Wrapped(400, DetailOr(replies.upload.body.envelope.msgCn, 400, "未知錯誤"));
      && GenerateRun(apiKey, replies, table, now, tform).response == Failure(HttpError(500, rejected))
      && CreateRun(apiKey, replies, now, cform).response == Failure(HttpError(500, Wrapped(500, rejected)))
  {
  }

  /**
   * When the generation reply fails a check, `/generate` answers with that check's 400 and
   * message, while `/create`, given the same replies, answers 500 with the 400 folded into its detail.
   */
  lemma ValidationStatusByEndpoint(apiKey: string, replies: Replies, table: Table, now: DateTime,
                                   tform: TemplateForm, form: CreateForm)
    requires ValidTable(table) && now.Valid()
    requires GetTemplateConfig(table, tform.Id()).Some?
    requires TemplateIds(GetTemplateConfig(table, tform.Id()).value).Success?
    requires replies.save.Saved? && Unwrap(replies.upload).Success? && Unwrap(replies.upload).value.Some?
    requires !Unwrap(replies.upload).value.value.imageUrl.Absent? && !Unwrap(replies.upload).value.value.path.Absent?
    requires GenerateOutcome(replies.generate).Success?
    requires ValidateGeneration(GenerateOutcome(replies.generate).value).Failure?
    ensures var e := ValidateGeneration(GenerateOutcome(replies.generate).value).error;
      && GenerateRun(apiKey, replies, table, now, tform).response == Failure(HttpError(400, e.detail))
      && CreateRun(apiKey, replies, now, form).response == Failure(HttpError(500, Wrapped(400, e.detail)))
  {
  }

  /** `GET /status/{task_id}`: one task query with `is_china=True`; any failure becomes a 500. */
  function StatusRun(apiKey: string, replies: Replies, taskId: string): (x: Exchange<StatusReport>)
    ensures x.calls == [TaskQuery(TaskUrl(taskId), TaskHeaders(apiKey, true))]
    ensures x.response.Failure? ==> x.response.error.status == 500
  {
    var calls := [TaskQuery(TaskUrl(taskId), TaskHeaders(apiKey, true))];
    match Unwrap(replies.task)
    case Failure(e) => Exchange(calls, Failure(CatchAll(e)))
    case Success(None) => Exchange(calls, Failure(CatchAll(PyException(NoneHasNoGet))))
    case Success(Some(rec)) =>
      match Normalise(rec)
      case Failure(e) => Exchange(calls, Failure(CatchAll(e)))
      case Success(report) => Exchange(calls, Success(report))
  }

  /**
   * The status query names the task in its URL and sends `section: cn`; it answers exactly
   * when the provider returns a task record that normalises, and then with that record's report.
   */
  lemma StatusAnswersIff(apiKey: string, replies: Replies, taskId: string)
    ensures var q := StatusRun(apiKey, replies, taskId).calls[0];
      q.url[|TasksUrl|..] == taskId && HeaderValue(q.headers, "section") == Some("cn")
    ensures var x := StatusRun(apiKey, replies, taskId);
      x.response.Success? <==>
        Unwrap(replies.task).Success? && Unwrap(replies.task).value.Some? &&
        Normalise(Unwrap(replies.task).value.value).Success?
    ensures var x := StatusRun(apiKey, replies, taskId);
      x.response.Success? ==> x.response.value == Normalise(Unwrap(replies.task).value.value).value
  {
  }

  /**
   * How `/status` fails: the task query's own 500 folded into a 500, `None.get` when the reply
   * has no `data`, and `len(None)` for a completed task with a `null` image list.
   */
  lemma StatusFailures(apiKey: string, replies: Replies, taskId: string)
    ensures Unwrap(replies.task).Failure? ==>
      StatusRun(apiKey, replies, taskId).response == Failure(CatchAll(Unwrap(replies.task).error))
    ensures replies.task.Received? && replies.task.body.Object? && replies.task.body.envelope.code != Value(0) ==>
      StatusRun(apiKey, replies, taskId).response ==
        Failure(HttpError(500, Wrapped(500, Wrapped(400, DetailOr(replies.task.body.envelope.msgCn, 400, "未知錯誤")))))
    ensures Unwrap(replies.task) == Success(None) ==>
      StatusRun(apiKey, replies, taskId).response == Failure(HttpError(500, Text(NoneHasNoGet)))
    ensures (Unwrap(replies.task).Success? && Unwrap(replies.task).value.Some? &&
             Normalise(Unwrap(replies.task).value.value).Failure?) ==>
      StatusRun(apiKey, replies, taskId).response == Failure(HttpError(500, Text(NoneHasNoLen)))
  {
  }
}
