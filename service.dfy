/**
 * The service itself: the API key, the template table loaded at start-up, and a stand-in for
 * the outside world that answers every call with a fixed reply and records the call in `trace`.
 * Each endpoint is a method that makes its calls one at a time, stopping at the first failure.
 */
module Service {
  import opened Wrappers
  import opened Errors
  import opened Text
  import opened Templates
  import opened Provider
  import opened Status
  import opened Workflow

  class Service {
    const apiKey: string
    const templates: Table
    const replies: Replies
    /** Every call made so far, oldest first. */
    var trace: seq<Call>

    /** Start-up: `TEMPLATES = load_templates()`. */
    constructor(apiKey: string, file: TemplateFile, replies: Replies)
      ensures this.apiKey == apiKey && this.replies == replies
      ensures templates == LoadTemplates(file) && ValidTable(templates)
      ensures trace == []
    {
      this.apiKey := apiKey;
      this.replies := replies;
      templates := LoadTemplates(file);
      trace := [];
    }

    /** `save_uploaded_file(upload_file, destination)`. */
    method SaveUploadedFile(destination: string) returns (r: Result<string, Raised>)
      modifies this
      ensures trace == old(trace) + [SaveFile(destination)]
      ensures r == SaveStep(replies.save, destination)
    {
      trace := trace + [SaveFile(destination)];
      r := SaveStep(replies.save, destination);
    }

    /** `upload_image(file_path)`. */
    method UploadImage(path: string) returns (r: Result<Option<UploadData>, Raised>)
      modifies this
      ensures trace == old(trace) + [UploadCall(UploadUrl, UploadHeaders(apiKey), path)]
      ensures r == Unwrap(replies.upload)
    {
      trace := trace + [UploadCall(UploadUrl, UploadHeaders(apiKey), path)];
      r := Unwrap(replies.upload);
    }

    /** `generate_image(...)` with the request already assembled. */
    method GenerateImage(payload: Payload) returns (r: Result<Body<GenData>, Raised>)
      modifies this
      ensures trace == old(trace) + [GenerateCall(GenerateUrl, GenerateHeaders(apiKey), payload)]
      ensures r == GenerateOutcome(replies.generate)
    {
      trace := trace + [GenerateCall(GenerateUrl, GenerateHeaders(apiKey), payload)];
      r := GenerateOutcome(replies.generate);
    }

    /** `check_task_result(task_id, is_china)`. */
    method CheckTaskResult(taskId: string, isChina: bool) returns (r: Result<Option<TaskRecord>, Raised>)
      modifies this
      ensures trace == old(trace) + [TaskQuery(TaskUrl(taskId), TaskHeaders(apiKey, isChina))]
      ensures r == Unwrap(replies.task)
    {
      trace := trace + [TaskQuery(TaskUrl(taskId), TaskHeaders(apiKey, isChina))];
      r := Unwrap(replies.task);
    }

    /** The steps both creating endpoints share, from saving the upload to checking the generation reply. */
    method Submit(path: string, cnetFormId: Option<string>, appId: Option<string>, versionId: Option<string>,
                  generateNum: int) returns (r: Result<Submitted, Raised>)
      modifies this
      ensures var run := SubmitRun(apiKey, replies, path, cnetFormId, appId, versionId, generateNum);
        trace == old(trace) + run.calls && r == run.result
    {
      ghost var before := trace;
      var saved := SaveUploadedFile(path);
      if saved.Failure? {
        return Failure(saved.error);
      }
      var upload := UploadImage(path);
      ghost var uploaded := trace;
      assert uploaded == before + [SaveFile(path), UploadCall(UploadUrl, UploadHeaders(apiKey), path)];
      if upload.Failure? {
        return Failure(upload.error);
      }
      var cnet := BuildCnet(cnetFormId, upload.value);
      if cnet.Failure? {
        return Failure(cnet.error);
      }
      var payload := GenerationPayload(cnet.value, appId, versionId, generateNum);
      r := GenerateStep(payload, upload.value, path);
      assert trace == uploaded + [GenerateCall(GenerateUrl, GenerateHeaders(apiKey), payload)];
      assert SubmitRun(apiKey, replies, path, cnetFormId, appId, versionId, generateNum).calls ==
        [SaveFile(path), UploadCall(UploadUrl, UploadHeaders(apiKey), path),
         GenerateCall(GenerateUrl, GenerateHeaders(apiKey), payload)];
    }

    /** The generation request and the checks both creating endpoints run on its reply. */
    method GenerateStep(payload: Payload, upload: Option<UploadData>, path: string) returns (r: Result<Submitted, Raised>)
      modifies this
      ensures trace == old(trace) + [GenerateCall(GenerateUrl, GenerateHeaders(apiKey), payload)]
      ensures r == Generated(replies.generate, upload, path)
    {
      var body :- GenerateImage(payload);
      var taskId :- ValidateGeneration(body);
      r := Success(Submitted(taskId, upload, path));
    }

    /** `POST /create`, at time `now`. */
    method CreateProcess(form: CreateForm, now: DateTime) returns (r: Result<Created, HttpError>)
      requires now.Valid()
      modifies this
      ensures var x := CreateRun(apiKey, replies, now, form);
        trace == old(trace) + x.calls && r == x.response
    {
      var submitted := Submit(LocalPath(now, form.filename),
                              Some(form.cnetFormId.GetOr(DefaultCnetFormId)),
                              Some(form.appId.GetOr(DefaultAppId)),
                              Some(form.versionId.GetOr(DefaultVersionId)),
                              form.generateNum.GetOr(DefaultGenerateNum));
      match submitted
      case Success(s) => r := Success(Created(s.taskId, s.upload, s.localPath));
      case Failure(e) => r := Failure(CatchAll(e));
    }

    /** `POST /generate`, at time `now`. */
    method GenerateWithTemplate(form: TemplateForm, now: DateTime)
      returns (r: Result<TemplateCreated, HttpError>)
      requires ValidTable(templates) && now.Valid()
      modifies this
      ensures var x := GenerateRun(apiKey, replies, templates, now, form);
        trace == old(trace) + x.calls && r == x.response
    {
      var templateId := form.Id();
      var template := GetTemplateConfig(templates, templateId);
      if template.None? {
        return Failure(KeepHttp(MissingTemplate(templateId)));
      }
      var ids := TemplateIds(template.value);
      if ids.Failure? {
        return Failure(KeepHttp(ids.error));
      }
      var submitted := Submit(LocalPath(now, form.filename), ids.value.cnetFormId, ids.value.appId,
                              ids.value.versionId, 1);
      match submitted
      case Success(s) =>
        r := Success(TemplateCreated(s.taskId, templateId, TemplateName(template.value, templateId),
                                     s.upload, s.localPath));
      case Failure(e) => r := Failure(KeepHttp(e));
    }

    /** `GET /status/{task_id}`. */
    method GetProcessStatus(taskId: string) returns (r: Result<StatusReport, HttpError>)
      modifies this
      ensures var x := StatusRun(apiKey, replies, taskId);
        trace == old(trace) + x.calls && r == x.response
    {
      var task := CheckTaskResult(taskId, true);
      if task.Failure? {
        return Failure(CatchAll(task.error));
      }
      if task.value.None? {
        return Failure(CatchAll(PyException(NoneHasNoGet)));
      }
      var report := Normalise(task.value.value);
      if report.Failure? {
        return Failure(CatchAll(report.error));
      }
      r := Success(report.value);
    }
  }
}
