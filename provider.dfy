/**
 * The three calls to the A1.art open API (upload an image, start a generation, query a task):
 * what the service sends, and how it turns each reply into a value or an exception.
 */
module Provider {
  import opened Wrappers
  import opened Json
  import opened Errors

  const UploadUrl := "https://a1.art/open-api/v1/a1/images/upload"
  const GenerateUrl := "https://a1.art/open-api/v1/a1/images/generate"
  const TasksUrl := "https://a1.art/open-api/v1/a1/tasks/"

  /** `f"https://a1.art/open-api/v1/a1/tasks/{task_id}"`: the id is the whole path after the fixed prefix. */
  function TaskUrl(taskId: string): (url: string)
    ensures |url| == |TasksUrl| + |taskId|
    ensures url[..|TasksUrl|] == TasksUrl && url[|TasksUrl|..] == taskId
  {
    TasksUrl + taskId
  }

  /** Two task queries go to the same URL only for the same task id. */
  lemma TaskUrlInjective(a: string, b: string)
    requires TaskUrl(a) == TaskUrl(b)
    ensures a == b
  {
    assert a == TaskUrl(a)[|TasksUrl|..];
  }

  /** Request headers, in the order the service writes them. */
  type Headers = seq<(string, string)>

  /** The value of header `name`, if sent. */
  function HeaderValue(h: Headers, name: string): (r: Option<string>)
    ensures r.Some? <==> exists i :: 0 <= i < |h| && h[i].0 == name
    ensures r.Some? ==> (name, r.value) in h
  {
    if h == [] then None
    else if h[0].0 == name then Some(h[0].1)
    else
      var r := HeaderValue(h[1..], name);
      assert forall i :: 1 <= i < |h| ==> h[i] == h[1..][i - 1];
      assert r.Some? ==> (name, r.value) in h[1..];
      r
  }

  /** The value sent for a header is the one at its first occurrence. */
  lemma {:induction false} HeaderValueFirst(h: Headers, name: string, i: int)
    requires 0 <= i < |h| && h[i].0 == name
    requires forall j :: 0 <= j < i ==> h[j].0 != name
    ensures HeaderValue(h, name) == Some(h[i].1)
  {
    if i > 0 {
      HeaderValueFirst(h[1..], name, i - 1);
    }
  }

  function UploadHeaders(apiKey: string): (h: Headers)
    ensures HeaderValue(h, "apiKey") == Some(apiKey)
    ensures |h| == 1
  {
    [("apiKey", apiKey)]
  }

  function GenerateHeaders(apiKey: string): (h: Headers)
    ensures HeaderValue(h, "apiKey") == Some(apiKey)
    ensures HeaderValue(h, "Content-Type") == Some("application/json")
    ensures HeaderValue(h, "Host") == Some("a1.art")
    ensures |h| == 5
  {
    var h := [("apiKey", apiKey), ("Content-Type", "application/json"), ("Accept", "*/*"),
              ("Host", "a1.art"), ("Connection", "keep-alive")];
    HeaderValueFirst(h, "Host", 3);
    h
  }

  /** The remaining two generation headers: any media type accepted, and the connection kept open. */
  lemma GenerateHeadersComplete(apiKey: string)
    ensures HeaderValue(GenerateHeaders(apiKey), "Accept") == Some("*/*")
    ensures HeaderValue(GenerateHeaders(apiKey), "Connection") == Some("keep-alive")
  {
    var h := GenerateHeaders(apiKey);
    HeaderValueFirst(h, "Accept", 2);
    HeaderValueFirst(h[3..], "Connection", 1);
    assert HeaderValue(h[2..], "Connection") == HeaderValue(h[3..], "Connection");
  }

  /** The task query headers; `section: cn` is added exactly when `isChina`. */
  function TaskHeaders(apiKey: string, isChina: bool): (h: Headers)
    ensures HeaderValue(h, "apiKey") == Some(apiKey)
    ensures HeaderValue(h, "Content-Type") == Some("application/json")
    ensures HeaderValue(h, "section") == (if isChina then Some("cn") else None)
  {
    var base := [("apiKey", apiKey), ("Content-Type", "application/json")];
    if isChina then
      var h := base + [("section", "cn")];
      HeaderValueFirst(h, "section", 2);
      h
    else base
  }

  /** One element of the `cnet` list: the ControlNet form and the uploaded image it reads. */
  datatype CnetRef = CnetRef(id: Option<string>, imageUrl: Option<string>, path: Option<string>)

  datatype Size = Size(sizeId: string)

  /** The JSON body of the generation request. */
  datatype Payload = Payload(
    cnet: seq<CnetRef>,
    description: seq<string>,
    styleId: string,
    size: Size,
    appId: Option<string>,
    versionId: Option<string>,
    generateNum: int)

  /** A decoded reply object: `code`, `msg_cn`, `msg`, `data`, and whether it has any other key. */
  datatype Envelope<+D> = Envelope(code: Field<int>, msgCn: Field<string>, msg: Field<string>,
                                   data: Field<D>, otherKeys: bool)
  {
    /** `{}`: the only falsy object. */
    predicate IsEmpty()
      ensures IsEmpty() <==> this == Envelope(Absent, Absent, Absent, Absent, false)
    {
      code.Absent? && msgCn.Absent? && msg.Absent? && data.Absent? && !otherKeys
    }
  }

  /** A reply body: JSON `null` or an object. */
  datatype Body<+D> = NullBody | Object(envelope: Envelope<D>)

  /**
   * The outcome of one request: either something raised before a JSON body was in hand
   * (connection error, undecodable reply, unreadable upload file), with its `str(e)`,
   * or the HTTP status and the decoded body.
   */
  datatype Reply<+D> = Raises(cause: string) | Received(status: int, body: Body<D>)

  /** The `data` object of an upload reply. */
  datatype UploadData = UploadData(imageUrl: Field<string>, path: Field<string>, otherKeys: bool)

  /** The `data` object of a generation reply. */
  datatype GenData = GenData(taskId: Field<string>, otherKeys: bool)
  {
    predicate IsEmpty()
      ensures IsEmpty() <==> this == GenData(Absent, false)
    {
      taskId.Absent? && !otherKeys
    }
  }

  /**
   * `HTTPException(status, detail=reply.get(key, default))`: a missing key gives the default,
   * a `null` gives no detail (so the reason phrase of `status`).
   */
  function DetailOr(f: Field<string>, status: int, default: string): (d: Detail)
    ensures f.Absent? ==> d == Text(default)
    ensures f.Null? ==> d == Phrase(status)
    ensures f.Value? ==> d == Text(f.value)
  {
    match f
    case Absent => Text(default)
    case Null => Phrase(status)
    case Value(s) => Text(s)
  }

  /**
   * The reply handling shared by `upload_image` and `check_task_result`: `code == 0` gives
   * `data` (`None` when missing or `null`); any other code raises a 400 with `msg_cn`, which
   * the function's own handler turns into a 500 whose detail quotes it. The HTTP status is
   * not looked at.
   */
  function Unwrap<D>(reply: Reply<D>): (r: Result<Option<D>, Raised>)
    ensures r.Failure? ==> r.error.HttpException? && r.error.status == 500
    ensures r.Success? <==>
      reply.Received? && reply.body.Object? && reply.body.envelope.code == Value(0)
    ensures r.Success? ==> r.value == reply.body.envelope.data.Get()
    ensures reply.Received? && reply.body.Object? && reply.body.envelope.code != Value(0) ==>
      r.error.detail == Wrapped(400, DetailOr(reply.body.envelope.msgCn, 400, "未知錯誤"))
    ensures reply.Raises? ==> r.error.detail == Text(reply.cause)
    ensures reply.Received? && reply.body.NullBody? ==> r.error.detail == Text(NoneHasNoGet)
  {
    match reply
    case Raises(cause) => Failure(HttpException(500, Text(cause)))
    case Received(_, NullBody) => Failure(HttpException(500, Text(NoneHasNoGet)))
    case Received(_, Object(e)) =>
      if e.code == Value(0) then Success(e.data.Get())
      else Failure(CatchAllRaised(HttpException(400, DetailOr(e.msgCn, 400, "未知錯誤"))))
  }

  /** A function's own `except Exception as e: raise HTTPException(500, str(e))`, still in flight. */
  function CatchAllRaised(e: Raised): (r: Raised)
    ensures r == HttpException(CatchAll(e).status, CatchAll(e).detail)
  {
    HttpException(500, CatchAll(e).detail)
  }

  /**
   * `generate_image`: the whole decoded body when the HTTP status is 200 (whatever its `code`);
   * otherwise a 500 quoting the status and `msg_cn`.
   */
  function GenerateOutcome(reply: Reply<GenData>): (r: Result<Body<GenData>, Raised>)
    ensures r.Failure? ==> r.error.HttpException? && r.error.status == 500
    ensures r.Success? <==> reply.Received? && reply.status == 200
    ensures r.Success? ==> r.value == reply.body
    ensures reply.Received? && reply.status != 200 && reply.body.Object? ==>
      r.error.detail == Wrapped(reply.status, DetailOr(reply.body.envelope.msgCn, reply.status, "未知錯誤"))
    ensures reply.Raises? ==> r.error.detail == Text(reply.cause)
    ensures reply.Received? && reply.status != 200 && reply.body.NullBody? ==> r.error.detail == Text(NoneHasNoGet)
  {
    match reply
    case Raises(cause) => Failure(HttpException(500, Text(cause)))
    case Received(status, body) =>
      if status == 200 then Success(body)
      else if body.NullBody? then Failure(HttpException(500, Text(NoneHasNoGet)))
      else Failure(CatchAllRaised(HttpException(status, DetailOr(body.envelope.msgCn, status, "未知錯誤"))))
  }

  /**
   * `[{"id": cnet_form_id, "imageUrl": upload_result["imageUrl"], "path": upload_result["path"]}]`:
   * subscripting a `None` upload result raises `TypeError`, a missing key `KeyError`.
   */
  function BuildCnet(cnetFormId: Option<string>, upload: Option<UploadData>): (r: Result<seq<CnetRef>, Raised>)
    ensures r.Success? <==> upload.Some? && !upload.value.imageUrl.Absent? && !upload.value.path.Absent?
    ensures r.Success? ==>
      r.value == [CnetRef(cnetFormId, upload.value.imageUrl.Get(), upload.value.path.Get())]
    ensures upload.None? ==> r == Failure(PyException(NoneNotSubscriptable))
    ensures upload.Some? && upload.value.imageUrl.Absent? ==> r == Failure(PyException(KeyErrorText("imageUrl")))
    ensures upload.Some? && !upload.value.imageUrl.Absent? && upload.value.path.Absent? ==>
      r == Failure(PyException(KeyErrorText("path")))
  {
    match upload
    case None => Failure(PyException(NoneNotSubscriptable))
    case Some(d) =>
      if d.imageUrl.Absent? then Failure(PyException(KeyErrorText("imageUrl")))
      else if d.path.Absent? then Failure(PyException(KeyErrorText("path")))
      else Success([CnetRef(cnetFormId, d.imageUrl.Get(), d.path.Get())])
  }

  /** `msg_cn or msg or '未知錯誤'`. */
  function ErrorMessage(msgCn: Field<string>, msg: Field<string>): (m: string)
    ensures m != ""
    ensures TruthyText(msgCn) ==> m == msgCn.value
    ensures !TruthyText(msgCn) && TruthyText(msg) ==> m == msg.value
    ensures !TruthyText(msgCn) && !TruthyText(msg) ==> m == "未知錯誤"
  {
    if TruthyText(msgCn) then msgCn.value
    else if TruthyText(msg) then msg.value
    else "未知錯誤"
  }

  const EmptyReply := "API 回應為空"
  const MissingData := "API 回應格式錯誤：缺少 data 字段"
  const MissingTaskId := "未獲取到任務ID"

  /** The checks both creating endpoints run on a generation reply, in order, each failing with a 400. */
  function ValidateGeneration(body: Body<GenData>): (r: Result<string, Raised>)
    ensures r.Failure? ==> r.error.HttpException? && r.error.status == 400 && r.error.detail.Text?
    ensures r.Success? <==>
      && body.Object? && !body.envelope.IsEmpty() && body.envelope.code == Value(0)
      && body.envelope.data.Value? && !body.envelope.data.value.IsEmpty()
      && TruthyText(body.envelope.data.value.taskId)
    ensures r.Success? ==> r.value == body.envelope.data.value.taskId.value && r.value != ""
  {
    if body.NullBody? || body.envelope.IsEmpty() then Failure(HttpException(400, Text(EmptyReply)))
    else
      var e := body.envelope;
      if e.code != Value(0) then Failure(HttpException(400, Text(ErrorMessage(e.msgCn, e.msg))))
      else if !e.data.Value? || e.data.value.IsEmpty() then Failure(HttpException(400, Text(MissingData)))
      else if !TruthyText(e.data.value.taskId) then Failure(HttpException(400, Text(MissingTaskId)))
      else Success(e.data.value.taskId.value)
  }

  /** Which check rejects a reply: the first one, in the order the endpoint runs them. */
  lemma ValidationOrder(body: Body<GenData>)
    ensures body.NullBody? || body.envelope.IsEmpty() ==>
      ValidateGeneration(body) == Failure(HttpException(400, Text(EmptyReply)))
    ensures body.Object? && !body.envelope.IsEmpty() && body.envelope.code != Value(0) ==>
      ValidateGeneration(body) ==
        Failure(HttpException(400, Text(ErrorMessage(body.envelope.msgCn, body.envelope.msg))))
    ensures (body.Object? && !body.envelope.IsEmpty() && body.envelope.code == Value(0) &&
             (!body.envelope.data.Value? || body.envelope.data.value.IsEmpty())) ==>
      ValidateGeneration(body) == Failure(HttpException(400, Text(MissingData)))
    ensures (body.Object? && body.envelope.code == Value(0) && body.envelope.data.Value? &&
             !body.envelope.data.value.IsEmpty() && !TruthyText(body.envelope.data.value.taskId)) ==>
      ValidateGeneration(body) == Failure(HttpException(400, Text(MissingTaskId)))
  {
  }
}
