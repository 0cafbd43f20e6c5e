/**
 * `GET /status/{task_id}`: the task states and how a task record from the provider is turned
 * into the status response.
 */
module Status {
  import opened Wrappers
  import opened Json
  import opened Errors

  /** `TaskState`: the provider's task state codes. */
  datatype TaskState = Completed | Failed | Processing
  {
    function Code(): (c: int)
      ensures c in {10, 20, 30}
    {
      match this
      case Completed => 10
      case Failed => 20
      case Processing => 30
    }

    /** The member name, as `TaskState(code).name` gives it; never the text of an unknown state. */
    function Name(): (n: string)
      ensures n != "UNKNOWN"
    {
      match this
      case Completed => "COMPLETED"
      case Failed => "FAILED"
      case Processing => "PROCESSING"
    }
  }

  /** `TaskState(code)`; `None` where that raises `ValueError`. */
  function FromCode(c: int): (r: Option<TaskState>)
    ensures r.Some? <==> c in {10, 20, 30}
    ensures r.Some? ==> r.value.Code() == c
  {
    if c == 10 then Some(Completed)
    else if c == 20 then Some(Failed)
    else if c == 30 then Some(Processing)
    else None
  }

  /** Every state is recovered from its code, and different states have different codes and names. */
  lemma StateCodesRoundTrip(s: TaskState, t: TaskState)
    ensures FromCode(s.Code()) == Some(s)
    ensures s.Code() == t.Code() <==> s == t
    ensures s.Name() == t.Name() <==> s == t
  {
  }

  /**
   * `TaskState(state).name if state in [s.value for s in TaskState] else "UNKNOWN"`;
   * a missing or `null` state is not a member either.
   */
  function StateText(state: Option<int>): (text: string)
    ensures state.Some? && FromCode(state.value).Some? ==> text == FromCode(state.value).value.Name()
    ensures state.None? || FromCode(state.value).None? ==> text == "UNKNOWN"
  {
    if state.Some? && FromCode(state.value).Some? then FromCode(state.value).value.Name() else "UNKNOWN"
  }

  /** The state text is `UNKNOWN` exactly when the state is not one of the three codes. */
  lemma UnknownIff(state: Option<int>)
    ensures StateText(state) == "UNKNOWN" <==> state.None? || state.value !in {10, 20, 30}
  {
  }

  /** The `data` object of a task query reply. */
  datatype TaskRecord = TaskRecord(
    id: Field<string>,
    state: Field<int>,
    startDate: Field<string>,
    finishDate: Field<string>,
    createDate: Field<string>,
    images: Field<seq<string>>)

  /** The body of a successful status response (its `status` is always `"success"`). */
  datatype StatusReport = StatusReport(
    id: Option<string>,
    stateText: string,
    state: Option<int>,
    startDate: Option<string>,
    finishDate: Option<string>,
    createDate: Option<string>,
    images: Option<seq<string>>)

  /** `task_result.get("images", [])`: a missing list reads as empty, a `null` one as `None`. */
  function ImagesOf(images: Field<seq<string>>): (r: Option<seq<string>>)
    ensures images.Absent? ==> r == Some([])
    ensures !images.Absent? ==> r == images.Get()
  {
    if images.Absent? then Some([]) else images.Get()
  }

  /**
   * The status response for a task record. Both branches of the handler build the same object;
   * only the completed branch logs `len(images)`, which raises on a `null` image list.
   */
  function Normalise(rec: TaskRecord): (r: Result<StatusReport, Raised>)
    ensures r.Failure? <==> rec.state == Value(Completed.Code()) && rec.images.Null?
    ensures r.Failure? ==> r.error == PyException(NoneHasNoLen)
    ensures r.Success? ==>
      && r.value.id == rec.id.Get() && r.value.state == rec.state.Get()
      && r.value.stateText == StateText(rec.state.Get())
      && r.value.startDate == rec.startDate.Get() && r.value.finishDate == rec.finishDate.Get()
      && r.value.createDate == rec.createDate.Get() && r.value.images == ImagesOf(rec.images)
  {
    var state := rec.state.Get();
    if state == Some(Completed.Code()) && rec.images.Null? then
      Failure(PyException(NoneHasNoLen))
    else
      Success(StatusReport(rec.id.Get(), StateText(state), state, rec.startDate.Get(),
                           rec.finishDate.Get(), rec.createDate.Get(), ImagesOf(rec.images)))
  }

  /** The image list is passed on whatever the state: it is not cleared for a failed or running task. */
  lemma ImagesPassedThrough(rec: TaskRecord)
    requires rec.images.Value?
    ensures Normalise(rec).Success? && Normalise(rec).value.images == Some(rec.images.value)
  {
  }

  /** A running or failed task with a `null` image list still answers, with no images. */
  lemma NullImagesOutsideCompleted(rec: TaskRecord)
    requires rec.images.Null? && rec.state != Value(Completed.Code())
    ensures Normalise(rec).Success? && Normalise(rec).value.images.None?
  {
  }
}
