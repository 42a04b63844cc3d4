/** The server's admission and status logic over its two pieces of global
    state: whether the pipeline is loaded, and the number of admitted requests
    not yet finished. There is one pipeline and one worker thread, so requests
    run one at a time, and the counter counts both the waiting request and the
    running one. */
module Server {
  import opened Wrappers
  import opened Task

  /** The two globals: the pipeline is loaded or not, and the in-flight counter. */
  datatype ServerState = ServerState(loaded: bool, active: int)

  /** At process start: no pipeline, no requests. */
  const INITIAL := ServerState(false, 0)

  /** What can happen to the state: the startup hook loads the pipeline; a
      `/generate` call arrives; an admitted call finishes, successfully or by
      an exception. */
  datatype Event = LoadModel | Start | Finish(succeeded: bool)

  /** One transition: loading sets the flag and keeps the counter; a call
      before loading changes nothing; an admitted call raises the counter by
      one; a finish, successful or not, lowers it by one. */
  function Step(s: ServerState, e: Event): (t: ServerState)
    ensures t.loaded == (s.loaded || e.LoadModel?)
    ensures e.LoadModel? ==> t.active == s.active
    ensures e.Start? && !s.loaded ==> t == s
    ensures e.Start? && s.loaded ==> t.active == s.active + 1
    ensures e.Finish? ==> t.active == s.active - 1
  {
    match e
    case LoadModel => s.(loaded := true)
    case Start => if s.loaded then s.(active := s.active + 1) else s
    case Finish(_) => s.(active := s.active - 1)
  }

  function Replay(s: ServerState, events: seq<Event>): ServerState
    decreases events
  {
    if events == [] then s else Replay(Step(s, events[0]), events[1..])
  }

  /** Number of `Start` events that are admitted, starting from `loaded`. */
  function AdmittedCount(loaded: bool, events: seq<Event>): nat
    decreases events
  {
    if events == [] then 0
    else match events[0]
      case LoadModel => AdmittedCount(true, events[1..])
      case Start => (if loaded then 1 else 0) + AdmittedCount(loaded, events[1..])
      case Finish(_) => AdmittedCount(loaded, events[1..])
  }

  /** Number of `Finish` events, whatever their outcome. */
  function FinishCount(events: seq<Event>): nat
  {
    if events == [] then 0
    else (if events[0].Finish? then 1 else 0) + FinishCount(events[1..])
  }

  /** Every finish belongs to an admitted request: no prefix of the trace has
      more finishes than admissions. */
  predicate FinishesMatched(loaded: bool, events: seq<Event>)
  {
    forall k :: 0 <= k <= |events| ==> FinishCount(events[..k]) <= AdmittedCount(loaded, events[..k])
  }

  /** The counter after a trace is the prior counter plus one per admitted
      start minus one per finish, successful or failed; the pipeline is
      loaded after the trace when it was before or the trace loads it. */
  lemma {:induction false} ReplayCounts(s: ServerState, events: seq<Event>)
    ensures Replay(s, events).loaded == (s.loaded || LoadModel in events)
    ensures Replay(s, events).active == s.active + AdmittedCount(s.loaded, events) - FinishCount(events)
    decreases events
  {
    if events != [] {
      ReplayCounts(Step(s, events[0]), events[1..]);
      assert events == [events[0]] + events[1..];
    }
  }

  /** Along a trace whose finishes match its admissions the counter never
      drops below its prior value, so it is never negative. */
  lemma CounterNeverBelowPrior(s: ServerState, events: seq<Event>, k: nat)
    requires FinishesMatched(s.loaded, events)
    requires k <= |events|
    ensures Replay(s, events[..k]).active >= s.active
  {
    ReplayCounts(s, events[..k]);
  }

  /** After any mix of admitted requests that have all finished, on success
      or on failure, the counter is back at its prior value. */
  lemma CounterRestored(s: ServerState, events: seq<Event>)
    requires FinishCount(events) == AdmittedCount(s.loaded, events)
    ensures Replay(s, events) == s.(loaded := s.loaded || LoadModel in events)
  {
    ReplayCounts(s, events);
  }

  /** Before the pipeline is loaded no start is admitted. */
  lemma {:induction false} NoAdmissionBeforeLoad(events: seq<Event>)
    requires LoadModel !in events
    ensures AdmittedCount(false, events) == 0
  {
    if events != [] {
      assert events == [events[0]] + events[1..];
      NoAdmissionBeforeLoad(events[1..]);
    }
  }

  /** In every state reachable from process start, the counter is not
      negative, and it is zero while the pipeline is not loaded. */
  lemma ReachableInvariant(events: seq<Event>)
    requires FinishesMatched(false, events)
    ensures Replay(INITIAL, events).active >= 0
    ensures !Replay(INITIAL, events).loaded ==> Replay(INITIAL, events).active == 0
  {
    assert events[..|events|] == events;
    ReplayCounts(INITIAL, events);
    if LoadModel !in events {
      NoAdmissionBeforeLoad(events);
    }
  }

  /** A call that arrives before the pipeline is loaded changes nothing. */
  lemma RejectedStartUnchanged(s: ServerState)
    requires !s.loaded
    ensures Step(s, Start) == s
  {
  }

  datatype StatusKind = Loading | Ready | Busy

  /** The body of a `/status` response. */
  datatype StatusReport = StatusReport(statusCode: int, status: StatusKind, activeRequests: int)

  /** `get_status`: loading while there is no pipeline, then ready when the
      counter is zero and busy otherwise, always with the current counter. */
  function StatusOf(s: ServerState): (r: StatusReport)
    ensures r.statusCode == 200 && r.activeRequests == s.active
    ensures !s.loaded ==> r.status == Loading
    ensures s.loaded ==> (r.status == Ready <==> s.active == 0)
    ensures s.loaded ==> (r.status == Busy <==> s.active != 0)
  {
    if !s.loaded then StatusReport(200, Loading, s.active)
    else if s.active == 0 then StatusReport(200, Ready, 0)
    else StatusReport(200, Busy, s.active)
  }

  /** The body of a `/generate` response. */
  datatype Body =
    | TaskBody(result: TaskResult)     // the generation task's own dict
    | GenerateFailed(error: string)    // the handler's `except` branch
    | Detail(detail: string)           // the 503 raised before admission

  datatype HttpResponse = HttpResponse(status: int, body: Body)

  const LOADING_DETAIL := "Model is still loading"
  const GENERATE_FAILED_MESSAGE := "Failed to generate image or upload to server"

  /** The `status_code` field inside a response body; the body of the 503
      holds only `detail`, so it has none. */
  function BodyStatusCode(b: Body): Option<int>
  {
    match b
    case TaskBody(r) => Some(StatusCode(r))
    case GenerateFailed(_) => Some(500)
    case Detail(_) => None
  }

  /** The `message` field inside a response body. */
  function BodyMessage(b: Body): Option<string>
  {
    match b
    case TaskBody(r) => Message(r)
    case GenerateFailed(_) => Some(GENERATE_FAILED_MESSAGE)
    case Detail(_) => None
  }

  /** `generate_image`'s response: 503 before the pipeline is loaded;
      otherwise the generation task's dict with HTTP 200 when it returns, and a 500 with
      the exception's text when it raises. */
  function GenerateResponse(loaded: bool, req: GenerateRequest, env: Collaborators): (resp: HttpResponse)
    ensures !loaded <==> resp.status == 503
    ensures resp.status == 503 ==> resp.body == Detail(LOADING_DETAIL)
    ensures loaded ==> (resp.status == 500 <==> GenerateTask(req, env).Raised?)
    ensures loaded && GenerateTask(req, env).Done? ==> resp.status == 200
    ensures loaded && GenerateTask(req, env).Raised? ==> resp.body == GenerateFailed(GenerateTask(req, env).error)
    ensures loaded && GenerateTask(req, env).Done? ==> resp.body == TaskBody(GenerateTask(req, env).value)
    ensures resp.status == 500 ==>
      BodyStatusCode(resp.body) == Some(500) && BodyMessage(resp.body) == Some(GENERATE_FAILED_MESSAGE)
    ensures resp.status == 503 ==> BodyStatusCode(resp.body) == None
  {
    if !loaded then HttpResponse(503, Detail(LOADING_DETAIL))
    else match GenerateTask(req, env)
      case Done(result) => HttpResponse(200, TaskBody(result))
      case Raised(e) => HttpResponse(500, GenerateFailed(e))
  }

  /** A failed upload reaches the client as the storage-error dict, with HTTP
      status 200 and `status_code` 500 in the body; it is not reported as a
      generation failure and not replaced by the base64 form. */
  lemma FailedUploadResponse(req: GenerateRequest, env: Collaborators, png: Png)
    requires HasUploadUrl(req.uploadUrl)
    requires PlannedCall(req, env).Done? && env.render(PlannedCall(req, env).value) == Done(png)
    requires env.upload(req.uploadUrl.value, png).Raised?
    ensures GenerateResponse(true, req, env) ==
      HttpResponse(200, TaskBody(StorageError(env.upload(req.uploadUrl.value, png).error)))
    ensures BodyStatusCode(GenerateResponse(true, req, env).body) == Some(500)
    ensures BodyMessage(GenerateResponse(true, req, env).body) == Some(STORAGE_ERROR_MESSAGE)
  {
    FailedUploadIsStorageError(req, env, png);
  }

  /** The process-wide state, as an object whose methods update it in place. */
  class ServerGlobals {
    var loaded: bool
    var active: int

    /** The counter is never negative, and it is zero until the pipeline is
        loaded (no call is admitted before). */
    ghost predicate Valid()
      reads this
    {
      active >= 0 && (!loaded ==> active == 0)
    }

    function State(): ServerState
      reads this
    {
      ServerState(loaded, active)
    }

    /** The module's globals at import time. */
    constructor ()
      ensures Valid() && State() == INITIAL
    {
      loaded, active := false, 0;
    }

    /** The startup hook's assignment of the loaded pipeline. */
    method Load()
      requires Valid()
      modifies this
      ensures Valid() && State() == Step(old(State()), LoadModel)
    {
      loaded := true;
    }

    /** The admission check of `/generate`: refused without touching the
        counter while the pipeline is not loaded, else the counter goes up
        by one. */
    method Admit() returns (admitted: bool)
      requires Valid()
      modifies this
      ensures Valid() && State() == Step(old(State()), Start)
      ensures admitted == old(loaded)
      ensures active == if admitted then old(active) + 1 else old(active)
    {
      if !loaded {
        return false;
      }
      active := active + 1;
      admitted := true;
    }

    /** The `finally` of `/generate`: an admitted call, whether it succeeded
        or raised, takes the counter down by one. */
    method Complete(succeeded: bool)
      requires Valid() && active > 0
      modifies this
      ensures Valid() && State() == Step(old(State()), Finish(succeeded))
      ensures active == old(active) - 1 && loaded == old(loaded)
    {
      active := active - 1;
    }

    /** `get_status` on the globals: loading while nothing is loaded,
        whatever the counter; then ready exactly when the counter is zero and
        busy otherwise; always reporting the counter. */
    function Status(): (r: StatusReport)
      reads this
      ensures r.statusCode == 200 && r.activeRequests == active
      ensures !loaded ==> r.status == Loading
      ensures loaded ==> (r.status == Ready <==> active == 0) && (r.status == Busy <==> active != 0)
    {
      StatusOf(State())
    }

    /** `generate_image` run to completion: the admission check, the generation task,
        its exception handler, and the decrement in `finally`. The counter is
        back at its prior value on every path. */
    method Generate(req: GenerateRequest, env: Collaborators) returns (resp: HttpResponse)
      requires Valid()
      modifies this
      ensures Valid() && State() == old(State())
      ensures resp == GenerateResponse(old(loaded), req, env)
    {
      var admitted := Admit();
      if !admitted {
        return HttpResponse(503, Detail(LOADING_DETAIL));
      }
      var outcome := GenerateTask(req, env);
      match outcome {
        case Done(result) =>
          resp := HttpResponse(200, TaskBody(result));
        case Raised(e) =>
          resp := HttpResponse(500, GenerateFailed(e));
      }
      Complete(outcome.Done?);
    }
  }
}
