/** The POST handler of app/api/route.ts, seen through the calls it makes to
    the hosted assistant service. The service is an oracle: the id of a newly
    created thread, the id of the posted message, and the run results that
    the resume loop reads. */
module Route {
  import opened Wrappers
  import opened ToolDispatch
  import opened ResumeLoop

  /** The request body `{ threadId, message }`. */
  datatype PostInput = PostInput(threadId: Option<string>, message: string)

  /** What the hosted service answers, in the order the handler asks. */
  datatype Service = Service(createdThreadId: string, createdMessageId: string, runResults: seq<RunResult>)

  /** An outbound call to the hosted service. */
  datatype RemoteCall =
    | CreateThread
    | CreateMessage(threadId: string, content: string)
    | StreamRun(threadId: string, assistantId: string)
    | SubmitToolOutputs(threadId: string, runId: string, outputs: seq<ToolOutput>)

  /** How the streamed part of the response ends: the `ASSISTANT_ID is not set`
      error, or the resume loop's end. */
  datatype StreamEnd = AssistantIdNotSet | LoopEnded(end: LoopEnd)

  /** The response: its two metadata fields and how its stream ends. */
  datatype PostResponse = PostResponse(threadId: string, messageId: string, end: StreamEnd)

  /** The thread a request uses, and whether one had to be created for it. */
  datatype ThreadChoice = ThreadChoice(id: string, createdNew: bool)

  /** `input.threadId ?? (await threads.create({})).id`: only a missing id
      (null or undefined) creates a thread; any given id, even "", is kept. */
  function SelectThread(requested: Option<string>, created: string): (r: ThreadChoice)
    ensures r.createdNew <==> requested.None?
    ensures requested.Some? ==> r.id == requested.value
    ensures requested.None? ==> r.id == created
  {
    match requested
    case Some(id) => ThreadChoice(id, false)
    case None => ThreadChoice(created, true)
  }

  /** `process.env.ASSISTANT_ID ?? throw`: an unset variable is fatal, any set
      value (even "") is used as it is. */
  function RequireAssistantId(env: Option<string>): (r: Result<string, StreamEnd>)
    ensures r.Ok? <==> env.Some?
    ensures r.Ok? ==> r.value == env.value
    ensures r.Err? ==> r.error == AssistantIdNotSet
  {
    match env
    case Some(id) => Ok(id)
    case None => Err(AssistantIdNotSet)
  }

  /** One `submitToolOutputsStream` call per submission of the loop, in order. */
  function SubmitCalls(threadId: string, subs: seq<Submission>): (r: seq<RemoteCall>)
    ensures |r| == |subs|
    ensures forall k :: 0 <= k < |subs| ==>
              r[k] == SubmitToolOutputs(threadId, subs[k].runId, subs[k].outputs)
  {
    seq(|subs|, k requires 0 <= k < |subs| => SubmitToolOutputs(threadId, subs[k].runId, subs[k].outputs))
  }

  /** The submissions a series of `SubmitToolOutputs` calls carries. */
  function Batches(calls: seq<RemoteCall>): (r: seq<Submission>)
    requires forall k :: 0 <= k < |calls| ==> calls[k].SubmitToolOutputs?
    ensures |r| == |calls|
    ensures forall k :: 0 <= k < |calls| ==>
              r[k] == Submission(calls[k].runId, calls[k].outputs)
  {
    seq(|calls|, k requires 0 <= k < |calls| => Submission(calls[k].runId, calls[k].outputs))
  }

  /** Reading the submissions back off the submission calls gives exactly the
      submissions that were sent. */
  lemma BatchesOfSubmitCalls(threadId: string, subs: seq<Submission>)
    ensures Batches(SubmitCalls(threadId, subs)) == subs
  {
  }

  /** The calls of a request whose run was started: the set-up calls, the
      run, then one submission call per submission on the request's thread. */
  lemma RunThenSubmissions(setup: seq<RemoteCall>, assistantId: string, threadId: string, subs: seq<Submission>)
    ensures var calls := setup + [StreamRun(threadId, assistantId)] + SubmitCalls(threadId, subs);
      && |calls| > |setup|
      && calls[..|setup|] == setup
      && calls[|setup|] == StreamRun(threadId, assistantId)
      && (forall k :: |setup| < k < |calls| ==> calls[k].SubmitToolOutputs? && calls[k].threadId == threadId)
      && Batches(calls[|setup| + 1..]) == subs
      && (CreateThread in calls <==> CreateThread in setup)
  {
    var submitted := SubmitCalls(threadId, subs);
    var calls := setup + [StreamRun(threadId, assistantId)] + submitted;
    assert calls[|setup| + 1..] == submitted;
    BatchesOfSubmitCalls(threadId, subs);
    assert CreateThread !in [StreamRun(threadId, assistantId)] + submitted;
    assert calls == setup + ([StreamRun(threadId, assistantId)] + submitted);
  }

  /** The number of calls made before the run is started: the thread creation,
      when there was no thread, and the message. */
  function SetupLength(input: PostInput): nat {
    if input.threadId.None? then 2 else 1
  }

  /** The handler. `assistantIdEnv` is `process.env.ASSISTANT_ID`. */
  method Post(input: PostInput, assistantIdEnv: Option<string>, service: Service)
    returns (calls: seq<RemoteCall>, response: PostResponse)
    // the thread: the given one, or a new one created first of all
    ensures response.threadId == SelectThread(input.threadId, service.createdThreadId).id
    ensures response.messageId == service.createdMessageId
    ensures CreateThread in calls <==> input.threadId.None?
    ensures |calls| >= SetupLength(input)
    ensures input.threadId.None? ==> calls[0] == CreateThread
    // the message is posted to that thread before anything else happens on it
    ensures calls[SetupLength(input) - 1] == CreateMessage(response.threadId, input.message)
    // without ASSISTANT_ID no run is started and nothing is submitted
    ensures assistantIdEnv.None? ==>
              response.end == AssistantIdNotSet && |calls| == SetupLength(input)
    // with it, one run is started and the resume loop's submissions follow, in order
    ensures assistantIdEnv.Some? ==>
              && response.end.LoopEnded?
              && |calls| > SetupLength(input)
              && calls[SetupLength(input)] == StreamRun(response.threadId, assistantIdEnv.value)
              && (forall k :: SetupLength(input) < k < |calls| ==>
                    calls[k].SubmitToolOutputs? && calls[k].threadId == response.threadId)
              && IsResumeTrace(service.runResults, Batches(calls[SetupLength(input) + 1..]), response.end.end)
  {
    var thread := SelectThread(input.threadId, service.createdThreadId);
    var setup: seq<RemoteCall> := [];
    if thread.createdNew {
      setup := setup + [CreateThread];
    }
    setup := setup + [CreateMessage(thread.id, input.message)];
    assert |setup| == SetupLength(input);
    assert CreateThread in setup <==> input.threadId.None?;
    calls := setup;
    match RequireAssistantId(assistantIdEnv)
    case Err(e) =>
      response := PostResponse(thread.id, service.createdMessageId, e);
    case Ok(assistantId) =>
      var subs, end := Resume(service.runResults);
      var submitted := SubmitCalls(thread.id, subs);
      calls := setup + [StreamRun(thread.id, assistantId)] + submitted;
      RunThenSubmissions(setup, assistantId, thread.id, subs);
      response := PostResponse(thread.id, service.createdMessageId, LoopEnded(end));
  }
}
