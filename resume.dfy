/** The resume loop of the POST handler (app/api/route.ts): while the run
    waits for tool outputs, dispatch its pending calls and submit them. The
    hosted service is an oracle: `results[0]` is what the first
    `forwardStream` yields and `results[k + 1]` is what the stream started by
    the k-th submission yields. */
module ResumeLoop {
  import opened Wrappers
  import opened ToolDispatch

  /** The run statuses the hosted service reports. */
  datatype RunStatus =
    | Queued | InProgress | RequiresAction | Cancelling
    | Cancelled | Failed | Completed | Expired

  /** `required_action`: its `type` and the tool calls it carries. */
  datatype RequiredAction = RequiredAction(kind: string, toolCalls: seq<ToolCall>)

  /** A run as reported at the end of a streamed segment. */
  datatype Run = Run(id: string, status: RunStatus, requiredAction: Option<RequiredAction>)

  /** What `forwardStream` yields: a run, or `undefined`. */
  type RunResult = Option<Run>

  /** One `submitToolOutputsStream` call: the run it resumes and its outputs. */
  datatype Submission = Submission(runId: string, outputs: seq<ToolOutput>)

  /** How the loop stops: the run no longer waits for tool outputs (`Settled`,
      with the last result), a tool call threw (`Aborted`), or the finite
      oracle has no further result (`OracleExhausted`). */
  datatype LoopEnd = Settled(last: RunResult) | Aborted(error: DispatchError) | OracleExhausted

  /** The loop condition: status `requires_action` with action type `submit_tool_outputs`. */
  predicate AwaitsToolOutputs(r: RunResult)
    // `undefined` and every status other than requires_action end the loop
    ensures r.None? ==> !AwaitsToolOutputs(r)
    ensures r.Some? && r.value.status in {Queued, InProgress, Cancelling, Cancelled, Failed, Completed, Expired} ==>
              !AwaitsToolOutputs(r)
    // so does a requires_action run without an action, or with an action of another type
    ensures r.Some? && r.value.status == RequiresAction && r.value.requiredAction.None? ==> !AwaitsToolOutputs(r)
    ensures r.Some? && r.value.status == RequiresAction && r.value.requiredAction.Some? ==>
              (AwaitsToolOutputs(r) <==> r.value.requiredAction.value.kind == "submit_tool_outputs")
  {
    && r.Some?
    && r.value.status == RequiresAction
    && r.value.requiredAction.Some?
    && r.value.requiredAction.value.kind == "submit_tool_outputs"
  }

  /** The tool calls a waiting run asks for: the run is exactly a
      `requires_action` run whose `submit_tool_outputs` action carries them. */
  function PendingCalls(r: RunResult): (cs: seq<ToolCall>)
    requires AwaitsToolOutputs(r)
    ensures r == Some(Run(r.value.id, RequiresAction, Some(RequiredAction("submit_tool_outputs", cs))))
  {
    r.value.requiredAction.value.toolCalls
  }

  /** `s` is the submission the loop makes for result `r`: `r` waits, its whole
      batch dispatches, and `s` carries the run's id and the batch's outputs. */
  predicate SubmitsFor(r: RunResult, s: Submission) {
    && AwaitsToolOutputs(r)
    && s.runId == r.value.id
    && DispatchAll(PendingCalls(r)) == Ok(s.outputs)
  }

  /** The specification of one run of the loop over `results`: submission k
      answers result k, and the end says why result `|subs|` got no submission. */
  predicate IsResumeTrace(results: seq<RunResult>, subs: seq<Submission>, end: LoopEnd) {
    && |subs| <= |results|
    && (forall k :: 0 <= k < |subs| ==> SubmitsFor(results[k], subs[k]))
    && match end
       case Settled(last) =>
         |subs| < |results| && !AwaitsToolOutputs(results[|subs|]) && last == results[|subs|]
       case Aborted(e) =>
         && |subs| < |results| && AwaitsToolOutputs(results[|subs|])
         && DispatchAll(PendingCalls(results[|subs|])) == Err(e)
       case OracleExhausted => |subs| == |results|
  }

  /** The `while` loop over `runResult`. */
  method Resume(results: seq<RunResult>) returns (subs: seq<Submission>, end: LoopEnd)
    ensures IsResumeTrace(results, subs, end)
  {
    subs := [];
    var i := 0;
    while i < |results| && AwaitsToolOutputs(results[i])
      invariant 0 <= i <= |results|
      invariant |subs| == i
      invariant forall k :: 0 <= k < i ==> SubmitsFor(results[k], subs[k])
    {
      var run := results[i].value;
      match DispatchAll(PendingCalls(results[i]))
      case Err(e) =>
        end := Aborted(e);
        return;
      case Ok(outputs) => {
        subs := subs + [Submission(run.id, outputs)];
        i := i + 1;
      }
    }
    if i < |results| {
      end := Settled(results[i]);
    } else {
      end := OracleExhausted;
    }
  }

  /** The specification leaves no choice: the oracle determines the
      submissions and how the loop ends. */
  lemma ResumeTraceDeterministic(results: seq<RunResult>,
                                 subs1: seq<Submission>, end1: LoopEnd,
                                 subs2: seq<Submission>, end2: LoopEnd)
    requires IsResumeTrace(results, subs1, end1)
    requires IsResumeTrace(results, subs2, end2)
    ensures subs1 == subs2 && end1 == end2
  {
  }

  /** A run that does not start out waiting for tool outputs (for example one
      that is already `completed`) gets no submission at all. */
  lemma NoSubmissionUnlessAwaiting(results: seq<RunResult>, subs: seq<Submission>, end: LoopEnd)
    requires IsResumeTrace(results, subs, end)
    requires |results| > 0 && !AwaitsToolOutputs(results[0])
    ensures subs == [] && end == Settled(results[0])
  {
  }

  /** A step whose batch fails submits nothing: the loop stops there, after
      exactly the submissions of the earlier steps. */
  lemma FailedBatchEndsLoop(results: seq<RunResult>, subs: seq<Submission>, end: LoopEnd, k: nat)
    requires IsResumeTrace(results, subs, end)
    requires k < |results|
    requires forall j :: 0 <= j <= k ==> AwaitsToolOutputs(results[j])
    requires forall j :: 0 <= j < k ==> DispatchAll(PendingCalls(results[j])).Ok?
    requires DispatchAll(PendingCalls(results[k])).Err?
    ensures |subs| == k
    ensures end == Aborted(DispatchAll(PendingCalls(results[k])).error)
  {
  }

  /** A batch whose first failing call names an unknown function (its
      arguments, and those of the calls before it, parse; the calls before it
      name known tools) stops the loop at that step with the "Unknown tool call
      function" error naming that function, and none of that batch's outputs
      is submitted. */
  lemma UnknownToolStopsLoop(results: seq<RunResult>, subs: seq<Submission>, end: LoopEnd, k: nat, i: nat)
    requires IsResumeTrace(results, subs, end)
    requires k < |results|
    requires forall j :: 0 <= j <= k ==> AwaitsToolOutputs(results[j])
    requires forall j :: 0 <= j < k ==> DispatchAll(PendingCalls(results[j])).Ok?
    requires i < |PendingCalls(results[k])|
    requires forall j :: 0 <= j <= i ==> PendingCalls(results[k])[j].args.Parsed?
    requires forall j :: 0 <= j < i ==> PendingCalls(results[k])[j].name in KnownTools
    requires PendingCalls(results[k])[i].name !in KnownTools
    ensures |subs| == k
    ensures end == Aborted(UnknownTool(PendingCalls(results[k])[i].name))
  {
    var cs := PendingCalls(results[k]);
    assert forall j :: 0 <= j < i ==> Dispatch(cs[j]).Ok?;
    FirstFailureUnknownTool(cs, i);
    FailedBatchEndsLoop(results, subs, end, k);
  }
}
