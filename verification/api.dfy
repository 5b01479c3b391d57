/** The HTTP control layer of backend/app/api.py: the blocking start/resume endpoints,
    the `run_configs` registry filled by the streaming create/resume endpoints, and the
    server-sent event stream that runs the registered request.

    Thread ids come from `uuid4()` and are passed in. The checkpointer is the map
    `threads`. A client disconnect is the index of the first stream item at which
    `request.is_disconnected()` answers true, passed in as `disconnectAt`. */
module Api {
  import opened Wrappers
  import opened Text
  import opened Models
  import opened Messages
  import opened ReviewGraph

  /** An entry of `run_configs`. */
  datatype RunConfig =
    | StartConfig(humanRequest: string)
    | ResumeConfig(reviewAction: ReviewAction, humanComment: Option<string>)

  /** A server-sent event; the data payloads are the JSON objects the endpoint encodes. */
  datatype Event =
    | StartEvent(threadId: string)
    | ResumeEvent(threadId: string)
    | TokenEvent(content: string)
    | StatusEvent(status: RunStatus)
    | ErrorEvent(message: string)

  /** What `GET /graph/stream/{thread_id}` answers. */
  datatype StreamReply =
    | NotFound(message: string)
    | Rejected(error: string)
    | Stream(events: seq<Event>)

  const NotFoundMessage := "Thread ID not found. You must first call /graph/stream/create or /graph/stream/resume"

  /** The run status reported for a thread: "user_feedback" exactly when human_feedback
      is the pending node, "finished" otherwise; never "pending". */
  function RunStatusOf(next: Option<Node>): (st: RunStatus)
    ensures st == UserFeedback <==> next == Some(HumanFeedback)
    ensures st == Finished <==> next != Some(HumanFeedback)
  {
    if next == Some(HumanFeedback) then UserFeedback else Finished
  }

  /** run_graph_and_response: the response built from a blocking run. An exception from
      the run, or a result without "assistant_response", fails the request. */
  function RunResponse(threadId: string, r: RunResult): (resp: Result<GraphResponse>)
    ensures resp.Success? <==> r.error.None? && r.values.assistantResponse.Some?
    ensures resp.Success? ==>
      && resp.value.threadId == threadId
      && resp.value.assistantResponse == r.values.assistantResponse
      && (resp.value.runStatus == UserFeedback <==> r.next == Some(HumanFeedback))
      && resp.value.runStatus != Pending
  {
    if r.error.Some? then Failure(r.error.value)
    else if r.values.assistantResponse.None? then Failure("KeyError: 'assistant_response'")
    else Success(GraphResponse(threadId, RunStatusOf(r.next), r.values.assistantResponse))
  }

  // ---------------------------------------------------------------------------
  // The streamed run

  /** The node names whose message chunks are forwarded. */
  predicate Forwarded(n: Node) {
    n == AssistantDraft || n == AssistantFinalize
  }

  /** The stream items a step yields that pass the node filter. */
  function StepItems(step: Step): (items: seq<string>)
    ensures Forwarded(step.node) ==> items == step.tokens
    ensures !Forwarded(step.node) ==> items == []
  {
    if Forwarded(step.node) then step.tokens else []
  }

  /** The forwarded token contents of a run, in order. */
  function Items(steps: seq<Step>): seq<string> {
    if |steps| == 0 then [] else StepItems(steps[0]) + Items(steps[1..])
  }

  /** The node filter drops nothing: retrieve_context and human_feedback stream no
      tokens, so every token of a run is forwarded. */
  lemma {:induction false} FilterDropsNothing(n: Node, s: State, w: World, k: nat)
    requires k <= |Run(n, s, w).steps|
    ensures var steps := Run(n, s, w).steps[k..];
      Items(steps) == AllTokens(steps)
    decreases |Run(n, s, w).steps| - k
  {
    var steps := Run(n, s, w).steps;
    if k < |steps| {
      if !Forwarded(steps[k].node) {
        OnlyModelNodesStream(n, s, w, k);
      }
      FilterDropsNothing(n, s, w, k + 1);
      assert steps[k..][1..] == steps[k + 1..];
    }
  }

  /** Every streamed token of the steps, unfiltered. */
  function AllTokens(steps: seq<Step>): seq<string> {
    if |steps| == 0 then [] else steps[0].tokens + AllTokens(steps[1..])
  }

  /** The number of steps that completed before the client was seen to disconnect at
      forwarded item `d`: the step yielding that item is abandoned, and so is every
      later one. */
  function CompletedBefore(steps: seq<Step>, d: nat): (k: nat)
    ensures k <= |steps|
    ensures d < |Items(steps)| ==> k < |steps|
    ensures d < |Items(steps)| ==> |Items(steps[..k])| <= d < |Items(steps[..k + 1])|
  {
    if |steps| == 0 then 0
    else if d < |StepItems(steps[0])| then
      assert steps[..1] == [steps[0]];
      assert Items(steps[..0]) == [];
      0
    else
      var k := CompletedBefore(steps[1..], d - |StepItems(steps[0])|);
      assert steps[..k + 1] == [steps[0]] + steps[1..][..k];
      assert k + 1 < |steps| ==> steps[..k + 2] == [steps[0]] + steps[1..][..k + 1];
      k + 1
  }

  /** The result of consuming `graph.stream` from checkpoint `from` (whose run is `r`):
      the forwarded tokens, the checkpoint left behind and the error raised. */
  datatype StreamOutcome = StreamOutcome(tokens: seq<string>, committed: Checkpoint, error: Option<string>)

  /** A disconnect seen before the last forwarded item stops the loop: the tokens before
      it are sent, the steps completed so far stay committed, the abandoned step is the
      pending node, and no error is raised. Otherwise the whole run streams. */
  function StreamedRun(from: Checkpoint, r: RunResult, disconnectAt: Option<nat>): (o: StreamOutcome)
    requires |r.steps| > 0 ==> from.next == Some(r.steps[0].node)
    ensures disconnectAt.None? || disconnectAt.value >= |Items(r.steps)| ==>
      o == StreamOutcome(Items(r.steps), Committed(r), r.error)
    ensures disconnectAt.Some? && disconnectAt.value < |Items(r.steps)| ==>
      && o.error.None?
      && o.tokens == Items(r.steps)[..disconnectAt.value]
      && var k := CompletedBefore(r.steps, disconnectAt.value);
         && k < |r.steps|
         && o.committed == Checkpoint(if k == 0 then from.values else r.steps[k - 1].after, Some(r.steps[k].node))
  {
    var items := Items(r.steps);
    match disconnectAt
    case Some(d) =>
      if d < |items| then
        var k := CompletedBefore(r.steps, d);
        var values := if k == 0 then from.values else r.steps[k - 1].after;
        StreamOutcome(items[..d], Checkpoint(values, Some(r.steps[k].node)), None)
      else StreamOutcome(items, Committed(r), r.error)
    case None => StreamOutcome(items, Committed(r), r.error)
  }

  /** The events of one stream: the opening event with the thread id, one token event
      per forwarded token, then exactly one closing event, a status computed from the
      committed checkpoint or, when the run raised, an error instead. */
  function Events(isStart: bool, threadId: string, o: StreamOutcome): (ev: seq<Event>)
    ensures |ev| == |o.tokens| + 2
    ensures ev[0] == (if isStart then StartEvent(threadId) else ResumeEvent(threadId))
    ensures forall i :: 0 < i < |ev| - 1 ==> ev[i] == TokenEvent(o.tokens[i - 1])
    ensures o.error.None? ==> ev[|ev| - 1] == StatusEvent(RunStatusOf(o.committed.next))
    ensures o.error.Some? ==> ev[|ev| - 1] == ErrorEvent(o.error.value)
    ensures forall i :: 0 <= i < |ev| - 1 ==> !ev[i].StatusEvent? && !ev[i].ErrorEvent?
  {
    var opening := if isStart then StartEvent(threadId) else ResumeEvent(threadId);
    var closing := if o.error.Some? then ErrorEvent(o.error.value) else StatusEvent(RunStatusOf(o.committed.next));
    [opening] + TokenEvents(o.tokens) + [closing]
  }

  function TokenEvents(tokens: seq<string>): (ev: seq<Event>)
    ensures |ev| == |tokens|
    ensures forall i :: 0 <= i < |ev| ==> ev[i] == TokenEvent(tokens[i])
  {
    if |tokens| == 0 then [] else [TokenEvent(tokens[0])] + TokenEvents(tokens[1..])
  }

  /** A disconnected client still receives the status event, never an error, and the
      status reflects where the abandoned run stopped. */
  lemma DisconnectStillReportsStatus(isStart: bool, threadId: string, from: Checkpoint, r: RunResult, d: nat)
    requires |r.steps| > 0 ==> from.next == Some(r.steps[0].node)
    requires d < |Items(r.steps)|
    ensures var o := StreamedRun(from, r, Some(d));
      var ev := Events(isStart, threadId, o);
      && |ev| == d + 2
      && ev[|ev| - 1].StatusEvent?
  {
  }

  /** A resumed stream with a decision: "approved" streams the final answer and reports
      "finished"; "feedback" streams a new draft and reports "user_feedback" again. */
  lemma ResumeStreamStatus(cp: Checkpoint, w: World, action: ReviewAction, comment: Option<string>)
    requires cp.next == Some(HumanFeedback) && cp.values.assistantResponse.Some?
    ensures var cp2 := UpdateState(Some(cp), action, comment).value;
      var r := ResumeRun(cp2, w);
      var ev := Events(false, "t", StreamedRun(cp2, r, None));
      ev[|ev| - 1] == StatusEvent(if action == Approved then Finished else UserFeedback)
  {
    var cp2 := UpdateState(Some(cp), action, comment).value;
    if action == Approved {
      ResumeApprovedFinishes(cp2, w);
    } else {
      ResumeFeedbackRedrafts(cp2, w);
    }
  }

  // ---------------------------------------------------------------------------
  // The server

  /** The module-level state of the API: the `run_configs` registry and the graph's
      checkpointer, keyed by thread id, with the model and retriever the graph calls. */
  class Server {
    const world: World
    var runConfigs: map<string, RunConfig>
    var threads: map<string, Checkpoint>

    constructor(w: World)
      ensures world == w && runConfigs == map[] && threads == map[]
    {
      world := w;
      runConfigs := map[];
      threads := map[];
    }

    function Existing(threadId: string): (cp: Option<Checkpoint>)
      reads this
      ensures cp.Some? <==> threadId in threads
    {
      if threadId in threads then Some(threads[threadId]) else None
    }

    /** POST /graph/start: runs the graph on the thread until it suspends or ends and
      reports the result; the registry is untouched. */
    method StartGraph(req: StartRequest, threadId: string) returns (resp: Result<GraphResponse>)
      modifies this
      ensures var r := StartRun(old(Existing(threadId)), req.humanRequest, world);
        && threads == old(threads)[threadId := Committed(r)]
        && resp == RunResponse(threadId, r)
      ensures runConfigs == old(runConfigs)
    {
      var r := StartRun(Existing(threadId), req.humanRequest, world);
      threads := threads[threadId := Committed(r)];
      resp := RunResponse(threadId, r);
    }

    /** POST /graph/resume: writes the decision into the thread (the comment only when
      given) and continues it. A thread with no checkpoint fails the request and
      nothing changes. */
    method ResumeGraph(req: ResumeRequest) returns (resp: Result<GraphResponse>)
      modifies this
      ensures req.threadId !in old(threads) ==> resp.Failure? && threads == old(threads)
      ensures req.threadId in old(threads) ==>
        var cp := UpdateState(old(Existing(req.threadId)), req.reviewAction, req.humanComment).value;
        var r := ResumeRun(cp, world);
        && threads == old(threads)[req.threadId := Committed(r)]
        && resp == RunResponse(req.threadId, r)
      ensures runConfigs == old(runConfigs)
    {
      var updated := UpdateState(Existing(req.threadId), req.reviewAction, req.humanComment);
      if updated.Failure? {
        return Failure(updated.error);
      }
      var r := ResumeRun(updated.value, world);
      threads := threads[req.threadId := Committed(r)];
      resp := RunResponse(req.threadId, r);
    }

    /** POST /graph/stream/create: registers a start request under the new id and runs
      nothing. */
    method CreateGraphStreaming(req: StartRequest, threadId: string) returns (resp: GraphResponse)
      modifies this
      ensures runConfigs == old(runConfigs)[threadId := StartConfig(req.humanRequest)]
      ensures threads == old(threads)
      ensures resp == GraphResponse(threadId, Pending, None)
    {
      runConfigs := runConfigs[threadId := StartConfig(req.humanRequest)];
      resp := GraphResponse(threadId, Pending, None);
    }

    /** POST /graph/stream/resume: registers the decision, replacing whatever was
      registered for the thread, whatever stage the thread is in; runs nothing. */
    method ResumeGraphStreaming(req: ResumeRequest) returns (resp: GraphResponse)
      modifies this
      ensures runConfigs == old(runConfigs)[req.threadId := ResumeConfig(req.reviewAction, req.humanComment)]
      ensures threads == old(threads)
      ensures resp == GraphResponse(req.threadId, Pending, None)
    {
      runConfigs := runConfigs[req.threadId := ResumeConfig(req.reviewAction, req.humanComment)];
      resp := GraphResponse(req.threadId, Pending, None);
    }

    /** GET /graph/stream/{thread_id}: runs the registered request and streams it.
      An unknown id gets the error object and nothing changes. A resume whose
      `update_state` fails is rejected before the stream opens, and the entry stays.
      Otherwise the events are those of the streamed run, the thread keeps what the run
      committed, and the entry is removed, after the status event or the error event. */
    method StreamGraph(threadId: string, disconnectAt: Option<nat>) returns (reply: StreamReply)
      modifies this
      ensures threadId !in old(runConfigs) ==>
        reply == NotFound(NotFoundMessage) && runConfigs == old(runConfigs) && threads == old(threads)
      ensures threadId in old(runConfigs) && old(runConfigs)[threadId].StartConfig? ==>
        var input := StartInput(old(Existing(threadId)), old(runConfigs)[threadId].humanRequest);
        var o := StreamedRun(Checkpoint(input, Some(RetrieveContext)), Run(RetrieveContext, input, world), disconnectAt);
        && reply == Stream(Events(true, threadId, o))
        && threads == old(threads)[threadId := o.committed]
        && runConfigs == old(runConfigs) - {threadId}
      ensures threadId in old(runConfigs) && old(runConfigs)[threadId].ResumeConfig? ==>
        var c := old(runConfigs)[threadId];
        if threadId !in old(threads) then
          reply.Rejected? && runConfigs == old(runConfigs) && threads == old(threads)
        else
          var cp := UpdateState(old(Existing(threadId)), c.reviewAction, c.humanComment).value;
          var o := StreamedRun(cp, ResumeRun(cp, world), disconnectAt);
          && reply == Stream(Events(false, threadId, o))
          && threads == old(threads)[threadId := o.committed]
          && runConfigs == old(runConfigs) - {threadId}
    {
      if threadId !in runConfigs {
        return NotFound(NotFoundMessage);
      }
      var config := runConfigs[threadId];
      var o: StreamOutcome;
      var isStart: bool;
      match config {
        case StartConfig(request) =>
          var input := StartInput(Existing(threadId), request);
          o := StreamedRun(Checkpoint(input, Some(RetrieveContext)), Run(RetrieveContext, input, world), disconnectAt);
          isStart := true;
        case ResumeConfig(action, comment) =>
          var updated := UpdateState(Existing(threadId), action, comment);
          if updated.Failure? {
            return Rejected(updated.error);
          }
          var cp := updated.value;
          o := StreamedRun(cp, ResumeRun(cp, world), disconnectAt);
          isStart := false;
      }
      threads := threads[threadId := o.committed];
      runConfigs := runConfigs - {threadId};
      reply := Stream(Events(isStart, threadId, o));
    }
  }
}
