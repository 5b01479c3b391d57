/** The earlier, retrieval-less review machine of backend/studio/human-in-the-loop.py:
    START -> assistant_draft -> human_feedback -> (assistant_finalize -> END |
    assistant_draft), compiled to stop before human_feedback. Its nodes call the model
    without a guard, so a failed model call raises and ends the run. The graph library's
    behaviour is the one described in module ReviewGraph. */
module StudioGraph {
  import opened Wrappers
  import opened Text
  import opened Messages
  import opened Models

  /** `DraftReviewState` of the studio graph; an absent key is `None`. */
  datatype State = State(
    messages: seq<Message>,
    humanRequest: string,
    humanComment: Option<string>,
    status: Option<ReviewAction>,
    assistantResponse: Option<string>)

  /** `state.get("status", "approved")`. */
  function StatusOrApproved(s: State): (a: ReviewAction)
    ensures a == Feedback <==> s.status == Some(Feedback)
  {
    s.status.GetOr(Approved)
  }

  /** The revision branch of assistant_draft: status "feedback" and a truthy comment. */
  predicate IsRevision(s: State) {
    StatusOrApproved(s) == Feedback && s.humanComment.Some? && s.humanComment.value != ""
  }

  /** The prompt of assistant_draft: in the revision branch the request, the history, the
      revision instruction and the comment; otherwise the instruction and the request. */
  function DraftMessages(s: State): seq<Message> {
    if IsRevision(s) then
      [HumanMessage(s.humanRequest)] + s.messages + [SystemMessage(StudioRevisionPrompt), HumanMessage(s.humanComment.value)]
    else
      [SystemMessage(StudioDraftPrompt), HumanMessage(s.humanRequest)]
  }

  /** What a node adds to `messages` besides the model reply: the human comment in the
      revision branch. */
  function CommentTurn(s: State): (m: seq<Message>)
    ensures |m| == (if IsRevision(s) then 1 else 0)
  {
    if IsRevision(s) then [HumanMessage(s.humanComment.value)] else []
  }

  /** assistant_draft: raises when the model call raises; otherwise appends the human
      comment (revision branch only) followed by the reply, makes the reply the assistant
      response and leaves every other field as it was. */
  function AssistantDraftNode(s: State, llm: Llm): (r: Result<State>)
    ensures r.Failure? <==> llm(DraftMessages(s)).None?
    ensures r.Success? ==>
      && r.value.humanRequest == s.humanRequest && r.value.humanComment == s.humanComment
      && r.value.status == s.status
      && |r.value.messages| == |s.messages| + (if IsRevision(s) then 2 else 1)
      && r.value.messages[..|s.messages|] == s.messages
      && r.value.assistantResponse == Some(Concat(llm(DraftMessages(s)).value))
      && r.value.messages[|r.value.messages| - 1] == AiMessage(r.value.assistantResponse.value)
      && (IsRevision(s) ==> r.value.messages[|s.messages|] == HumanMessage(s.humanComment.value))
  {
    match llm(DraftMessages(s))
    case None => Failure("model call failed")
    case Some(tokens) =>
      var reply := Concat(tokens);
      Success(s.(messages := s.messages + CommentTurn(s) + [AiMessage(reply)], assistantResponse := Some(reply)))
  }

  /** The prompt of assistant_finalize: the bare instruction string, then the history. */
  function FinalizeMessages(s: State): seq<Message> {
    [PlainPrompt(StudioFinalizePrompt)] + s.messages
  }

  /** assistant_finalize: raises when the model call raises; otherwise appends exactly the
      reply and makes it the assistant response. */
  function AssistantFinalizeNode(s: State, llm: Llm): (r: Result<State>)
    ensures r.Failure? <==> llm(FinalizeMessages(s)).None?
    ensures r.Success? ==>
      var reply := Concat(llm(FinalizeMessages(s)).value);
      r.value == s.(messages := s.messages + [AiMessage(reply)], assistantResponse := Some(reply))
  {
    match llm(FinalizeMessages(s))
    case None => Failure("model call failed")
    case Some(tokens) =>
      var reply := Concat(tokens);
      Success(s.(messages := s.messages + [AiMessage(reply)], assistantResponse := Some(reply)))
  }

  /** feedback_router: "approved" goes to assistant_finalize, anything else to
      assistant_draft; reading a missing status raises. */
  function FeedbackRouter(s: State): (r: Result<Node>)
    ensures r.Success? <==> s.status.Some?
    ensures r.Success? ==> (r.value == AssistantFinalize <==> s.status == Some(Approved))
    ensures r.Success? ==> r.value != HumanFeedback
  {
    match s.status
    case None => Failure("KeyError: 'status'")
    case Some(a) => if a == Approved then Success(AssistantFinalize) else Success(AssistantDraft)
  }

  datatype Node = AssistantDraft | HumanFeedback | AssistantFinalize

  datatype Endpoint = Start | At(node: Node) | End

  /** The nodes listed in `interrupt_before`. */
  const InterruptBefore: set<Node> := {HumanFeedback}

  /** Every edge of the compiled graph: START leads to assistant_draft (there is no
      retrieval step), and END is entered only from assistant_finalize. */
  function Edges(e: Endpoint): (r: set<Endpoint>)
    ensures At(AssistantDraft) in r <==> e == Start || e == At(HumanFeedback)
    ensures End in r <==> e == At(AssistantFinalize)
    ensures At(AssistantFinalize) in r <==> e == At(HumanFeedback)
    ensures At(HumanFeedback) in r <==> e == At(AssistantDraft)
    ensures r == {} <==> e == End
    ensures Start !in r
  {
    match e
    case Start => {At(AssistantDraft)}
    case At(AssistantDraft) => {At(HumanFeedback)}
    case At(HumanFeedback) => {At(AssistantFinalize), At(AssistantDraft)}
    case At(AssistantFinalize) => {End}
    case End => {}
  }

  /** Where a run goes after `n` has written `after`. */
  function NextEndpoint(n: Node, after: State): (r: Result<Endpoint>)
    ensures r.Success? ==> r.value in Edges(At(n))
    ensures r.Failure? <==> n == HumanFeedback && after.status.None?
  {
    match n
    case AssistantDraft => Success(At(HumanFeedback))
    case HumanFeedback =>
      (match FeedbackRouter(after)
       case Failure(e) => Failure(e)
       case Success(m) => Success(At(m)))
    case AssistantFinalize => Success(End)
  }

  /** Executes one node; human_feedback writes nothing. */
  function Exec(n: Node, s: State, llm: Llm): (r: Result<State>)
    ensures n == HumanFeedback ==> r == Success(s)
  {
    match n
    case AssistantDraft => AssistantDraftNode(s, llm)
    case HumanFeedback => Success(s)
    case AssistantFinalize => AssistantFinalizeNode(s, llm)
  }

  function Rank(n: Node): nat {
    match n
    case AssistantDraft => 1
    case HumanFeedback => 2
    case AssistantFinalize => 1
  }

  /** The outcome of a run: the executed nodes, the last committed values, the node that
      would run next (`None` once END is reached) and the error raised, if any. */
  datatype RunResult = RunResult(nodes: seq<Node>, values: State, next: Option<Node>, error: Option<string>)

  /** Runs from node `n`, which executes even if it is an interrupt node, until END, an
      interrupt, or an error; an error keeps the values committed before the failing node. */
  function Run(n: Node, s: State, llm: Llm): RunResult
    decreases Rank(n)
  {
    match Exec(n, s, llm)
    case Failure(e) => RunResult([], s, Some(n), Some(e))
    case Success(after) =>
      match NextEndpoint(n, after)
      case Failure(e) => RunResult([], s, Some(n), Some(e))
      case Success(Start) => RunResult([n], after, None, None)
      case Success(End) => RunResult([n], after, None, None)
      case Success(At(m)) =>
        if m in InterruptBefore then RunResult([n], after, Some(m), None)
        else
          var rest := Run(m, after, llm);
          rest.(nodes := [n] + rest.nodes)
  }

  datatype Checkpoint = Checkpoint(values: State, next: Option<Node>)

  /** `graph.invoke({"human_request": ...})` on a new thread. */
  function StartRun(request: string, llm: Llm): RunResult {
    Run(AssistantDraft, State([], request, None, None, None), llm)
  }

  /** `graph.invoke(None)`: continues from the pending node; a finished thread runs nothing. */
  function ResumeRun(cp: Checkpoint, llm: Llm): RunResult {
    match cp.next
    case None => RunResult([], cp.values, None, None)
    case Some(n) => Run(n, cp.values, llm)
  }

  function Committed(r: RunResult): Checkpoint {
    Checkpoint(r.values, r.next)
  }

  /** A new thread drafts once and suspends before human_feedback with the reply as its
      only message and no status; if the model call raises the run fails and nothing is
      committed. */
  lemma StartSuspendsForReview(request: string, llm: Llm)
    ensures var r := StartRun(request, llm);
      var initial := State([], request, None, None, None);
      && (r.error.None? <==> llm(DraftMessages(initial)).Some?)
      && (r.error.None? ==>
            && r.nodes == [AssistantDraft] && r.next == Some(HumanFeedback)
            && r.values.status.None?
            && r.values.messages == [AiMessage(Concat(llm(DraftMessages(initial)).value))])
      && (r.error.Some? ==> r.nodes == [] && r.values == initial)
  {
    var initial := State([], request, None, None, None);
    assert !IsRevision(initial);
  }

  /** Continuing a suspended thread whose status was never set raises in the router,
      before anything runs. */
  lemma ResumeWithoutStatusRaises(cp: Checkpoint, llm: Llm)
    requires cp.next == Some(HumanFeedback) && cp.values.status.None?
    ensures var r := ResumeRun(cp, llm);
      r.error.Some? && r.nodes == [] && Committed(r) == cp
  {
  }

  /** A suspended thread given feedback with a non-empty comment: human_feedback and
      assistant_draft run, the comment and then the new reply are appended, and the
      thread suspends again. */
  lemma ResumeFeedbackAppendsComment(cp: Checkpoint, c: string, llm: Llm)
    requires cp.next == Some(HumanFeedback) && cp.values.status == Some(Feedback)
    requires cp.values.humanComment == Some(c) && c != ""
    requires llm(DraftMessages(cp.values)).Some?
    ensures var r := ResumeRun(cp, llm);
      && r.error.None? && r.nodes == [HumanFeedback, AssistantDraft] && r.next == Some(HumanFeedback)
      && r.values.messages == cp.values.messages + [HumanMessage(c), AiMessage(r.values.assistantResponse.value)]
  {
    assert IsRevision(cp.values);
    var after := AssistantDraftNode(cp.values, llm).value;
    var n := |cp.values.messages|;
    assert after.messages == after.messages[..n] + [after.messages[n], after.messages[n + 1]];
  }

  /** A suspended thread approved: human_feedback and assistant_finalize run, exactly one
      reply is appended, and the thread finishes. */
  lemma ResumeApprovedFinishes(cp: Checkpoint, llm: Llm)
    requires cp.next == Some(HumanFeedback) && cp.values.status == Some(Approved)
    requires llm(FinalizeMessages(cp.values)).Some?
    ensures var r := ResumeRun(cp, llm);
      && r.error.None? && r.nodes == [HumanFeedback, AssistantFinalize] && r.next == None
      && r.values.messages == cp.values.messages + [AiMessage(r.values.assistantResponse.value)]
  {
  }
}

/** The two review machines side by side. */
module VariantContrast {
  import opened Wrappers
  import opened Messages
  import opened Models
  import StudioGraph
  import ReviewGraph

  /** Given the same history, status "feedback" and the same non-empty comment, a
      successful re-draft in the studio graph appends the comment and the reply, while the
      application graph appends the reply alone: only the studio history records the
      reviewer's words. */
  lemma OnlyStudioRecordsComment(ss: StudioGraph.State, rs: ReviewGraph.State, w: ReviewGraph.World, llm: Llm, c: string)
    requires ss.messages == rs.messages
    requires ss.status == Some(Feedback) && rs.status == Some(Feedback)
    requires ss.humanComment == Some(c) && rs.humanComment == Some(c) && c != ""
    requires llm(StudioGraph.DraftMessages(ss)).Some? && w.llm(ReviewGraph.DraftMessages(rs)).Some?
    ensures var sm := StudioGraph.AssistantDraftNode(ss, llm).value.messages;
      var rm := ReviewGraph.AssistantDraftNode(rs, w.llm).messages;
      && |sm| == |rm| + 1
      && sm[|ss.messages|] == HumanMessage(c)
      && (forall i :: |rs.messages| <= i < |rm| ==> rm[i].AiMessage?)
  {
    assert StudioGraph.IsRevision(ss);
  }
}
