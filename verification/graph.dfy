/** The human-review conversation machine of backend/app/graph.py: four nodes over a
    `DraftReviewState` record, wired START -> retrieve_context -> assistant_draft ->
    human_feedback -> (assistant_finalize -> END | assistant_draft), compiled to stop
    before human_feedback.

    The graph library's behaviour is spelled out here. A node returns a full copy of the
    state; the `messages` field merges by message identity, so returning
    `state["messages"] + [reply]` appends the reply and returning `state["messages"]`
    changes nothing. A node that returns `None` writes nothing. A run executes nodes one
    after another and stops before a node listed in `interrupt_before`, except when that
    node is the first one of a resumed run. */
module ReviewGraph {
  import opened Wrappers
  import opened Text
  import opened Values
  import opened Messages
  import opened Models
  import opened DualRetrieval

  /** A source shown to the client next to the answer. */
  datatype Source = Source(index: nat, content: string, sourceType: string, confidence: real, metadata: Metadata)

  /** `DraftReviewState`; an absent key is `None`. */
  datatype State = State(
    messages: seq<Message>,
    humanRequest: string,
    humanComment: Option<string>,
    status: Option<ReviewAction>,
    assistantResponse: Option<string>,
    ragContext: Option<string>,
    ragSources: Option<seq<Source>>,
    responseSources: Option<seq<Source>>,
    retrievalConfidence: Option<real>)

  /** `retriever.retrieve(query, top_k)`, or `None` when it raises. */
  type Retriever = (string, nat) -> Option<seq<RetrievalResult>>

  /** The collaborators the nodes call. */
  datatype World = World(llm: Llm, retriever: Retriever)

  /** A request to store an approved answer as a validated answer. */
  datatype ValidatedAnswer = ValidatedAnswer(query: string, answer: string, threadId: string, sourceChunks: seq<Value>, feedback: Option<string>)

  const Apology := "I apologize, but I encountered an error generating a response. Please try again."

  // ---------------------------------------------------------------------------
  // retrieve_context

  function Label(r: RetrievalResult): string {
    if r.source == "validated" then "✓ Validated Answer" else "📄 Documentation"
  }

  /** `f"{x:.2f}"`, rounding half away from zero. */
  function FormatConfidence(x: real): string {
    var cents := ((if x < 0.0 then -x else x) * 100.0 + 0.5).Floor;
    var whole := NatToString(cents / 100);
    var frac := cents % 100;
    (if x < 0.0 && cents > 0 then "-" else "") + whole + "." + [DigitChar(frac / 10), DigitChar(frac % 10)]
  }

  /** The labelled context block of the `i`-th result (counting from 1). */
  function ContextPart(i: nat, r: RetrievalResult): string {
    "[Source " + NatToString(i) + ": " + Label(r) + " - Confidence: " + FormatConfidence(r.confidence) + "]\n"
    + r.content + "\n"
  }

  function ValidationInfoValue(info: Option<Metadata>): Value {
    match info
    case None => Null
    case Some(m) => Dict(m)
  }

  /** The source record of the `i`-th result (counting from 1) shown to the client. */
  function SourceOf(i: nat, r: RetrievalResult): (src: Source)
    ensures src.index == i && src.sourceType == r.source && src.confidence == r.confidence
    ensures src.content == Preview(r.content, 300)
    ensures src.metadata.Keys == {"file", "section", "validated", "validation_info"}
    ensures src.metadata["validated"] == Bool(r.source == "validated")
  {
    Source(i, Preview(r.content, 300), r.source, r.confidence,
      map["file" := Get(r.metadata, "source_file", Str("Unknown")),
          "section" := Get(r.metadata, "section", Str("")),
          "validated" := Bool(r.source == "validated"),
          "validation_info" := ValidationInfoValue(r.validationInfo)])
  }

  function ContextParts(results: seq<RetrievalResult>): (parts: seq<string>)
    ensures |parts| == |results|
  {
    if |results| == 0 then []
    else ContextParts(results[..|results| - 1]) + [ContextPart(|results|, results[|results| - 1])]
  }

  /** One source per result, in result order, numbered from 1. */
  function SourcesOf(results: seq<RetrievalResult>): (sources: seq<Source>)
    ensures |sources| == |results|
    ensures forall i :: 0 <= i < |results| ==> sources[i] == SourceOf(i + 1, results[i])
  {
    if |results| == 0 then []
    else
      var n := |results| - 1;
      var prefix := SourcesOf(results[..n]);
      assert forall i :: 0 <= i < n ==> results[..n][i] == results[i];
      prefix + [SourceOf(n + 1, results[n])]
  }

  function SumConfidence(results: seq<RetrievalResult>): real {
    if |results| == 0 then 0.0
    else SumConfidence(results[..|results| - 1]) + results[|results| - 1].confidence
  }

  /** The loop of retrieve_context that builds the context parts, the sources and the
      confidence total, one result at a time. */
  method BuildContext(results: seq<RetrievalResult>) returns (parts: seq<string>, sources: seq<Source>, total: real)
    ensures parts == ContextParts(results)
    ensures sources == SourcesOf(results)
    ensures total == SumConfidence(results)
  {
    parts, sources, total := [], [], 0.0;
    var i := 0;
    while i < |results|
      invariant 0 <= i <= |results|
      invariant parts == ContextParts(results[..i])
      invariant sources == SourcesOf(results[..i])
      invariant total == SumConfidence(results[..i])
    {
      var result := results[i];
      assert results[..i + 1][..i] == results[..i];
      parts := parts + [ContextPart(i + 1, result)];
      sources := sources + [SourceOf(i + 1, result)];
      total := total + result.confidence;
      i := i + 1;
    }
    assert results[..i] == results;
  }

  /** The state with no retrieved context, as retrieve_context leaves it when retrieval
      finds nothing or raises. */
  function WithoutContext(s: State): State {
    s.(ragContext := Some(""), ragSources := Some([]), retrievalConfidence := Some(0.0))
  }

  /** retrieve_context: asks the retriever for 5 results and records the formatted
      context, the sources and their mean confidence; nothing else changes. */
  function RetrieveContextNode(s: State, retriever: Retriever): (r: State)
    ensures r == s.(ragContext := r.ragContext, ragSources := r.ragSources, retrievalConfidence := r.retrievalConfidence)
    ensures r.ragContext.Some? && r.ragSources.Some? && r.retrievalConfidence.Some?
    ensures |r.ragSources.value| == 0 <==> r == WithoutContext(s)
  {
    match retriever(s.humanRequest, 5)
    case None => WithoutContext(s)
    case Some(results) =>
      if |results| == 0 then WithoutContext(s)
      else
        s.(ragContext := Some(JoinWith(ContextParts(results), "\n---\n")),
           ragSources := Some(SourcesOf(results)),
           retrievalConfidence := Some(SumConfidence(results) / (|results| as real)))
  }

  /** With results, one source per result in result order, numbered from 1, the content
      cut to 300 characters plus "...", and marked validated exactly when the result came
      from a validated answer. */
  lemma RetrieveContextSources(s: State, retriever: Retriever, results: seq<RetrievalResult>)
    requires retriever(s.humanRequest, 5) == Some(results) && |results| > 0
    ensures var r := RetrieveContextNode(s, retriever);
      && |r.ragSources.value| == |results|
      && r.retrievalConfidence == Some(SumConfidence(results) / (|results| as real))
      && forall i :: 0 <= i < |results| ==>
           var src := r.ragSources.value[i];
           && src.index == i + 1
           && src.content == (if |results[i].content| > 300 then results[i].content[..300] + "..." else results[i].content)
           && (src.metadata["validated"] == Bool(true) <==> results[i].source == "validated")
  {
  }

  // ---------------------------------------------------------------------------
  // assistant_draft

  /** The draft revises the previous one only when the status is "feedback" and the
      comment is non-empty; a missing status counts as "approved". */
  predicate IsRevision(s: State) {
    s.status.GetOr(Approved) == Feedback && s.humanComment.Some? && s.humanComment.value != ""
  }

  /** The instruction of a first draft: none without context; otherwise chosen by the
      retrieval confidence against the thresholds 0.8 and 0.5. */
  function GuidanceFor(context: string, confidence: real): (g: Guidance)
    ensures g == NoGuidance <==> context == ""
    ensures g == PrimarilyContext <==> context != "" && confidence >= 0.8
    ensures g == ReferenceContext <==> context != "" && 0.5 <= confidence < 0.8
    ensures g == CautiousContext <==> context != "" && confidence < 0.5
  {
    if context == "" then NoGuidance
    else if confidence >= 0.8 then PrimarilyContext
    else if confidence >= 0.5 then ReferenceContext
    else CautiousContext
  }

  /** The messages assistant_draft sends to the model. */
  function DraftMessages(s: State): (prompt: seq<Message>)
    ensures IsRevision(s) ==> prompt == [HumanMessage(s.humanRequest)] + s.messages
                                        + [SystemMessage(RevisionPrompt(s.ragContext.GetOr(""), s.humanComment.value))]
    ensures !IsRevision(s) ==>
      var context := s.ragContext.GetOr("");
      var confidence := s.retrievalConfidence.GetOr(0.0);
      prompt == [SystemMessage(DraftPrompt(context, confidence, GuidanceFor(context, confidence))),
                 HumanMessage(s.humanRequest)]
  {
    var context := s.ragContext.GetOr("");
    var confidence := s.retrievalConfidence.GetOr(0.0);
    if IsRevision(s) then
      [HumanMessage(s.humanRequest)] + s.messages + [SystemMessage(RevisionPrompt(context, s.humanComment.value))]
    else
      [SystemMessage(DraftPrompt(context, confidence, GuidanceFor(context, confidence))), HumanMessage(s.humanRequest)]
  }

  /** assistant_draft: on success appends exactly the model's reply and makes it the
      assistant response (the human comment is never appended); on failure the messages
      stay as they were and the response becomes the fixed apology. */
  function AssistantDraftNode(s: State, llm: Llm): (r: State)
    ensures r.humanRequest == s.humanRequest && r.humanComment == s.humanComment && r.status == s.status
    ensures r.ragContext == s.ragContext && r.ragSources == s.ragSources && r.retrievalConfidence == s.retrievalConfidence
    ensures llm(DraftMessages(s)).Some? ==>
      var reply := Concat(llm(DraftMessages(s)).value);
      && r.messages == s.messages + [AiMessage(reply)]
      && r.assistantResponse == Some(reply)
      && r.responseSources == Some(s.ragSources.GetOr([]))
    ensures llm(DraftMessages(s)).None? ==> r == s.(assistantResponse := Some(Apology))
  {
    match llm(DraftMessages(s))
    case Some(tokens) =>
      var reply := Concat(tokens);
      s.(messages := s.messages + [AiMessage(reply)],
         assistantResponse := Some(reply),
         responseSources := Some(s.ragSources.GetOr([])))
    case None => s.(assistantResponse := Some(Apology))
  }

  // ---------------------------------------------------------------------------
  // human_feedback

  /** `source.get('metadata', {}).get('chunk_ids', [])`, kept when truthy. */
  function ChunkIdsOf(src: Source): seq<Value> {
    var ids := Get(src.metadata, "chunk_ids", List([]));
    if Truthy(ids) && ids.List? then ids.items else []
  }

  function CollectChunkIds(sources: seq<Source>): seq<Value> {
    if |sources| == 0 then [] else CollectChunkIds(sources[..|sources| - 1]) + ChunkIdsOf(sources[|sources| - 1])
  }

  /** The loop of human_feedback that gathers the chunk ids of the sources. */
  method GatherSourceChunks(sources: seq<Source>) returns (chunks: seq<Value>)
    ensures chunks == CollectChunkIds(sources)
  {
    chunks := [];
    for i := 0 to |sources|
      invariant chunks == CollectChunkIds(sources[..i])
    {
      var ids := ChunkIdsOf(sources[i]);
      if |ids| > 0 {
        chunks := chunks + ids;
      }
      assert sources[..i + 1][..i] == sources[..i];
    }
    assert sources[..|sources|] == sources;
  }

  /** The sources retrieve_context builds carry no chunk ids, so the list is empty. */
  lemma {:induction false} BuiltSourcesHaveNoChunks(results: seq<RetrievalResult>)
    ensures CollectChunkIds(SourcesOf(results)) == []
  {
    if |results| > 0 {
      var n := |results| - 1;
      BuiltSourcesHaveNoChunks(results[..n]);
      assert SourcesOf(results)[..n] == SourcesOf(results[..n]);
      assert "chunk_ids" !in SourceOf(n + 1, results[n]).metadata;
    }
  }

  /** What human_feedback asks the retriever to store: an answer only when the status is
      "approved" (a missing status does not count here) and the response is non-empty.
      The state carries no thread id, so "unknown" is sent. */
  function HumanFeedbackStore(s: State): (v: Option<ValidatedAnswer>)
    ensures v.Some? <==> s.status == Some(Approved) && s.assistantResponse.Some? && s.assistantResponse.value != ""
    ensures v.Some? ==> v.value.query == s.humanRequest && v.value.answer == s.assistantResponse.value
                        && v.value.threadId == "unknown" && v.value.feedback == s.humanComment
  {
    if s.status == Some(Approved) && s.assistantResponse.Some? && s.assistantResponse.value != "" then
      Some(ValidatedAnswer(s.humanRequest, s.assistantResponse.value, "unknown",
                           CollectChunkIds(s.ragSources.GetOr([])), s.humanComment))
    else None
  }

  // ---------------------------------------------------------------------------
  // assistant_finalize

  function FinalizeMessages(s: State, latest: string): seq<Message> {
    [SystemMessage(FinalizePrompt), HumanMessage(s.humanRequest), HumanMessage("My previous draft: " + latest)]
  }

  /** assistant_finalize: on success appends exactly the model's reply and makes it the
      assistant response; on failure the state is returned unchanged. */
  function AssistantFinalizeNode(s: State, latest: string, llm: Llm): (r: State)
    ensures llm(FinalizeMessages(s, latest)).Some? ==>
      var reply := Concat(llm(FinalizeMessages(s, latest)).value);
      r == s.(messages := s.messages + [AiMessage(reply)], assistantResponse := Some(reply))
    ensures llm(FinalizeMessages(s, latest)).None? ==> r == s
  {
    match llm(FinalizeMessages(s, latest))
    case Some(tokens) =>
      var reply := Concat(tokens);
      s.(messages := s.messages + [AiMessage(reply)], assistantResponse := Some(reply))
    case None => s
  }

  // ---------------------------------------------------------------------------
  // Router and topology

  /** feedback_router; reading a missing status raises. */
  function FeedbackRouter(s: State): (r: Result<string>)
    ensures r.Success? <==> s.status.Some?
    ensures r.Success? ==> (r.value == "assistant_finalize" <==> s.status == Some(Approved))
    ensures r.Success? ==> r.value in RouteMap
  {
    assert "assistant_finalize" != "assistant_draft" by {
      assert |"assistant_finalize"| == 18 && |"assistant_draft"| == 15;
    }
    match s.status
    case None => Failure("KeyError: 'status'")
    case Some(a) => if a == Approved then Success("assistant_finalize") else Success("assistant_draft")
  }

  datatype Node = RetrieveContext | AssistantDraft | HumanFeedback | AssistantFinalize

  datatype Endpoint = Start | At(node: Node) | End

  /** The path map given to the conditional edges of human_feedback. */
  const RouteMap: map<string, Node> := map["assistant_finalize" := AssistantFinalize, "assistant_draft" := AssistantDraft]

  /** The nodes listed in `interrupt_before`. */
  const InterruptBefore: set<Node> := {HumanFeedback}

  /** Every edge of the compiled graph, the conditional ones included. START leads only to
      retrieve_context and nothing returns to it; END is entered only from
      assistant_finalize, which is entered only from human_feedback. */
  function Edges(e: Endpoint): (r: set<Endpoint>)
    ensures At(RetrieveContext) in r <==> e == Start
    ensures End in r <==> e == At(AssistantFinalize)
    ensures At(AssistantFinalize) in r <==> e == At(HumanFeedback)
    ensures At(HumanFeedback) in r <==> e == At(AssistantDraft)
    ensures r == {} <==> e == End
    ensures Start !in r
  {
    match e
    case Start => {At(RetrieveContext)}
    case At(RetrieveContext) => {At(AssistantDraft)}
    case At(AssistantDraft) => {At(HumanFeedback)}
    case At(HumanFeedback) => {At(AssistantFinalize), At(AssistantDraft)}
    case At(AssistantFinalize) => {End}
    case End => {}
  }

  /** Where a run goes after `n` has written `after`: the static edge, or for
      human_feedback the router's choice looked up in the path map. */
  function NextEndpoint(n: Node, after: State): (r: Result<Endpoint>)
    ensures r.Success? ==> r.value in Edges(At(n))
    ensures r.Failure? <==> n == HumanFeedback && after.status.None?
  {
    match n
    case RetrieveContext => Success(At(AssistantDraft))
    case AssistantDraft => Success(At(HumanFeedback))
    case HumanFeedback =>
      (match FeedbackRouter(after)
       case Failure(e) => Failure(e)
       case Success(name) => Success(At(RouteMap[name])))
    case AssistantFinalize => Success(End)
  }

  /** A path through the graph following its edges. */
  predicate IsPath(p: seq<Endpoint>) {
    forall i :: 0 <= i < |p| - 1 ==> p[i + 1] in Edges(p[i])
  }

  /** On any path from START, retrieve_context occurs only right after START: retrieval
      runs once per thread. */
  lemma {:induction false} RetrievalOnlyFirst(p: seq<Endpoint>, i: nat)
    requires |p| > 0 && p[0] == Start && IsPath(p)
    requires i < |p| && p[i] == At(RetrieveContext)
    ensures i == 1
  {
    forall j | 1 <= j < |p| ensures p[j] != Start {
      assert p[j] in Edges(p[j - 1]);
    }
    assert p[i] in Edges(p[i - 1]);
  }

  /** On any path, END is preceded by assistant_finalize, and that by human_feedback. */
  lemma EndOnlyAfterFinalize(p: seq<Endpoint>, i: nat)
    requires IsPath(p) && 2 <= i < |p| && p[i] == End
    ensures p[i - 1] == At(AssistantFinalize) && p[i - 2] == At(HumanFeedback)
  {
    assert p[i] in Edges(p[i - 1]);
    assert p[i - 1] in Edges(p[i - 2]);
  }

  // ---------------------------------------------------------------------------
  // Running the graph

  /** One executed node: its streamed tokens, the state it wrote, the model reply it
      obtained, and the validated answer it asked to store. */
  datatype Step = Step(node: Node, tokens: seq<string>, after: State, reply: Option<string>, store: Option<ValidatedAnswer>)

  datatype NodeOutcome = Ran(step: Step) | Raised(error: string)

  /** Executes one node; only assistant_finalize raises, on a missing assistant response. */
  function Exec(n: Node, s: State, w: World): (o: NodeOutcome)
    ensures o.Ran? ==> o.step.node == n
    ensures o.Raised? <==> n == AssistantFinalize && s.assistantResponse.None?
    ensures o.Ran? ==> (o.step.reply.Some? <==> o.step.after.messages != s.messages)
    ensures o.Ran? && (n == RetrieveContext || n == HumanFeedback) ==> o.step.tokens == []
  {
    match n
    case RetrieveContext => Ran(Step(n, [], RetrieveContextNode(s, w.retriever), None, None))
    case AssistantDraft =>
      var out := w.llm(DraftMessages(s));
      Ran(Step(n, out.GetOr([]), AssistantDraftNode(s, w.llm),
               if out.Some? then Some(Concat(out.value)) else None, None))
    case HumanFeedback => Ran(Step(n, [], s, None, HumanFeedbackStore(s)))
    case AssistantFinalize =>
      if s.assistantResponse.None? then Raised("KeyError: 'assistant_response'")
      else
        var out := w.llm(FinalizeMessages(s, s.assistantResponse.value));
        Ran(Step(n, out.GetOr([]), AssistantFinalizeNode(s, s.assistantResponse.value, w.llm),
                 if out.Some? then Some(Concat(out.value)) else None, None))
  }

  function Rank(n: Node): nat {
    match n
    case RetrieveContext => 3
    case AssistantDraft => 2
    case HumanFeedback => 4
    case AssistantFinalize => 1
  }

  /** The outcome of a run: the executed steps, the last committed checkpoint (values and
      the node that would run next, `None` once END is reached) and the error raised, if any. */
  datatype RunResult = RunResult(steps: seq<Step>, values: State, next: Option<Node>, error: Option<string>)

  /** Runs from node `n`, which executes even if it is an interrupt node, until END, an
      interrupt, or an error. */
  function Run(n: Node, s: State, w: World): (r: RunResult)
    ensures |r.steps| > 0 ==> r.steps[0].node == n
    decreases Rank(n)
  {
    match Exec(n, s, w)
    case Raised(e) => RunResult([], s, Some(n), Some(e))
    case Ran(step) =>
      match NextEndpoint(n, step.after)
      case Failure(e) => RunResult([], s, Some(n), Some(e))
      case Success(Start) => RunResult([step], step.after, None, None)
      case Success(End) => RunResult([step], step.after, None, None)
      case Success(At(m)) =>
        if m in InterruptBefore then RunResult([step], step.after, Some(m), None)
        else
          var rest := Run(m, step.after, w);
          rest.(steps := [step] + rest.steps)
  }

  function Nodes(steps: seq<Step>): (ns: seq<Node>)
    ensures |ns| == |steps|
  {
    if |steps| == 0 then [] else [steps[0].node] + Nodes(steps[1..])
  }

  /** The model replies the steps appended, in order. */
  function Replies(steps: seq<Step>): seq<Message> {
    if |steps| == 0 then []
    else (if steps[0].reply.Some? then [AiMessage(steps[0].reply.value)] else []) + Replies(steps[1..])
  }

  /** A run only appends to `messages`, exactly one model reply per successful model call. */
  lemma {:induction false} RunAppendsReplies(n: Node, s: State, w: World)
    ensures Run(n, s, w).values.messages == s.messages + Replies(Run(n, s, w).steps)
    decreases Rank(n)
  {
    if Exec(n, s, w).Ran? {
      var step := Exec(n, s, w).step;
      ExecAppendsReply(n, s, w);
      RepliesCons(step, []);
      var next := NextEndpoint(n, step.after);
      if next.Success? && next.value.At? && next.value.node !in InterruptBefore {
        var m := next.value.node;
        RunAppendsReplies(m, step.after, w);
        RepliesCons(step, Run(m, step.after, w).steps);
      }
    }
  }

  /** A node appends its model reply, if it obtained one, and nothing else. */
  lemma ExecAppendsReply(n: Node, s: State, w: World)
    requires Exec(n, s, w).Ran?
    ensures var step := Exec(n, s, w).step;
      step.after.messages == s.messages + (if step.reply.Some? then [AiMessage(step.reply.value)] else [])
  {
  }

  lemma RepliesCons(step: Step, steps: seq<Step>)
    ensures Replies([step] + steps) == (if step.reply.Some? then [AiMessage(step.reply.value)] else []) + Replies(steps)
  {
    assert ([step] + steps)[1..] == steps;
  }


  /** Only the nodes that call the model stream tokens. */
  lemma {:induction false} OnlyModelNodesStream(n: Node, s: State, w: World, i: nat)
    requires i < |Run(n, s, w).steps|
    requires Run(n, s, w).steps[i].node == RetrieveContext || Run(n, s, w).steps[i].node == HumanFeedback
    ensures Run(n, s, w).steps[i].tokens == []
    decreases Rank(n)
  {
    match Exec(n, s, w)
    case Raised(e) =>
    case Ran(step) =>
      match NextEndpoint(n, step.after)
      case Failure(e) =>
      case Success(Start) =>
      case Success(End) =>
      case Success(At(m)) =>
        if m !in InterruptBefore && i > 0 {
          OnlyModelNodesStream(m, step.after, w, i - 1);
        }
  }

  // ---------------------------------------------------------------------------
  // Threads: the checkpointer's view

  /** A thread's checkpoint: its values and the node that runs next (`None`: finished). */
  datatype Checkpoint = Checkpoint(values: State, next: Option<Node>)

  function FreshState(request: string): State {
    State([], request, None, None, None, None, None, None, None)
  }

  /** `graph.invoke({"human_request": ...})`: the input is written over the thread's
      values (if any) and the run starts at retrieve_context. */
  function StartInput(existing: Option<Checkpoint>, request: string): (s: State)
    ensures s.humanRequest == request
    ensures existing.None? ==> s == FreshState(request)
    ensures existing.Some? ==> s == existing.value.values.(humanRequest := request)
  {
    match existing
    case None => FreshState(request)
    case Some(cp) => cp.values.(humanRequest := request)
  }

  function StartRun(existing: Option<Checkpoint>, request: string, w: World): RunResult {
    Run(RetrieveContext, StartInput(existing, request), w)
  }

  /** `graph.update_state(config, {"status": action[, "human_comment": comment]})`: the
      fields are merged into the values and the pending node stays; a thread with no
      checkpoint is an error. A comment left out keeps the previous one. */
  function UpdateState(existing: Option<Checkpoint>, action: ReviewAction, comment: Option<string>): (r: Result<Checkpoint>)
    ensures r.Success? <==> existing.Some?
    ensures r.Success? ==>
      && r.value.next == existing.value.next
      && r.value.values.status == Some(action)
      && r.value.values.humanComment == (if comment.Some? then comment else existing.value.values.humanComment)
      && r.value.values.messages == existing.value.values.messages
  {
    match existing
    case None => Failure("thread has no checkpoint")
    case Some(cp) =>
      var v := cp.values.(status := Some(action));
      Success(cp.(values := if comment.Some? then v.(humanComment := comment) else v))
  }

  /** `graph.invoke(None)` / `graph.stream(None)`: continues from the pending node; a
      finished thread runs nothing. */
  function ResumeRun(cp: Checkpoint, w: World): RunResult {
    match cp.next
    case None => RunResult([], cp.values, None, None)
    case Some(n) => Run(n, cp.values, w)
  }

  function Committed(r: RunResult): Checkpoint {
    Checkpoint(r.values, r.next)
  }

  /** A run from assistant_draft drafts once and suspends before human_feedback. */
  lemma DraftRunSuspends(s: State, w: World)
    ensures var r := Run(AssistantDraft, s, w);
      && r.error == None && Nodes(r.steps) == [AssistantDraft] && r.next == Some(HumanFeedback)
      && r.values == AssistantDraftNode(s, w.llm)
  {
    var step := Exec(AssistantDraft, s, w).step;
    assert NextEndpoint(AssistantDraft, step.after) == Success(At(HumanFeedback));
    assert Run(AssistantDraft, s, w) == RunResult([step], step.after, Some(HumanFeedback), None);
  }

  /** A run from retrieve_context retrieves, then continues as a run from assistant_draft. */
  lemma RetrieveRunContinues(s: State, w: World)
    ensures var r := Run(RetrieveContext, s, w);
      var s1 := RetrieveContextNode(s, w.retriever);
      var rest := Run(AssistantDraft, s1, w);
      && r.values == rest.values && r.next == rest.next && r.error == rest.error
      && Nodes(r.steps) == [RetrieveContext] + Nodes(rest.steps)
  {
    var step := Exec(RetrieveContext, s, w).step;
    var rest := Run(AssistantDraft, step.after, w);
    assert Run(RetrieveContext, s, w) == rest.(steps := [step] + rest.steps);
    assert ([step] + rest.steps)[1..] == rest.steps;
  }

  /** A new thread runs retrieval and one draft, then suspends before human_feedback with
      an assistant response and at most one message. */
  lemma StartSuspendsForReview(request: string, w: World)
    ensures var r := StartRun(None, request, w);
      && r.error == None
      && Nodes(r.steps) == [RetrieveContext, AssistantDraft]
      && r.next == Some(HumanFeedback)
      && r.values.assistantResponse.Some?
      && r.values.humanRequest == request
      && (|r.values.messages| == 1 <==> w.llm(DraftMessages(RetrieveContextNode(FreshState(request), w.retriever))).Some?)
      && |r.values.messages| <= 1
  {
    var s1 := RetrieveContextNode(FreshState(request), w.retriever);
    RetrieveRunContinues(FreshState(request), w);
    DraftRunSuspends(s1, w);
  }

  /** A suspended thread approved: human_feedback then assistant_finalize run, and the
      thread finishes. */
  lemma ResumeApprovedFinishes(cp: Checkpoint, w: World)
    requires cp.next == Some(HumanFeedback) && cp.values.status == Some(Approved) && cp.values.assistantResponse.Some?
    ensures var r := ResumeRun(cp, w);
      r.error == None && Nodes(r.steps) == [HumanFeedback, AssistantFinalize] && r.next == None
  {
    var r2 := Run(AssistantFinalize, cp.values, w);
    assert Nodes(r2.steps) == [AssistantFinalize];
  }

  /** A suspended thread given feedback: human_feedback then assistant_draft run, and the
      thread suspends again; retrieval is not repeated. */
  lemma ResumeFeedbackRedrafts(cp: Checkpoint, w: World)
    requires cp.next == Some(HumanFeedback) && cp.values.status == Some(Feedback)
    ensures var r := ResumeRun(cp, w);
      && r.error == None && Nodes(r.steps) == [HumanFeedback, AssistantDraft] && r.next == Some(HumanFeedback)
      && r.values.assistantResponse.Some?
      && r.values.ragSources == cp.values.ragSources && r.values.ragContext == cp.values.ragContext
  {
    var r2 := Run(AssistantDraft, cp.values, w);
    assert Nodes(r2.steps) == [AssistantDraft];
  }

  /** Continuing a suspended thread whose status was never set raises in the router and
      leaves the checkpoint as it was. */
  lemma ResumeWithoutStatusRaises(cp: Checkpoint, w: World)
    requires cp.next == Some(HumanFeedback) && cp.values.status.None?
    ensures var r := ResumeRun(cp, w);
      r.error.Some? && r.steps == [] && Committed(r) == cp
  {
  }

  // ---------------------------------------------------------------------------
  // A whole conversation: creation, then one resume per decision

  datatype Decision = Decision(action: ReviewAction, comment: Option<string>)

  /** Review rounds after the first draft: (human_feedback assistant_draft)*, optionally
      closed by human_feedback assistant_finalize. */
  predicate ReviewRounds(t: seq<Node>)
    decreases |t|
  {
    || t == []
    || t == [HumanFeedback, AssistantFinalize]
    || (|t| >= 2 && t[0] == HumanFeedback && t[1] == AssistantDraft && ReviewRounds(t[2..]))
  }

  /** retrieve_context assistant_draft, then review rounds. */
  predicate ValidTrace(t: seq<Node>) {
    |t| >= 2 && t[0] == RetrieveContext && t[1] == AssistantDraft && ReviewRounds(t[2..])
  }

  lemma {:induction false} ReviewRoundsExtend(t: seq<Node>, last: Node)
    requires ReviewRounds(t) && (|t| == 0 || t[|t| - 1] == AssistantDraft)
    requires last == AssistantDraft || last == AssistantFinalize
    ensures ReviewRounds(t + [HumanFeedback, last])
    decreases |t|
  {
    if |t| > 0 {
      assert t[0] == HumanFeedback && t[1] == AssistantDraft;
      if |t| > 2 {
        ReviewRoundsExtend(t[2..], last);
      }
      assert (t + [HumanFeedback, last])[2..] == t[2..] + [HumanFeedback, last];
    }
  }

  lemma {:induction false} NoRetrievalInRounds(t: seq<Node>)
    requires ReviewRounds(t)
    ensures RetrieveContext !in t
    decreases |t|
  {
    if |t| > 2 {
      NoRetrievalInRounds(t[2..]);
      assert t == t[..2] + t[2..];
    }
  }

  /** In a valid trace retrieval runs exactly once, first. */
  lemma RetrievalOnce(t: seq<Node>, i: nat)
    requires ValidTrace(t) && i < |t|
    ensures t[i] == RetrieveContext <==> i == 0
  {
    NoRetrievalInRounds(t[2..]);
    if i >= 2 {
      assert t[i] == t[2..][i - 2];
    }
  }

  /** The shape of a thread between requests: suspended after a draft, or finished after
      the finalization. */
  predicate SessionShape(cp: Checkpoint, trace: seq<Node>) {
    && ValidTrace(trace)
    && ((cp.next == Some(HumanFeedback) && cp.values.assistantResponse.Some? && trace[|trace| - 1] == AssistantDraft)
        || (cp.next == None && trace[|trace| - 1] == AssistantFinalize))
  }

  /** One review decision on a thread: `update_state` with the decision, then
      `invoke(None)`; the executed nodes are appended to the trace. */
  function Advance(cp: Checkpoint, trace: seq<Node>, d: Decision, w: World): (Checkpoint, seq<Node>) {
    match UpdateState(Some(cp), d.action, d.comment)
    case Failure(_) => (cp, trace)
    case Success(cp2) =>
      var r := ResumeRun(cp2, w);
      (Committed(r), trace + Nodes(r.steps))
  }

  /** The thread after `graph.invoke` on a new thread followed by one `Advance` per
      decision, with the nodes executed so far. */
  function Session(request: string, decisions: seq<Decision>, w: World): (Checkpoint, seq<Node>)
    decreases |decisions|
  {
    if |decisions| == 0 then
      var r := StartRun(None, request, w);
      (Committed(r), Nodes(r.steps))
    else
      var prev := Session(request, decisions[..|decisions| - 1], w);
      Advance(prev.0, prev.1, decisions[|decisions| - 1], w)
  }

  /** Every decision keeps the thread in its shape: approval finishes it, feedback
      re-drafts and suspends again, and a finished thread runs nothing. */
  lemma AdvanceKeepsShape(cp: Checkpoint, trace: seq<Node>, d: Decision, w: World)
    requires SessionShape(cp, trace)
    ensures SessionShape(Advance(cp, trace, d, w).0, Advance(cp, trace, d, w).1)
  {
    if cp.next == Some(HumanFeedback) {
      var cp2 := UpdateState(Some(cp), d.action, d.comment).value;
      var last := if d.action == Approved then AssistantFinalize else AssistantDraft;
      if d.action == Approved {
        ResumeApprovedFinishes(cp2, w);
      } else {
        ResumeFeedbackRedrafts(cp2, w);
      }
      ExtendTrace(trace, last);
    } else {
      var cp2 := UpdateState(Some(cp), d.action, d.comment).value;
      assert Nodes(ResumeRun(cp2, w).steps) == [];
      assert trace + [] == trace;
    }
  }

  /** A review round appended to a trace that ends in a draft keeps it valid. */
  lemma ExtendTrace(trace: seq<Node>, last: Node)
    requires ValidTrace(trace) && trace[|trace| - 1] == AssistantDraft
    requires last == AssistantDraft || last == AssistantFinalize
    ensures ValidTrace(trace + [HumanFeedback, last])
  {
    ReviewRoundsExtend(trace[2..], last);
    assert (trace + [HumanFeedback, last])[2..] == trace[2..] + [HumanFeedback, last];
  }

  /** Whatever the decisions, the executed nodes follow retrieve_context assistant_draft
      (human_feedback assistant_draft)* [human_feedback assistant_finalize], and the thread
      is either suspended before human_feedback or finished. */
  lemma {:induction false} SessionFollowsMachine(request: string, decisions: seq<Decision>, w: World)
    ensures SessionShape(Session(request, decisions, w).0, Session(request, decisions, w).1)
    decreases |decisions|
  {
    if |decisions| == 0 {
      StartSuspendsForReview(request, w);
    } else {
      var prev := Session(request, decisions[..|decisions| - 1], w);
      SessionFollowsMachine(request, decisions[..|decisions| - 1], w);
      AdvanceKeepsShape(prev.0, prev.1, decisions[|decisions| - 1], w);
    }
  }

  /** A new thread ends its first run with exactly what the first draft wrote. */
  lemma StartValues(request: string, w: World)
    ensures StartRun(None, request, w).values == AssistantDraftNode(RetrieveContextNode(FreshState(request), w.retriever), w.llm)
  {
    RetrieveRunContinues(FreshState(request), w);
    DraftRunSuspends(RetrieveContextNode(FreshState(request), w.retriever), w);
  }

  /** A feedback round ends with exactly what the new draft wrote. */
  lemma FeedbackValues(cp: Checkpoint, w: World)
    requires cp.next == Some(HumanFeedback) && cp.values.status == Some(Feedback)
    ensures ResumeRun(cp, w).values == AssistantDraftNode(cp.values, w.llm)
  {
    ResumeFeedbackRedrafts(cp, w);
  }

  /** Creation and one feedback round with a model that always answers: the thread holds
      the two drafts and nothing else; neither the request nor the comment is appended. */
  lemma FeedbackRoundKeepsOnlyReplies(request: string, comment: string, w: World)
    requires forall p :: w.llm(p).Some?
    ensures var cp := Session(request, [Decision(Feedback, Some(comment))], w).0;
      && |cp.values.messages| == 2
      && cp.values.messages[0].AiMessage? && cp.values.messages[1].AiMessage?
      && cp.next == Some(HumanFeedback)
  {
    var r1 := StartRun(None, request, w);
    StartSuspendsForReview(request, w);
    StartValues(request, w);
    var cp1 := Committed(r1);
    assert Session(request, [], w).0 == cp1;
    assert [Decision(Feedback, Some(comment))][..0] == [];
    var cp2 := UpdateState(Some(cp1), Feedback, Some(comment)).value;
    ResumeFeedbackRedrafts(cp2, w);
    FeedbackValues(cp2, w);
  }
}
