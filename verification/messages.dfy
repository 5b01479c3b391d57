/** Chat messages exchanged with the language model (langchain's `HumanMessage`,
    `SystemMessage` and the model's reply), and the model itself as a function. */
module Messages {
  import opened Wrappers

  /** The instruction added to an initial draft prompt, chosen from the retrieval
      confidence (backend/app/graph.py:155-162). */
  datatype Guidance = NoGuidance | PrimarilyContext | ReferenceContext | CautiousContext

  /** The system prompts, identified by what they are built from; their fixed wording
      is not modelled. */
  datatype SystemPrompt =
    | DraftPrompt(context: string, confidence: real, guidance: Guidance)
    | RevisionPrompt(context: string, comment: string)
    | FinalizePrompt
    | StudioDraftPrompt
    | StudioRevisionPrompt
    | StudioFinalizePrompt

  datatype Message =
    | HumanMessage(content: string)
    | SystemMessage(prompt: SystemPrompt)
    /** A bare string in a message list, which the chat model takes as a user turn. */
    | PlainPrompt(prompt: SystemPrompt)
    | AiMessage(content: string)

  /** `model.invoke(messages)`: the streamed reply tokens, or `None` when the call raises. */
  type Llm = seq<Message> -> Option<seq<string>>
}
