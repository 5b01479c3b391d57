/** Request and response bodies of the HTTP layer (backend/app/models.py), with the
    validation pydantic applies to the literal-typed and optional fields. */
module Models {
  import opened Wrappers
  import opened Values

  /** `Literal["approved", "feedback"]`. */
  datatype ReviewAction = Approved | Feedback

  function ReviewActionName(a: ReviewAction): string {
    match a
    case Approved => "approved"
    case Feedback => "feedback"
  }

  /** The only accepted spellings of a review action are "approved" and "feedback". */
  function ParseReviewAction(s: string): (r: Option<ReviewAction>)
    ensures r.Some? <==> s == "approved" || s == "feedback"
    ensures r.Some? ==> ReviewActionName(r.value) == s
  {
    if s == "approved" then Some(Approved)
    else if s == "feedback" then Some(Feedback)
    else None
  }

  lemma ReviewActionRoundTrip(a: ReviewAction)
    ensures ParseReviewAction(ReviewActionName(a)) == Some(a)
  {
  }

  /** `Literal["finished", "user_feedback", "pending"]`. */
  datatype RunStatus = Finished | UserFeedback | Pending

  function RunStatusName(s: RunStatus): string {
    match s
    case Finished => "finished"
    case UserFeedback => "user_feedback"
    case Pending => "pending"
  }

  function ParseRunStatus(s: string): (r: Option<RunStatus>)
    ensures r.Some? <==> s == "finished" || s == "user_feedback" || s == "pending"
    ensures r.Some? ==> RunStatusName(r.value) == s
  {
    if s == "finished" then Some(Finished)
    else if s == "user_feedback" then Some(UserFeedback)
    else if s == "pending" then Some(Pending)
    else None
  }

  datatype StartRequest = StartRequest(humanRequest: string)

  datatype ResumeRequest = ResumeRequest(threadId: string, reviewAction: ReviewAction, humanComment: Option<string>)

  datatype GraphResponse = GraphResponse(threadId: string, runStatus: RunStatus, assistantResponse: Option<string>)

  /** `Literal["success", "error"]`. */
  datatype UploadStatus = UploadSuccess | UploadError

  datatype DocumentUploadResponse = DocumentUploadResponse(
    status: UploadStatus,
    filename: string,
    chunksCreated: Option<int>,
    errorMessage: Option<string>)

  datatype DocumentStatusResponse = DocumentStatusResponse(totalChunks: int, totalValidated: int, cacheStats: map<string, int>)

  /** Reading a string field of a request body: absent or not a string is a validation error. */
  function RequiredString(body: Metadata, key: string): (r: Result<string>)
    ensures r.Success? <==> key in body && body[key].Str?
    ensures r.Success? ==> body[key] == Str(r.value)
  {
    if key in body && body[key].Str? then Success(body[key].s) else Failure("field required: " + key)
  }

  /** An `Optional[str] = None` field: absent or null reads as `None`. */
  function OptionalString(body: Metadata, key: string): (r: Result<Option<string>>)
    ensures r.Success? <==> key !in body || body[key].Null? || body[key].Str?
    ensures r == Success(None) <==> key !in body || body[key].Null?
    ensures r.Success? && r.value.Some? ==> body[key] == Str(r.value.value)
  {
    if key !in body || body[key].Null? then Success(None)
    else if body[key].Str? then Success(Some(body[key].s))
    else Failure("not a string: " + key)
  }

  function ValidateStartRequest(body: Metadata): (r: Result<StartRequest>)
    ensures r.Success? <==> "human_request" in body && body["human_request"].Str?
    ensures r.Success? ==> body["human_request"] == Str(r.value.humanRequest)
  {
    var req :- RequiredString(body, "human_request");
    Success(StartRequest(req))
  }

  /** A resume body is accepted exactly when it has a string thread id, a review action
      spelled "approved" or "feedback", and a comment that is absent, null or a string. */
  function ValidateResumeRequest(body: Metadata): (r: Result<ResumeRequest>)
    ensures r.Success? <==>
      && "thread_id" in body && body["thread_id"].Str?
      && "review_action" in body && body["review_action"].Str?
      && ParseReviewAction(body["review_action"].s).Some?
      && ("human_comment" !in body || body["human_comment"].Null? || body["human_comment"].Str?)
    ensures r.Success? ==>
      && body["thread_id"] == Str(r.value.threadId)
      && ReviewActionName(r.value.reviewAction) == body["review_action"].s
      && (r.value.humanComment == None <==> "human_comment" !in body || body["human_comment"].Null?)
      && (r.value.humanComment.Some? ==> body["human_comment"] == Str(r.value.humanComment.value))
  {
    var thread :- RequiredString(body, "thread_id");
    var actionName :- RequiredString(body, "review_action");
    match ParseReviewAction(actionName)
    case None => Failure("review_action must be 'approved' or 'feedback'")
    case Some(action) =>
      var comment :- OptionalString(body, "human_comment");
      Success(ResumeRequest(thread, action, comment))
  }
}
