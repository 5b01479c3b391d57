/** The in-memory log of human review decisions (backend/app/validation_analytics.py):
    events are appended and cleared in place; the statistics and the recent-feedback list
    are computed from the log. Timestamps are integers (their ISO rendering is not
    modelled); floating-point numbers are reals. */
module ValidationAnalytics {
  import opened Wrappers
  import opened Values
  import opened Text
  import opened Sorting

  /** ValidationEvent; `action` is "approved", "feedback" or "rejected". */
  datatype ValidationEvent = ValidationEvent(
    threadId: string,
    query: string,
    response: string,
    action: string,
    timestamp: int,
    feedbackComment: Option<string>,
    sourceCount: int,
    retrievalConfidence: real,
    processingTimeMs: Option<real>)

  const Approved: string := "approved"
  const Feedback: string := "feedback"

  // ---------------------------------------------------------------------------
  // get_simple_stats

  /** `sum(1 for e in events if e.action == action)`. */
  function CountAction(events: seq<ValidationEvent>, action: string): (n: nat)
    ensures n <= |events|
  {
    if |events| == 0 then 0
    else CountAction(events[..|events| - 1], action) + (if events[|events| - 1].action == action then 1 else 0)
  }

  /** Python's `sum` over reals. */
  function RealSum(xs: seq<real>): real {
    if |xs| == 0 then 0.0 else RealSum(xs[..|xs| - 1]) + xs[|xs| - 1]
  }

  function Confidences(events: seq<ValidationEvent>): (cs: seq<real>)
    ensures |cs| == |events| && forall i :: 0 <= i < |events| ==> cs[i] == events[i].retrievalConfidence
  {
    seq(|events|, i requires 0 <= i < |events| => events[i].retrievalConfidence)
  }

  /** The processing times of the events that have one, in log order. */
  function ProcessingTimes(events: seq<ValidationEvent>): (ts: seq<real>)
    ensures |ts| <= |events|
  {
    if |events| == 0 then []
    else
      var last := events[|events| - 1];
      ProcessingTimes(events[..|events| - 1]) + (if last.processingTimeMs.Some? then [last.processingTimeMs.value] else [])
  }

  /** `sum(xs) / len(xs) if xs else 0.0`. */
  function Average(xs: seq<real>): real {
    if |xs| == 0 then 0.0 else RealSum(xs) / |xs| as real
  }

  /** The two shapes of get_simple_stats' answer. */
  datatype Stats =
    | EmptyLog(totalEvents: nat, approvalRate: real, feedbackRate: real, avgConfidence: real, message: string)
    | Summary(totalEvents: nat, approvalRate: real, feedbackRate: real, avgConfidence: real,
              avgProcessingTimeMs: real, recentEvents: nat)

  const NoEventsMessage: string := "No validation events recorded yet"

  /** An approved event and a feedback event are two different events, so together they
      are at most all of them. */
  lemma {:induction false} CountsBounded(events: seq<ValidationEvent>)
    ensures CountAction(events, Approved) + CountAction(events, Feedback) <= |events|
  {
    if |events| > 0 {
      CountsBounded(events[..|events| - 1]);
    }
  }

  /** get_simple_stats: an empty log reports zeros and a message; otherwise the log's
      size, the averages and `recent_events`, the log length capped at 10. The rates are
      stated by StatsRates. */
  function StatsOf(events: seq<ValidationEvent>): (s: Stats)
    ensures s.totalEvents == |events|
    ensures s.EmptyLog? <==> |events| == 0
    ensures s.EmptyLog? ==> s.approvalRate == 0.0 && s.feedbackRate == 0.0 && s.avgConfidence == 0.0 && s.message == NoEventsMessage
    ensures s.Summary? ==>
      && s.recentEvents == Min(|events|, 10)
      && s.avgProcessingTimeMs == Average(ProcessingTimes(events))
      && s.avgConfidence == Average(Confidences(events))
  {
    if |events| == 0 then EmptyLog(0, 0.0, 0.0, 0.0, NoEventsMessage)
    else
      Summary(|events|, Share(CountAction(events, Approved), |events|), Share(CountAction(events, Feedback), |events|),
              Average(Confidences(events)), Average(ProcessingTimes(events)), Min(|events|, 10))
  }

  /** The approval and feedback rates are the shares of approved and of feedback events
      in the log; neither is negative and together they never exceed one. */
  lemma StatsRates(events: seq<ValidationEvent>)
    requires |events| > 0
    ensures StatsOf(events).approvalRate == Share(CountAction(events, Approved), |events|)
    ensures StatsOf(events).feedbackRate == Share(CountAction(events, Feedback), |events|)
    ensures 0.0 <= StatsOf(events).approvalRate && 0.0 <= StatsOf(events).feedbackRate
    ensures StatsOf(events).approvalRate + StatsOf(events).feedbackRate <= 1.0
  {
    CountsBounded(events);
    SharesBounded(CountAction(events, Approved), CountAction(events, Feedback), |events|);
  }

  /** `count / total` as a real. */
  function Share(count: nat, total: nat): real
    requires total > 0
  {
    count as real / total as real
  }

  /** A share times the total gives back the count. */
  lemma ShareTimesTotal(count: nat, total: nat)
    requires total > 0
    ensures Share(count, total) * total as real == count as real
  {
  }

  /** Shares of two disjoint parts of a total are non-negative and add up to at most one. */
  lemma SharesBounded(a: nat, b: nat, n: nat)
    requires a + b <= n && n > 0
    ensures 0.0 <= Share(a, n) && 0.0 <= Share(b, n) && Share(a, n) + Share(b, n) <= 1.0
  {
    var ar, br, nr := a as real, b as real, n as real;
    QuotientNonNegative(ar, nr);
    QuotientNonNegative(br, nr);
    QuotientSum(ar, br, nr);
    QuotientAtMostOne(ar + br, nr);
  }

  lemma QuotientNonNegative(a: real, n: real)
    requires 0.0 <= a && 0.0 < n
    ensures 0.0 <= a / n
  {
  }

  lemma QuotientSum(a: real, b: real, n: real)
    requires 0.0 < n
    ensures a / n + b / n == (a + b) / n
  {
  }

  lemma QuotientAtMostOne(a: real, n: real)
    requires a <= n && 0.0 < n
    ensures a / n <= 1.0
  {
  }

  /** Only events that carry a processing time enter its average: appending an event
      without one leaves the list of times as it was, one with a time extends it. */
  lemma ProcessingTimesAppend(events: seq<ValidationEvent>, e: ValidationEvent)
    ensures ProcessingTimes(events + [e]) ==
      ProcessingTimes(events) + (if e.processingTimeMs.Some? then [e.processingTimeMs.value] else [])
  {
    assert (events + [e])[..|events|] == events;
  }

  lemma {:induction false} RealSumBounds(xs: seq<real>, lo: real, hi: real)
    requires forall i :: 0 <= i < |xs| ==> lo <= xs[i] <= hi
    ensures |xs| as real * lo <= RealSum(xs) <= |xs| as real * hi
  {
    if |xs| > 0 {
      RealSumBounds(xs[..|xs| - 1], lo, hi);
    }
  }

  /** An average lies between the smallest and the largest value averaged. */
  lemma AverageBounds(xs: seq<real>, lo: real, hi: real)
    requires |xs| > 0
    requires forall i :: 0 <= i < |xs| ==> lo <= xs[i] <= hi
    ensures lo <= Average(xs) <= hi
  {
    RealSumBounds(xs, lo, hi);
    var n := |xs| as real;
    assert Average(xs) * n == RealSum(xs);
  }

  // ---------------------------------------------------------------------------
  // get_recent_feedback

  /** `e.action == 'feedback' and e.feedback_comment`: a comment that is present and non-empty. */
  predicate IsCommentedFeedback(e: ValidationEvent) {
    e.action == Feedback && e.feedbackComment.Some? && e.feedbackComment.value != ""
  }

  function CommentedFeedback(events: seq<ValidationEvent>): (r: seq<ValidationEvent>)
    ensures forall i :: 0 <= i < |r| ==> IsCommentedFeedback(r[i]) && r[i] in events
    ensures forall i :: 0 <= i < |events| && IsCommentedFeedback(events[i]) ==> events[i] in r
  {
    if |events| == 0 then []
    else
      var before := CommentedFeedback(events[..|events| - 1]);
      assert forall x :: x in events[..|events| - 1] ==> x in events;
      before + (if IsCommentedFeedback(events[|events| - 1]) then [events[|events| - 1]] else [])
  }

  /** The key of a newest-first sort. */
  function Newest(e: ValidationEvent): real {
    -(e.timestamp as real)
  }

  /** Python's `s[:limit]`; a negative limit counts from the end. */
  function SliceTo<T>(s: seq<T>, limit: int): (r: seq<T>)
    ensures limit >= 0 ==> |r| == Min(limit, |s|)
    ensures limit < 0 ==> |r| == (if |s| + limit > 0 then |s| + limit else 0)
    ensures r == s[..|r|]
  {
    if limit >= 0 then s[..Min(limit, |s|)]
    else if |s| + limit > 0 then s[..|s| + limit]
    else []
  }

  /** The events get_recent_feedback reports, newest first. */
  function RecentFeedbackEvents(events: seq<ValidationEvent>, limit: int): seq<ValidationEvent> {
    SliceTo(SortBy(CommentedFeedback(events), Newest), limit)
  }

  /** One entry of get_recent_feedback's answer. */
  datatype FeedbackItem = FeedbackItem(queryPreview: string, feedback: string, confidence: real, timestamp: int)

  function FeedbackItemOf(e: ValidationEvent): FeedbackItem {
    FeedbackItem(Preview(e.query, 100), e.feedbackComment.GetOr(""), e.retrievalConfidence, e.timestamp)
  }

  function RecentFeedback(events: seq<ValidationEvent>, limit: int): (items: seq<FeedbackItem>)
    ensures |items| == |RecentFeedbackEvents(events, limit)|
    ensures forall i :: 0 <= i < |items| ==> items[i] == FeedbackItemOf(RecentFeedbackEvents(events, limit)[i])
  {
    var es := RecentFeedbackEvents(events, limit);
    seq(|es|, i requires 0 <= i < |es| => FeedbackItemOf(es[i]))
  }

  /** get_recent_feedback reports at most `limit` commented feedback events of the log,
      newest first, events with the same timestamp in log order; with a limit at least
      their number, it reports all of them. */
  lemma RecentFeedbackSpec(events: seq<ValidationEvent>, limit: int)
    ensures var r := RecentFeedbackEvents(events, limit);
      && (limit >= 0 ==> |r| <= limit)
      && (forall i :: 0 <= i < |r| ==> IsCommentedFeedback(r[i]) && r[i] in events)
      && (forall i, j :: 0 <= i < j < |r| ==> r[i].timestamp >= r[j].timestamp)
    ensures limit >= |CommentedFeedback(events)| ==>
      multiset(RecentFeedbackEvents(events, limit)) == multiset(CommentedFeedback(events))
  {
    var f := CommentedFeedback(events);
    var sorted := SortBy(f, Newest);
    SortSpec(f, Newest);
    var r := RecentFeedbackEvents(events, limit);
    forall i | 0 <= i < |r| ensures IsCommentedFeedback(r[i]) && r[i] in events {
      assert r[i] == sorted[i];
      assert sorted[i] in multiset(f);
    }
    forall i, j | 0 <= i < j < |r| ensures r[i].timestamp >= r[j].timestamp {
      assert r[i] == sorted[i] && r[j] == sorted[j];
      assert Newest(sorted[i]) <= Newest(sorted[j]);
    }
    if limit >= |f| {
      assert r == sorted;
    }
  }

  /** Feedback events with the same timestamp are reported in the order they were logged. */
  lemma RecentFeedbackStable(events: seq<ValidationEvent>, t: int)
    ensures WithKey(SortBy(CommentedFeedback(events), Newest), Newest, -(t as real)) ==
      WithKey(CommentedFeedback(events), Newest, -(t as real))
  {
    SortStable(CommentedFeedback(events), Newest, -(t as real));
  }

  /** `len(sources) if sources else 0`. */
  function SourceCount(sources: Option<seq<Metadata>>): nat {
    match sources
    case None => 0
    case Some(s) => |s|
  }

  // ---------------------------------------------------------------------------
  // The log

  class Analytics {
    var events: seq<ValidationEvent>

    /** ValidationAnalytics(): an empty log. */
    constructor ()
      ensures events == []
    {
      events := [];
    }

    /** record_validation_event: exactly one event, with the given fields and the current
        time, is appended; earlier events stay as they were. */
    method RecordValidationEvent(threadId: string, query: string, response: string, action: string,
                                 feedbackComment: Option<string>, sourceCount: int, retrievalConfidence: real,
                                 processingTimeMs: Option<real>, now: int)
      modifies this
      ensures events == old(events) + [ValidationEvent(threadId, query, response, action, now, feedbackComment,
                                                       sourceCount, retrievalConfidence, processingTimeMs)]
    {
      var event := ValidationEvent(threadId, query, response, action, now, feedbackComment,
                                   sourceCount, retrievalConfidence, processingTimeMs);
      events := events + [event];
    }

    /** get_simple_stats. */
    method GetSimpleStats() returns (s: Stats)
      ensures s == StatsOf(events)
    {
      s := StatsOf(events);
    }

    /** get_recent_feedback. */
    method GetRecentFeedback(limit: int) returns (items: seq<FeedbackItem>)
      ensures items == RecentFeedback(events, limit)
    {
      items := RecentFeedback(events, limit);
    }

    /** clear_events: the log is emptied. */
    method ClearEvents()
      modifies this
      ensures events == []
    {
      events := [];
    }
  }

  /** record_approval: an "approved" event counting the sources (0 when there are none). */
  method RecordApproval(analytics: Analytics, threadId: string, query: string, response: string,
                        sources: Option<seq<Metadata>>, confidence: real, now: int)
    modifies analytics
    ensures analytics.events == old(analytics.events) +
      [ValidationEvent(threadId, query, response, Approved, now, None, SourceCount(sources), confidence, None)]
  {
    analytics.RecordValidationEvent(threadId, query, response, Approved, None, SourceCount(sources), confidence, None, now);
  }

  /** record_feedback: a "feedback" event carrying the comment. */
  method RecordFeedback(analytics: Analytics, threadId: string, query: string, response: string,
                        feedbackComment: string, sources: Option<seq<Metadata>>, confidence: real, now: int)
    modifies analytics
    ensures analytics.events == old(analytics.events) +
      [ValidationEvent(threadId, query, response, Feedback, now, Some(feedbackComment), SourceCount(sources), confidence, None)]
  {
    analytics.RecordValidationEvent(threadId, query, response, Feedback, Some(feedbackComment), SourceCount(sources),
                                    confidence, None, now);
  }
}
