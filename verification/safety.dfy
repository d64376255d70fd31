/**
 * The bias filter applied to feedback statements: a hate-speech classifier
 * labels every statement "hate" or "nothate"; statements are split into the
 * safe and the flagged ones in their original order, and any other label
 * aborts the whole call. The classifier's labels are an input, matched to
 * the statements by position.
 */
module Safety {
  import opened Wrappers

  const Hate := "hate"
  const NotHate := "nothate"

  /** `{"safe_feedback": ..., "flagged_feedback": ...}` */
  datatype BiasSplit = BiasSplit(safe: seq<string>, flagged: seq<string>)

  /** The exception raised for a label the filter does not know: the position and the label. */
  datatype UnknownLabel = UnknownLabel(index: nat, verdict: string)

  predicate Known(verdict: string) {
    verdict == Hate || verdict == NotHate
  }

  /** The statements whose label is `want`, in their original order. */
  function Select(feedbacks: seq<string>, labels: seq<string>, want: string): (r: seq<string>)
    requires |labels| == |feedbacks|
    ensures |r| <= |feedbacks|
  {
    if |feedbacks| == 0 then []
    else
      var n := |feedbacks| - 1;
      if labels[n] == want then Select(feedbacks[..n], labels[..n], want) + [feedbacks[n]]
      else Select(feedbacks[..n], labels[..n], want)
  }

  /** The position of the first unknown label, if any. */
  function FirstUnknown(labels: seq<string>): (r: Option<nat>)
    ensures r.None? <==> forall k :: 0 <= k < |labels| ==> Known(labels[k])
    ensures r.Some? ==> r.value < |labels| && !Known(labels[r.value])
                        && forall k :: 0 <= k < r.value ==> Known(labels[k])
  {
    if |labels| == 0 then None
    else if !Known(labels[0]) then Some(0)
    else match FirstUnknown(labels[1..])
      case None => None
      case Some(k) => Some(k + 1)
  }

  /** What `filter_feedback_for_bias` returns, or the exception it raises. */
  function BiasFilter(feedbacks: seq<string>, labels: seq<string>): Result<BiasSplit, UnknownLabel>
    requires |labels| == |feedbacks|
  {
    match FirstUnknown(labels)
    case Some(k) => Failure(UnknownLabel(k, labels[k]))
    case None => Success(BiasSplit(Select(feedbacks, labels, NotHate), Select(feedbacks, labels, Hate)))
  }

  /** A statement is selected exactly when some position holds it with the wanted label. */
  lemma {:induction false} SelectMembers(feedbacks: seq<string>, labels: seq<string>, want: string, x: string)
    requires |labels| == |feedbacks|
    ensures x in Select(feedbacks, labels, want) <==>
              exists k :: 0 <= k < |feedbacks| && feedbacks[k] == x && labels[k] == want
  {
    if |feedbacks| > 0 {
      var n := |feedbacks| - 1;
      SelectMembers(feedbacks[..n], labels[..n], want, x);
      if exists k :: 0 <= k < |feedbacks| && feedbacks[k] == x && labels[k] == want {
        var k :| 0 <= k < |feedbacks| && feedbacks[k] == x && labels[k] == want;
        if k < n {
          assert feedbacks[..n][k] == x && labels[..n][k] == want;
        }
      }
      if exists k :: 0 <= k < n && feedbacks[..n][k] == x && labels[..n][k] == want {
        var k :| 0 <= k < n && feedbacks[..n][k] == x && labels[..n][k] == want;
        assert feedbacks[k] == x && labels[k] == want;
      }
    }
  }

  /** With every label known, the two selections together hold every statement exactly once. */
  lemma {:induction false} SelectPartition(feedbacks: seq<string>, labels: seq<string>)
    requires |labels| == |feedbacks|
    requires forall k :: 0 <= k < |labels| ==> Known(labels[k])
    ensures multiset(Select(feedbacks, labels, NotHate)) + multiset(Select(feedbacks, labels, Hate))
              == multiset(feedbacks)
  {
    if |feedbacks| > 0 {
      var n := |feedbacks| - 1;
      var init := feedbacks[..n];
      var last := feedbacks[n];
      SelectPartition(init, labels[..n]);
      assert feedbacks == init + [last];
      assert multiset(feedbacks) == multiset(init) + multiset{last};
      if labels[n] == Hate {
        assert Select(feedbacks, labels, Hate) == Select(init, labels[..n], Hate) + [last];
        assert Select(feedbacks, labels, NotHate) == Select(init, labels[..n], NotHate);
      } else {
        assert Select(feedbacks, labels, NotHate) == Select(init, labels[..n], NotHate) + [last];
        assert Select(feedbacks, labels, Hate) == Select(init, labels[..n], Hate);
      }
    }
  }

  /** The selections of a prefix are prefixes of the selections: each list keeps the input order. */
  lemma {:induction false} SelectPrefix(feedbacks: seq<string>, labels: seq<string>, want: string, m: nat)
    requires |labels| == |feedbacks| && m <= |feedbacks|
    ensures Select(feedbacks[..m], labels[..m], want) <= Select(feedbacks, labels, want)
  {
    if m < |feedbacks| {
      var n := |feedbacks| - 1;
      SelectPrefix(feedbacks[..n], labels[..n], want, m);
      assert feedbacks[..n][..m] == feedbacks[..m];
      assert labels[..n][..m] == labels[..m];
    } else {
      assert feedbacks[..m] == feedbacks && labels[..m] == labels;
    }
  }

  /**
   * The filter either splits every statement into exactly one of the two
   * lists, by its label, or reports the first position whose label is
   * neither "hate" nor "nothate".
   */
  lemma BiasFilterCorrect(feedbacks: seq<string>, labels: seq<string>)
    requires |labels| == |feedbacks|
    ensures BiasFilter(feedbacks, labels).Success? <==> forall k :: 0 <= k < |labels| ==> Known(labels[k])
    ensures BiasFilter(feedbacks, labels).Success? ==>
              var split := BiasFilter(feedbacks, labels).value;
              && |split.safe| + |split.flagged| == |feedbacks|
              && multiset(split.safe) + multiset(split.flagged) == multiset(feedbacks)
              && (forall x :: x in split.safe <==>
                    exists k :: 0 <= k < |feedbacks| && feedbacks[k] == x && labels[k] == NotHate)
              && (forall x :: x in split.flagged <==>
                    exists k :: 0 <= k < |feedbacks| && feedbacks[k] == x && labels[k] == Hate)
    ensures BiasFilter(feedbacks, labels).Failure? ==>
              var e := BiasFilter(feedbacks, labels).error;
              e.index < |labels| && e.verdict == labels[e.index] && !Known(e.verdict)
              && forall k :: 0 <= k < e.index ==> Known(labels[k])
  {
    if BiasFilter(feedbacks, labels).Success? {
      var split := BiasFilter(feedbacks, labels).value;
      SelectPartition(feedbacks, labels);
      assert |multiset(split.safe) + multiset(split.flagged)| == |multiset(feedbacks)|;
      forall x ensures x in split.safe <==>
                         exists k :: 0 <= k < |feedbacks| && feedbacks[k] == x && labels[k] == NotHate {
        SelectMembers(feedbacks, labels, NotHate, x);
      }
      forall x ensures x in split.flagged <==>
                         exists k :: 0 <= k < |feedbacks| && feedbacks[k] == x && labels[k] == Hate {
        SelectMembers(feedbacks, labels, Hate, x);
      }
    }
  }

  /**
   * `filter_feedback_for_bias`: one pass over the classifier's results,
   * appending each statement to the list its label names.
   */
  method FilterFeedbackForBias(feedbacks: seq<string>, labels: seq<string>)
    returns (r: Result<BiasSplit, UnknownLabel>)
    requires |labels| == |feedbacks|
    ensures r == BiasFilter(feedbacks, labels)
  {
    var safeFeedback: seq<string> := [];
    var flaggedFeedback: seq<string> := [];
    var idx := 0;
    while idx < |labels|
      invariant 0 <= idx <= |labels|
      invariant forall k :: 0 <= k < idx ==> Known(labels[k])
      invariant safeFeedback == Select(feedbacks[..idx], labels[..idx], NotHate)
      invariant flaggedFeedback == Select(feedbacks[..idx], labels[..idx], Hate)
    {
      var verdict := labels[idx];
      assert feedbacks[..idx + 1][..idx] == feedbacks[..idx];
      assert labels[..idx + 1][..idx] == labels[..idx];
      if verdict == Hate {
        flaggedFeedback := flaggedFeedback + [feedbacks[idx]];
      } else if verdict == NotHate {
        safeFeedback := safeFeedback + [feedbacks[idx]];
      } else {
        assert FirstUnknown(labels) == Some(idx);
        return Failure(UnknownLabel(idx, verdict));
      }
      idx := idx + 1;
    }
    assert feedbacks[..idx] == feedbacks && labels[..idx] == labels;
    r := Success(BiasSplit(safeFeedback, flaggedFeedback));
  }
}
