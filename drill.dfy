/**
 * The pronunciation drill on the practice page: each new transcript is scored
 * against the current phrase, marks the attempt correct or incorrect and bumps
 * the score on a pass; a delayed continuation then clears the feedback and
 * either moves to the next phrase or, after the last one, reports the total.
 * Each scheduled continuation is kept, with the values its closure captured,
 * in a first-in first-out queue; `Advance` runs the oldest one.
 */
module Drill {
  import opened Wrappers
  import opened Scoring

  datatype Feedback = Correct | Incorrect

  /** What a scheduled continuation captured: the phrase index, the score before the attempt, and the verdict. */
  datatype Continuation = Continuation(index: nat, score: nat, passed: bool)

  function Bonus(passed: bool): nat {
    if passed then 1 else 0
  }

  /** The number of passed attempts in a history of verdicts. */
  function CountPassed(outcomes: seq<bool>): (n: nat)
    ensures n <= |outcomes|
  {
    if outcomes == [] then 0 else CountPassed(outcomes[..|outcomes| - 1]) + Bonus(outcomes[|outcomes| - 1])
  }

  /**
   * Every scheduled continuation was captured on the current phrase or on the
   * one before it, and they are queued in phrase order.
   */
  predicate QueueFits(pending: seq<Continuation>, index: nat) {
    (forall k :: 0 <= k < |pending| ==> pending[k].index == index || pending[k].index + 1 == index) &&
    (forall j, k :: 0 <= j < k < |pending| ==> pending[j].index <= pending[k].index)
  }

  /**
   * The k-th of the |pending| newest attempts scheduled pending[k], and its
   * captured score plus its bonus is the number of passes up to that attempt.
   */
  predicate ReportsFit(pending: seq<Continuation>, outcomes: seq<bool>) {
    |pending| <= |outcomes| &&
    forall k :: 0 <= k < |pending| ==>
      pending[k].score + Bonus(pending[k].passed) == CountPassed(outcomes[..|outcomes| - |pending| + k + 1])
  }

  /**
   * The drill's invariant over its values: the index stays below the number
   * of phrases, the score counts the passed attempts, the queue fits the
   * index, and each continuation will report the number of passes up to
   * and including the attempt that scheduled it.
   */
  predicate SessionInv(count: nat, index: nat, score: nat, pending: seq<Continuation>, outcomes: seq<bool>) {
    (count == 0 ==> index == 0 && pending == []) &&
    (count > 0 ==> index < count) &&
    score == CountPassed(outcomes) &&
    QueueFits(pending, index) &&
    ReportsFit(pending, outcomes)
  }

  /** Scoring an attempt on the current phrase keeps the invariant. */
  lemma AttemptKeepsInv(count: nat, index: nat, score: nat, pending: seq<Continuation>, outcomes: seq<bool>, passed: bool)
    requires SessionInv(count, index, score, pending, outcomes) && index < count
    ensures SessionInv(count, index, score + Bonus(passed),
                       pending + [Continuation(index, score, passed)], outcomes + [passed])
  {
    var o := outcomes + [passed];
    var q := pending + [Continuation(index, score, passed)];
    assert o[..|outcomes|] == outcomes;
    assert o[..|o|] == o;
    forall k | 0 <= k < |q|
      ensures q[k].score + Bonus(q[k].passed) == CountPassed(o[..|o| - |q| + k + 1])
    {
      if k < |pending| {
        var m := |outcomes| - |pending| + k + 1;
        assert o[..m] == outcomes[..m];
      }
    }
  }

  /** Running the oldest continuation keeps the invariant, and the index never moves back. */
  lemma FireKeepsInv(count: nat, index: nat, score: nat, pending: seq<Continuation>, outcomes: seq<bool>)
    requires SessionInv(count, index, score, pending, outcomes) && pending != []
    ensures var c := pending[0];
      var next := if c.index < count - 1 then c.index + 1 else index;
      && SessionInv(count, next, score, pending[1..], outcomes)
      && (next == index || next == index + 1)
      && c.score + Bonus(c.passed) == CountPassed(outcomes[..|outcomes| - |pending| + 1])
      && (|pending| == 1 ==> c.score + Bonus(c.passed) == score)
  {
    var c := pending[0];
    if c.index < count - 1 {
      forall k | 0 <= k < |pending[1..]|
        ensures pending[1..][k].index == c.index + 1 || pending[1..][k].index + 1 == c.index + 1
      {
        assert pending[1..][k] == pending[k + 1];
      }
    }
    forall k | 0 <= k < |pending[1..]|
      ensures pending[1..][k].score + Bonus(pending[1..][k].passed)
              == CountPassed(outcomes[..|outcomes| - |pending[1..]| + k + 1])
    {
      assert pending[1..][k] == pending[k + 1];
    }
    assert outcomes[..|outcomes|] == outcomes;
  }

  class DrillSession {
    const phrases: seq<string>
    var currentIndex: nat
    var score: nat
    var feedback: Option<Feedback>
    var transcript: string
    var pending: seq<Continuation>
    /** The total announced by the "Practice Complete!" notification, once there is one. */
    var report: Option<nat>
    /** Verdicts of all scored attempts, oldest first. */
    ghost var outcomes: seq<bool>

    ghost predicate Valid()
      reads this
    {
      SessionInv(|phrases|, currentIndex, score, pending, outcomes)
    }

    /** The page once its phrases have been fetched. */
    constructor (fetched: seq<string>)
      ensures Valid() && phrases == fetched
      ensures currentIndex == 0 && score == 0 && feedback == None && transcript == []
      ensures pending == [] && report == None && outcomes == []
    {
      phrases := fetched;
      currentIndex, score, feedback, transcript := 0, 0, None, [];
      pending, report, outcomes := [], None, [];
    }

    /**
     * The recogniser delivers a transcript. The effect runs only when the
     * transcript changed, and scores it only when it is non-empty and there
     * is a current phrase.
     */
    method OnTranscript(t: string)
      requires Valid()
      modifies this`transcript, this`feedback, this`pending, this`score, this`outcomes
      ensures Valid()
      ensures transcript == t && currentIndex == old(currentIndex) && report == old(report)
      ensures !(t != old(transcript) && t != [] && old(currentIndex) < |phrases|) ==>
        score == old(score) && feedback == old(feedback) && pending == old(pending) && outcomes == old(outcomes)
      ensures t != old(transcript) && t != [] && old(currentIndex) < |phrases| ==>
        var passed := Passes(Similarity(t, phrases[old(currentIndex)]));
        && feedback == Some(if passed then Correct else Incorrect)
        && score == old(score) + Bonus(passed)
        && pending == old(pending) + [Continuation(old(currentIndex), old(score), passed)]
        && outcomes == old(outcomes) + [passed]
    {
      var changed := t != transcript;
      transcript := t;
      if changed && t != [] && currentIndex < |phrases| {
        ScoreAttempt(t);
      }
    }

    /** Score a transcript against the current phrase and schedule its continuation. */
    method ScoreAttempt(t: string)
      requires Valid() && currentIndex < |phrases|
      modifies this`feedback, this`pending, this`score, this`outcomes
      ensures Valid()
      ensures var passed := Passes(Similarity(t, phrases[currentIndex]));
        && feedback == Some(if passed then Correct else Incorrect)
        && score == old(score) + Bonus(passed)
        && pending == old(pending) + [Continuation(currentIndex, old(score), passed)]
        && outcomes == old(outcomes) + [passed]
    {
      var similarity := CalculateSimilarity(t, phrases[currentIndex]);
      var passed := Passes(similarity);
      var c := Continuation(currentIndex, score, passed);
      AttemptKeepsInv(|phrases|, currentIndex, score, pending, outcomes, passed);
      feedback := Some(if passed then Correct else Incorrect);
      pending := pending + [c];
      score := score + Bonus(passed);
      outcomes := outcomes + [passed];
    }

    /** The oldest scheduled continuation fires. */
    method Advance()
      requires Valid()
      modifies this
      ensures Valid()
      ensures score == old(score) && outcomes == old(outcomes) && transcript == old(transcript)
      ensures old(pending) == [] ==>
        currentIndex == old(currentIndex) && feedback == old(feedback) && pending == [] && report == old(report)
      ensures old(pending) != [] ==>
        var c := old(pending)[0];
        && pending == old(pending)[1..]
        && feedback == None
        && (c.index < |phrases| - 1 ==> currentIndex == c.index + 1 && report == old(report))
        && (c.index >= |phrases| - 1 ==> currentIndex == old(currentIndex) && report == Some(c.score + Bonus(c.passed)))
      ensures currentIndex == old(currentIndex) || currentIndex == old(currentIndex) + 1
      ensures old(pending) != [] && old(pending)[0].index >= |phrases| - 1 ==>
        report == Some(CountPassed(outcomes[..|outcomes| - |old(pending)| + 1]))
      ensures |old(pending)| == 1 && old(pending)[0].index >= |phrases| - 1 ==>
        report == Some(score) && score == CountPassed(outcomes)
    {
      if pending == [] {
        return;
      }
      var c := pending[0];
      FireKeepsInv(|phrases|, currentIndex, score, pending, outcomes);
      pending := pending[1..];
      feedback := None;
      if c.index < |phrases| - 1 {
        currentIndex := c.index + 1;
      } else {
        report := Some(c.score + Bonus(c.passed));
      }
    }
  }
}
