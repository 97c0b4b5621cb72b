/**
 * The results page's verdict: the percentage `score / total * 100`, whether
 * it is perfect (exactly 100) or good (at least 70), and the emoji and
 * heading chosen from those two flags in the order perfect, good, other.
 */
module Results {
  import opened Reals

  datatype Tier = Perfect | Great | KeepLearning

  /** A JavaScript number as the percentage can produce it: finite, +Infinity (s / 0, s > 0) or NaN (0 / 0). */
  datatype Percent = Finite(value: real) | PositiveInfinity | NotANumber

  /** `(score / total_questions) * 100`, with exact real arithmetic where it is finite. */
  function Percentage(score: nat, total: nat): (r: Percent)
    ensures r.Finite? <==> total > 0
    ensures r == NotANumber <==> total == 0 && score == 0
    ensures r.Finite? ==> r.value >= 0.0
  {
    if total > 0 then Finite(score as real / total as real * 100.0)
    else if score > 0 then PositiveInfinity
    else NotANumber
  }

  /** `percentage === 100` */
  predicate IsHundred(p: Percent) {
    p.Finite? && p.value == 100.0
  }

  /** `percentage >= 70` (false for NaN, true for +Infinity). */
  predicate AtLeastSeventy(p: Percent) {
    match p
    case Finite(v) => v >= 70.0
    case PositiveInfinity => true
    case NotANumber => false
  }

  /** The perfect test stated in integers. */
  predicate IsPerfect(score: nat, total: nat) {
    total > 0 && score == total
  }

  /** The good test stated in integers. */
  predicate IsGood(score: nat, total: nat) {
    if total == 0 then score > 0 else 100 * score >= 70 * total
  }

  /** The integer tests decide exactly what the percentage comparisons decide. */
  lemma IntegerTestsMatchPercentage(score: nat, total: nat)
    ensures IsPerfect(score, total) <==> IsHundred(Percentage(score, total))
    ensures IsGood(score, total) <==> AtLeastSeventy(Percentage(score, total))
  {
    if total > 0 {
      var d := total as real;
      var v := score as real / d;
      assert v * d == score as real;
      assert (v * 100.0 - 70.0) * d == 100.0 * score as real - 70.0 * d;
      ScaledSign(v * 100.0 - 70.0, d);
      assert (v * 100.0 - 100.0) * d == 100.0 * score as real - 100.0 * d;
      ScaledSign(v * 100.0 - 100.0, d);
      ScaledSign(100.0 - v * 100.0, d);
    }
  }

  /** A perfect score is always a good one, so the three tiers never overlap. */
  lemma PerfectIsGood(score: nat, total: nat)
    ensures IsHundred(Percentage(score, total)) ==> AtLeastSeventy(Percentage(score, total))
  {
    IntegerTestsMatchPercentage(score, total);
  }

  /** The tier the page shows, in priority order perfect, good, other. */
  function Classify(score: nat, total: nat): (t: Tier)
    ensures t == Perfect <==> IsHundred(Percentage(score, total))
    ensures t == Great <==> !IsHundred(Percentage(score, total)) && AtLeastSeventy(Percentage(score, total))
    ensures t == KeepLearning <==> !AtLeastSeventy(Percentage(score, total))
  {
    IntegerTestsMatchPercentage(score, total);
    if IsPerfect(score, total) then Perfect
    else if IsGood(score, total) then Great
    else KeepLearning
  }

  /** For a quiz with questions, perfect means every answer right and good means at least 70 percent. */
  lemma ClassifyInIntegers(score: nat, total: nat)
    requires total > 0
    ensures Classify(score, total) == Perfect <==> score == total
    ensures Classify(score, total) != KeepLearning <==> 10 * score >= 7 * total
  {
  }

  function HeadingOf(t: Tier): string {
    match t
    case Perfect => "Perfect Score!"
    case Great => "Great Job!"
    case KeepLearning => "Keep Learning!"
  }

  function EmojiOf(t: Tier): string {
    match t
    case Perfect => "🎉"
    case Great => "😊"
    case KeepLearning => "📚"
  }

  /** The heading, chosen by its own conditional chain. */
  function Heading(score: nat, total: nat): (r: string)
    ensures r == "Perfect Score!" <==> IsPerfect(score, total)
    ensures r == "Keep Learning!" <==> !IsGood(score, total)
  {
    IntegerTestsMatchPercentage(score, total);
    var p := Percentage(score, total);
    if IsHundred(p) then "Perfect Score!" else if AtLeastSeventy(p) then "Great Job!" else "Keep Learning!"
  }

  /** The emoji, chosen by its own conditional chain. */
  function Emoji(score: nat, total: nat): (r: string)
    ensures r == "🎉" <==> IsPerfect(score, total)
    ensures r == "📚" <==> !IsGood(score, total)
  {
    IntegerTestsMatchPercentage(score, total);
    var p := Percentage(score, total);
    if IsHundred(p) then "🎉" else if AtLeastSeventy(p) then "😊" else "📚"
  }

  /** Heading and emoji always show the same tier. */
  lemma HeadingAndEmojiAgree(score: nat, total: nat)
    ensures Heading(score, total) == HeadingOf(Classify(score, total))
    ensures Emoji(score, total) == EmojiOf(Classify(score, total))
  {
  }
}
