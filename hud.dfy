/**
 * The pure display helpers of the heads-up display: the zero-padded score,
 * the milestone banner condition, the difficulty label and the action of the
 * pause/resume button.
 */
module HUD {
  import opened Decimal
  import GameLoop

  const SCORE_WIDTH: nat := 6
  const MILESTONE_INTERVAL: nat := 500

  /** String.prototype.padStart with a one-character pad string. */
  function PadStart(s: string, targetLength: nat, pad: char): (r: string)
    ensures |r| == if |s| >= targetLength then |s| else targetLength
    ensures r[|r| - |s|..] == s
    ensures forall i :: 0 <= i < |r| - |s| ==> r[i] == pad
  {
    if |s| >= targetLength then s else seq(targetLength - |s|, _ => pad) + s
  }

  /** score.toString().padStart(6, '0') */
  function FormatScore(score: nat): string
  {
    PadStart(NatToString(score), SCORE_WIDTH, '0')
  }

  /** The padded text is the digits of the score behind enough zeros to reach six. */
  lemma FormatScoreIsZerosThenDigits(score: nat)
    ensures var d := NatToString(score);
            var k := if |d| >= SCORE_WIDTH then 0 else SCORE_WIDTH - |d|;
            FormatScore(score) == Zeros(k) + d
  {
    var d := NatToString(score);
    var r := FormatScore(score);
    var k := if |d| >= SCORE_WIDTH then 0 else SCORE_WIDTH - |d|;
    assert r == r[..k] + r[k..];
    assert r[..k] == Zeros(k);
  }

  lemma FormatScoreLength(score: nat)
    ensures var d := NatToString(score);
            |FormatScore(score)| == if |d| >= SCORE_WIDTH then |d| else SCORE_WIDTH
    ensures |NatToString(score)| >= SCORE_WIDTH ==> FormatScore(score) == NatToString(score)
  {
  }

  /** Stripping the padding gives back the plain decimal text of the score. */
  lemma FormatScoreStrip(score: nat)
    ensures StripLeadingZeros(FormatScore(score)) == NatToString(score)
  {
    var d := NatToString(score);
    FormatScoreIsZerosThenDigits(score);
    StripZerosOfNatToString(if |d| >= SCORE_WIDTH then 0 else SCORE_WIDTH - |d|, score);
  }

  /** The padded text is all digits and reads back as the score. */
  lemma FormatScoreValue(score: nat)
    ensures AllDigits(FormatScore(score))
    ensures ParseDigits(FormatScore(score)) == score
  {
    var d := NatToString(score);
    FormatScoreIsZerosThenDigits(score);
    ParseLeadingZeros(if |d| >= SCORE_WIDTH then 0 else SCORE_WIDTH - |d|, d);
    ParseNatToString(score);
  }

  lemma FormatScoreInjective(a: nat, b: nat)
    requires FormatScore(a) == FormatScore(b)
    ensures a == b
  {
    FormatScoreValue(a);
    FormatScoreValue(b);
  }

  /** The condition of the milestone banner. */
  predicate Milestone(score: nat, isGameRunning: bool)
  {
    score > 0 && score % MILESTONE_INTERVAL == 0 && isGameRunning
  }

  /** The banner shows exactly at the positive multiples of 500 while running. */
  lemma MilestoneIffPositiveMultiple(score: nat, isGameRunning: bool)
    ensures Milestone(score, isGameRunning) <==>
            isGameRunning && exists k: nat :: k >= 1 && score == 500 * k
  {
    if Milestone(score, isGameRunning) {
      assert score == 500 * (score / 500);
    }
    if isGameRunning && exists k: nat :: k >= 1 && score == 500 * k {
      var k: nat :| k >= 1 && score == 500 * k;
      assert score % 500 == 0 by { assert (500 * k) % 500 == 0; }
    }
  }

  lemma MilestoneAt(k: nat)
    requires k >= 1
    ensures Milestone(500 * k, true) && !Milestone(500 * k, false)
    ensures !Milestone(500 * k + 1, true)
  {
    assert (500 * k) % 500 == 0;
    assert (500 * k + 1) % 500 == 1;
  }

  /** The difficulty formula written again in the display. */
  function DisplayedDifficulty(score: int): real
  {
    1.0 + (score / 1000) as real * 0.2
  }

  lemma DisplayedDifficultyAgrees(score: int)
    ensures DisplayedDifficulty(score) == GameLoop.DifficultyMultiplier(score)
  {
  }

  /** Number.prototype.toFixed(1) of a non-negative value, in exact arithmetic. */
  function ToFixed1(v: real): string
    requires v >= 0.0
  {
    var t := (v * 10.0 + 0.5).Floor;
    NatToString(t / 10) + "." + [DigitChar(t % 10)]
  }

  /**
   * The label shows the tenths 10 + 2k of the multiplier exactly, with k the
   * number of whole thousands in the score.
   */
  lemma DifficultyLabel(score: nat)
    ensures var t := 10 + 2 * (score / 1000);
            ToFixed1(DisplayedDifficulty(score)) == NatToString(t / 10) + "." + [DigitChar(t % 10)]
            && t as real / 10.0 == GameLoop.DifficultyMultiplier(score)
  {
    var t := 10 + 2 * (score / 1000);
    TenthsOfDifficulty(score);
    RoundHalfUp(t);
  }

  lemma TenthsOfDifficulty(score: nat)
    ensures DisplayedDifficulty(score) * 10.0 == (10 + 2 * (score / 1000)) as real
  {
  }

  lemma RoundHalfUp(t: int)
    ensures (t as real + 0.5).Floor == t
  {
  }

  lemma DifficultyLabelExamples()
    ensures ToFixed1(DisplayedDifficulty(999)) == "1.0"
    ensures ToFixed1(DisplayedDifficulty(1000)) == "1.2"
    ensures ToFixed1(DisplayedDifficulty(3000)) == "1.6"
    ensures ToFixed1(DisplayedDifficulty(25000)) == "6.0"
  {
    DifficultyLabel(999);
    DifficultyLabel(1000);
    DifficultyLabel(3000);
    DifficultyLabel(25000);
  }

  /** Which handler the pause/resume button is wired to. */
  datatype ButtonAction = ResumeClicked | PauseClicked

  function PauseButtonAction(isPaused: bool): (a: ButtonAction)
    ensures a == ResumeClicked <==> isPaused
  {
    if isPaused then ResumeClicked else PauseClicked
  }
}
