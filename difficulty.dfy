/** The difficulty table of the play scene and the rule that advances the
    tier as the score grows. */
module Difficulty {

  datatype Tier = Easy | Normal | Hard

  /** An inclusive integer range, as passed to Phaser.Math.Between. */
  datatype Range = Range(lo: int, hi: int) {
    predicate Contains(v: int) {
      lo <= v <= hi
    }
  }

  /** The distances a tier allows between consecutive pipe pairs
      (horizontal) and between the two pipes of a pair (vertical). */
  datatype Settings = Settings(horizontal: Range, vertical: Range)

  /** The constructor's `difficulties` table. Every range is non-empty and
      positive, so a draw from it always exists and always moves right. */
  function SettingsOf(t: Tier): (s: Settings)
    ensures 0 < s.horizontal.lo <= s.horizontal.hi
    ensures 0 < s.vertical.lo <= s.vertical.hi
  {
    match t
    case Easy => Settings(Range(300, 350), Range(150, 200))
    case Normal => Settings(Range(280, 330), Range(140, 190))
    case Hard => Settings(Range(250, 310), Range(120, 170))
  }

  /** Position of a tier in the order easy < normal < hard. */
  function Rank(t: Tier): nat {
    match t
    case Easy => 0
    case Normal => 1
    case Hard => 2
  }

  /** increaseDifficulty: the tier after the score has just become `score`. */
  function NextTier(t: Tier, score: nat): (r: Tier)
    ensures r == t || r == TierForScore(score)
  {
    if score == 1 then Normal
    else if score == 3 then Hard
    else t
  }

  /** The tier the game is meant to be in at a given score: easy before the
      first point, normal for one and two points, hard from three on. */
  function TierForScore(score: nat): Tier {
    if score == 0 then Easy
    else if score <= 2 then Normal
    else Hard
  }

  /** The tier reached by a run that starts from the reset state (easy, score
      0) and then scores `n` points one at a time, applying NextTier after
      each point. */
  function TierAfterRun(n: nat): Tier {
    if n == 0 then Easy else NextTier(TierAfterRun(n - 1), n)
  }

  /** A run's tier is exactly the intended tier for its score. */
  lemma {:induction false} TierAfterRunMatches(n: nat)
    ensures TierAfterRun(n) == TierForScore(n)
  {
    if n > 0 {
      TierAfterRunMatches(n - 1);
    }
  }

  /** One more point keeps the tier equal to the intended tier: this is the
      step that lets the play scene keep `currentDifficulty` in line with
      `score`. */
  lemma TierStep(score: nat)
    ensures NextTier(TierForScore(score), score + 1) == TierForScore(score + 1)
  {
  }

  /** The tier never goes back to an easier one as the score grows. */
  lemma TierNeverRegresses(m: nat, n: nat)
    requires m <= n
    ensures Rank(TierForScore(m)) <= Rank(TierForScore(n))
  {
  }

  /** A harder tier never allows wider spacing than an easier one: each bound
      of its two ranges is at most the easier tier's. */
  lemma HarderTiersAreTighter(easier: Tier, harder: Tier)
    requires Rank(easier) <= Rank(harder)
    ensures SettingsOf(harder).horizontal.lo <= SettingsOf(easier).horizontal.lo
    ensures SettingsOf(harder).horizontal.hi <= SettingsOf(easier).horizontal.hi
    ensures SettingsOf(harder).vertical.lo <= SettingsOf(easier).vertical.lo
    ensures SettingsOf(harder).vertical.hi <= SettingsOf(easier).vertical.hi
  {
  }
}
