/**
 * The producer's progress (`GamificationService`): cumulative XP, a level
 * that rises each time XP reaches the next threshold (which then grows by
 * half), and six achievements that award 50 XP when first unlocked.
 */
module Gamification {
  import opened Wrappers

  datatype Achievement = Achievement(
    id: string, name: string, description: string, unlocked: bool, timestamp: Option<int>)

  datatype UserProgress = UserProgress(xp: int, level: int, nextLevelXp: int, achievements: seq<Achievement>)

  const FIRST_THRESHOLD: int := 100
  const ACHIEVEMENT_XP: int := 50

  const INITIAL_ACHIEVEMENTS: seq<Achievement> := [
    Achievement("first-track", "First Track", "Create your first track.", false, None),
    Achievement("first-collaboration", "First Collaboration", "Collaborate with another artist.", false, None),
    Achievement("first-mastering", "First Mastering", "Master your first track.", false, None),
    Achievement("first-distribution", "First Distribution", "Distribute your first track.", false, None),
    Achievement("level-5", "Level 5", "Reach level 5.", false, None),
    Achievement("level-10", "Level 10", "Reach level 10.", false, None)
  ]

  const INITIAL_PROGRESS: UserProgress := UserProgress(0, 1, FIRST_THRESHOLD, INITIAL_ACHIEVEMENTS)

  /** `Math.floor(nextLevelXp * 1.5)`, exact for an integer threshold. */
  function Grow(t: int): (r: int)
    ensures t >= 2 ==> r > t
  {
    (3 * t) / 2
  }

  /** The threshold after `n` level-ups from the first one. */
  function ThresholdAt(n: nat): (t: int)
    ensures t >= FIRST_THRESHOLD
  {
    if n == 0 then FIRST_THRESHOLD else Grow(ThresholdAt(n - 1))
  }

  /** The `while (newXp >= nextLevelXp)` loop as a function of its start:
    * the level reached and the threshold then in force. */
  function LevelUp(xp: int, level: int, threshold: int): (r: (int, int))
    requires threshold >= 2
    ensures r.0 >= level && r.1 >= threshold && xp < r.1
    decreases xp - threshold
  {
    if xp >= threshold then LevelUp(xp, level + 1, Grow(threshold)) else (level, threshold)
  }

  /** Each level gained grows the threshold once, so a threshold in step with
    * the level stays in step with it. */
  lemma {:induction false} LevelUpKeepsStep(xp: int, level: int)
    requires level >= 1
    ensures var r := LevelUp(xp, level, ThresholdAt(level - 1)); r.1 == ThresholdAt(r.0 - 1)
    decreases xp - ThresholdAt(level - 1)
  {
    if xp >= ThresholdAt(level - 1) {
      assert Grow(ThresholdAt(level - 1)) == ThresholdAt(level);
      LevelUpKeepsStep(xp, level + 1);
    }
  }

  /** Adding XP in two goes, the second not negative, reaches the same level
    * and threshold as adding it at once. */
  lemma {:induction false} LevelUpTwice(x1: int, x2: int, level: int, threshold: int)
    requires threshold >= 2 && x1 <= x2
    ensures var r1 := LevelUp(x1, level, threshold); LevelUp(x2, r1.0, r1.1) == LevelUp(x2, level, threshold)
    decreases x1 - threshold
  {
    if x1 >= threshold {
      LevelUpTwice(x1, x2, level + 1, Grow(threshold));
    }
  }

  /** More XP never means a lower level. */
  lemma {:induction false} LevelUpMonotone(x1: int, x2: int, level: int, threshold: int)
    requires threshold >= 2 && x1 <= x2
    ensures LevelUp(x1, level, threshold).0 <= LevelUp(x2, level, threshold).0
    decreases x1 - threshold
  {
    if x1 >= threshold {
      LevelUpMonotone(x1, x2, level + 1, Grow(threshold));
    }
  }

  /** The progress the service can be in: a level from 1 up, the threshold
    * in step with it, and XP below it. */
  predicate Consistent(p: UserProgress) {
    p.level >= 1 && p.nextLevelXp == ThresholdAt(p.level - 1) && p.xp < p.nextLevelXp
  }

  /** `addXp` as a function of the progress. */
  function Gained(p: UserProgress, amount: int): (r: UserProgress)
    requires p.nextLevelXp >= 2
    ensures r.xp == p.xp + amount && r.xp < r.nextLevelXp
    ensures r.level >= p.level && r.nextLevelXp >= p.nextLevelXp
    ensures r.achievements == p.achievements
  {
    var (level, threshold) := LevelUp(p.xp + amount, p.level, p.nextLevelXp);
    p.(xp := p.xp + amount, level := level, nextLevelXp := threshold)
  }

  /** `addXp` keeps the progress consistent, even for a negative amount. */
  lemma GainedConsistent(p: UserProgress, amount: int)
    requires Consistent(p)
    ensures Consistent(Gained(p, amount))
  {
    LevelUpKeepsStep(p.xp + amount, p.level);
  }

  /** The index of the first achievement with this id, if any (`find`). */
  function FindAchievement(achievements: seq<Achievement>, id: string): (r: Option<nat>)
    ensures r.Some? ==> r.value < |achievements| && achievements[r.value].id == id &&
                        forall j :: 0 <= j < r.value ==> achievements[j].id != id
    ensures r.None? ==> forall j :: 0 <= j < |achievements| ==> achievements[j].id != id
  {
    if |achievements| == 0 then None
    else if achievements[0].id == id then Some(0)
    else match FindAchievement(achievements[1..], id)
      case None => None
      case Some(i) => Some(i + 1)
  }

  /** `unlockAchievement` as a function: the first achievement with the id,
    * if locked, is unlocked at `now` and 50 XP are added; otherwise nothing changes. */
  function Unlocked(p: UserProgress, id: string, now: int): (r: UserProgress)
    requires p.nextLevelXp >= 2
  {
    match FindAchievement(p.achievements, id)
    case None => p
    case Some(i) =>
      if p.achievements[i].unlocked then p
      else
        var a := p.achievements[i].(unlocked := true, timestamp := Some(now));
        Gained(p.(achievements := p.achievements[i := a]), ACHIEVEMENT_XP)
  }

  /** Unlocking marks exactly the found achievement and pays 50 XP once: an
    * unknown or already unlocked id changes nothing. */
  lemma UnlockedEffect(p: UserProgress, id: string, now: int)
    requires p.nextLevelXp >= 2
    ensures var r := Unlocked(p, id, now); var f := FindAchievement(p.achievements, id);
            if f.Some? && !p.achievements[f.value].unlocked then
              r.xp == p.xp + ACHIEVEMENT_XP && |r.achievements| == |p.achievements| &&
              r.achievements[f.value].unlocked && r.achievements[f.value].timestamp == Some(now) &&
              (forall j :: 0 <= j < |p.achievements| && j != f.value ==> r.achievements[j] == p.achievements[j])
            else r == p
  {
  }

  /** Unlocking the same id a second time changes nothing, so XP is paid once. */
  lemma UnlockTwice(p: UserProgress, id: string, now1: int, now2: int)
    requires p.nextLevelXp >= 2
    ensures var r := Unlocked(p, id, now1); Unlocked(r, id, now2) == r
  {
    var r := Unlocked(p, id, now1);
    var f := FindAchievement(p.achievements, id);
    if f.Some? && !p.achievements[f.value].unlocked {
      var i := f.value;
      assert forall j :: 0 <= j < i ==> r.achievements[j].id != id;
      assert r.achievements[i].id == id;
      assert FindAchievement(r.achievements, id) == Some(i);
    }
  }

  /** Unlocking keeps the progress consistent. */
  lemma UnlockedConsistent(p: UserProgress, id: string, now: int)
    requires Consistent(p)
    ensures Consistent(Unlocked(p, id, now))
  {
    var f := FindAchievement(p.achievements, id);
    if f.Some? && !p.achievements[f.value].unlocked {
      var a := p.achievements[f.value].(unlocked := true, timestamp := Some(now));
      GainedConsistent(p.(achievements := p.achievements[f.value := a]), ACHIEVEMENT_XP);
    }
  }

  class GamificationService {
    var progress: UserProgress

    predicate Valid()
      reads this
    {
      Consistent(progress)
    }

    /** Progress starts at 0 XP, level 1, threshold 100, six locked achievements. */
    constructor()
      ensures Valid()
      ensures progress == INITIAL_PROGRESS
    {
      progress := INITIAL_PROGRESS;
    }

    /** `addXp`: the levelling loop. */
    method AddXp(amount: int)
      requires Valid()
      modifies this
      ensures Valid()
      ensures progress == Gained(old(progress), amount)
    {
      var newXp := progress.xp + amount;
      var newLevel := progress.level;
      var nextLevelXp := progress.nextLevelXp;
      while newXp >= nextLevelXp
        invariant nextLevelXp >= 2 && newLevel >= progress.level
        invariant LevelUp(newXp, newLevel, nextLevelXp) == LevelUp(newXp, progress.level, progress.nextLevelXp)
        decreases newXp - nextLevelXp
      {
        newLevel := newLevel + 1;
        nextLevelXp := Grow(nextLevelXp);
      }
      GainedConsistent(progress, amount);
      progress := progress.(xp := newXp, level := newLevel, nextLevelXp := nextLevelXp);
    }

    /** `unlockAchievement`, with `Date.now()` passed in as `now`. */
    method UnlockAchievement(id: string, now: int)
      requires Valid()
      modifies this
      ensures Valid()
      ensures progress == Unlocked(old(progress), id, now)
    {
      UnlockedConsistent(progress, id, now);
      var found := FindAchievement(progress.achievements, id);
      if found.Some? && !progress.achievements[found.value].unlocked {
        var i := found.value;
        var a := progress.achievements[i].(unlocked := true, timestamp := Some(now));
        progress := progress.(achievements := progress.achievements[i := a]);
        AddXp(ACHIEVEMENT_XP);
      }
    }
  }
}
