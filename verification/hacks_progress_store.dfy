/**
 * The `Hacks` progress store: experience points, the level they give,
 * completed lessons and time spent, and the badges earned. Every action
 * does nothing while no metrics are loaded.
 */
module HacksProgressStore {
  import opened Wrappers

  datatype BadgeCategory = CompletionBadge | StreakBadge | ImprovementBadge | SpecialBadge

  datatype Badge = Badge(id: string, name: string, description: string, iconUrl: string,
                         earnedAt: nat, category: BadgeCategory)

  /** Time is counted in seconds; `lastActivityAt` is a clock reading. */
  datatype ProgressMetrics = ProgressMetrics(userId: string, totalLessonsCompleted: nat, totalTimeSpent: int,
                                             currentLevel: int, currentXP: int, badges: seq<Badge>,
                                             streakDays: nat, lastActivityAt: nat)

  /** `calculateLevel`: one level per full 1000 XP, starting at level 1. */
  function CalculateLevel(xp: int): (level: int)
    ensures (level - 1) * 1000 <= xp < level * 1000
  {
    xp / 1000 + 1
  }

  /** More experience never means a lower level. */
  lemma LevelMonotone(a: int, b: int)
    requires a <= b
    ensures CalculateLevel(a) <= CalculateLevel(b)
  {
    var la, lb := CalculateLevel(a), CalculateLevel(b);
    assert (la - 1) * 1000 < lb * 1000;
  }

  /** `Math.floor(timeSpent / 60) * 10`: ten points per whole minute. */
  function TimeXP(timeSpent: int): (xp: int)
    ensures timeSpent >= 0 ==> xp >= 0 && xp <= timeSpent / 6
    ensures xp % 10 == 0
  {
    (timeSpent / 60) * 10
  }

  /** Whether a badge with this id has been earned already. */
  predicate HasBadge(badges: seq<Badge>, id: string) {
    exists i :: 0 <= i < |badges| && badges[i].id == id
  }

  predicate DistinctBadgeIds(badges: seq<Badge>) {
    forall i, j :: 0 <= i < j < |badges| ==> badges[i].id != badges[j].id
  }

  /**
   * The badges after an award: the badge is held afterwards, nothing earned
   * before is lost, and at most one badge is added, so ids stay distinct.
   */
  function Award(badges: seq<Badge>, badge: Badge): (r: seq<Badge>)
    ensures HasBadge(r, badge.id)
    ensures |badges| <= |r| <= |badges| + 1 && r[..|badges|] == badges
    ensures HasBadge(badges, badge.id) <==> r == badges
    ensures DistinctBadgeIds(badges) ==> DistinctBadgeIds(r)
  {
    if HasBadge(badges, badge.id) then badges
    else
      var r := badges + [badge];
      assert r[|badges|].id == badge.id;
      r
  }

  /** Awarding the same badge again changes nothing. */
  lemma AwardIdempotent(badges: seq<Badge>, badge: Badge)
    ensures Award(Award(badges, badge), badge) == Award(badges, badge)
  {
  }

  /** The level shown is the one the experience points give. */
  predicate LevelConsistent(m: ProgressMetrics) {
    m.currentLevel == CalculateLevel(m.currentXP)
  }

  /** `useProgressStore`; `metrics` starts as whatever was persisted, or null. */
  class ProgressStore {
    var metrics: Option<ProgressMetrics>

    constructor(restored: Option<ProgressMetrics>)
      ensures metrics == restored
    {
      metrics := restored;
    }

    /**
     * `updateProgress`: one more completed lesson, the time added, ten XP per
     * whole minute and the level recomputed from the new XP.
     */
    method UpdateProgress(lessonId: string, timeSpent: int, now: nat)
      modifies this
      ensures old(metrics).None? ==> metrics == None
      ensures old(metrics).Some? ==>
                var m := old(metrics).value;
                var xp := m.currentXP + TimeXP(timeSpent);
                metrics == Some(m.(totalLessonsCompleted := m.totalLessonsCompleted + 1,
                                   totalTimeSpent := m.totalTimeSpent + timeSpent,
                                   currentXP := xp, currentLevel := CalculateLevel(xp),
                                   lastActivityAt := now))
      ensures metrics.Some? ==> LevelConsistent(metrics.value)
      ensures metrics.Some? && timeSpent >= 0 ==> metrics.value.currentLevel >= CalculateLevel(old(metrics).value.currentXP)
    {
      if metrics.None? {
        return;
      }
      var m := metrics.value;
      var xp := m.currentXP + TimeXP(timeSpent);
      metrics := Some(m.(totalLessonsCompleted := m.totalLessonsCompleted + 1,
                         totalTimeSpent := m.totalTimeSpent + timeSpent,
                         currentXP := xp, currentLevel := CalculateLevel(xp),
                         lastActivityAt := now));
      if timeSpent >= 0 {
        LevelMonotone(m.currentXP, xp);
      }
    }

    /** `awardBadge`: the badge list grows by the badge unless one with its id is already held. */
    method AwardBadge(badge: Badge)
      modifies this
      ensures old(metrics).None? ==> metrics == None
      ensures old(metrics).Some? ==> metrics == Some(old(metrics).value.(badges := Award(old(metrics).value.badges, badge)))
    {
      if metrics.None? {
        return;
      }
      var m := metrics.value;
      if HasBadge(m.badges, badge.id) {
        return;
      }
      metrics := Some(m.(badges := m.badges + [badge]));
    }

    /** `addXP`: the amount is added and the level recomputed; a negative amount takes points away. */
    method AddXP(amount: int)
      modifies this
      ensures old(metrics).None? ==> metrics == None
      ensures old(metrics).Some? ==>
                var m := old(metrics).value;
                metrics == Some(m.(currentXP := m.currentXP + amount,
                                   currentLevel := CalculateLevel(m.currentXP + amount)))
      ensures metrics.Some? ==> LevelConsistent(metrics.value)
      ensures metrics.Some? && amount >= 0 ==> metrics.value.currentLevel >= CalculateLevel(old(metrics).value.currentXP)
    {
      if metrics.None? {
        return;
      }
      var m := metrics.value;
      metrics := Some(m.(currentXP := m.currentXP + amount, currentLevel := CalculateLevel(m.currentXP + amount)));
      if amount >= 0 {
        LevelMonotone(m.currentXP, m.currentXP + amount);
      }
    }
  }
}
