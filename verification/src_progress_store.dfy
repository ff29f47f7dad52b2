/**
 * The `src` progress store: the reader's progress record (XP, level, streak,
 * completed lessons) with the badges and achievements earned, kept in step
 * with the local adapter. Failed adapter calls are logged and swallowed, so
 * a badge the adapter refuses (nobody signed in) is simply not added.
 */
module SrcProgressStore {
  import opened Wrappers
  import opened SrcTypes
  import opened SrcLocalAdapter
  import Seqs

  /** `Math.floor(totalXP / 100) + 1`. */
  function LevelFor(totalXP: int): int {
    totalXP / 100 + 1
  }

  /** One level per full hundred XP: level n covers the totals from 100(n-1) up to 100n. */
  lemma LevelForBounds(totalXP: int)
    ensures (LevelFor(totalXP) - 1) * 100 <= totalXP < LevelFor(totalXP) * 100
  {
  }

  /** More XP never means a lower level. */
  lemma LevelMonotone(a: int, b: int)
    requires a <= b
    ensures LevelFor(a) <= LevelFor(b)
  {
    LevelForBounds(a);
    LevelForBounds(b);
    var la, lb := LevelFor(a), LevelFor(b);
    assert (la - 1) * 100 < lb * 100;
  }

  /**
   * The record `updateProgress` saves: XP added, level recomputed from the
   * total, one more streak day when the last activity fell on another
   * calendar day, and the activity time moved to now.
   */
  function Advance(p: Progress, xp: int, now: Instant): (r: Progress)
    ensures r.totalXP == p.totalXP + xp && r.level == LevelFor(r.totalXP)
    ensures r.streak == p.streak + 1 <==> now.day != p.lastActivity.day
    ensures r.streak == p.streak <==> now.day == p.lastActivity.day
    ensures r.lastActivity == now
    ensures r.id == p.id && r.userId == p.userId
    ensures r.completedLessons == p.completedLessons && r.achievements == p.achievements
  {
    var total := p.totalXP + xp;
    p.(totalXP := total, level := LevelFor(total),
       streak := if now.day != p.lastActivity.day then p.streak + 1 else p.streak,
       lastActivity := now)
  }

  /** A second update on the same day leaves the streak where the first put it. */
  lemma SameDayKeepsStreak(p: Progress, a: int, b: int, now: Instant)
    ensures Advance(Advance(p, a, now), b, now).streak == Advance(p, a, now).streak
  {
  }

  /** Gaining XP never lowers the level the record shows afterwards. */
  lemma AdvanceLevelMonotone(p: Progress, xp: int, now: Instant)
    requires xp >= 0 && p.level == LevelFor(p.totalXP)
    ensures Advance(p, xp, now).level >= p.level
  {
    LevelMonotone(p.totalXP, p.totalXP + xp);
  }

  /** The badges `updateProgress` asks for, in the order it asks. */
  function BadgeTriggers(before: Progress, after: Progress): (ids: seq<string>)
    ensures "level_up" in ids <==> after.level > before.level
    ensures "streak_7" in ids <==> after.streak == 7
    ensures "streak_30" in ids <==> after.streak == 30
    ensures forall i :: 0 <= i < |ids| ==> ids[i] in ["level_up", "streak_7", "streak_30"]
  {
    (if after.level > before.level then ["level_up"] else [])
    + (if after.streak == 7 then ["streak_7"] else [])
    + (if after.streak == 30 then ["streak_30"] else [])
  }

  predicate HasBadgeId(bs: seq<Badge>, id: string) {
    exists i :: 0 <= i < |bs| && bs[i].id == id
  }

  predicate DistinctBadgeIds(bs: seq<Badge>) {
    forall i, j :: 0 <= i < j < |bs| ==> bs[i].id != bs[j].id
  }

  predicate HasAchievementId(as_: seq<Achievement>, id: string) {
    exists i :: 0 <= i < |as_| && as_[i].id == id
  }

  predicate DistinctAchievementIds(as_: seq<Achievement>) {
    forall i, j :: 0 <= i < j < |as_| ==> as_[i].id != as_[j].id
  }

  /**
   * The store's badges after `awardBadge(id)`: unchanged when the id is
   * already held or nobody is signed in, else the adapter's new badge appended.
   */
  function Award(held: seq<Badge>, id: string, signedIn: bool, now: Instant): (r: seq<Badge>)
    ensures |held| <= |r| <= |held| + 1 && r[..|held|] == held
    ensures r == held <==> HasBadgeId(held, id) || !signedIn
    ensures r != held ==> r == held + [MakeBadge(id, now)]
  {
    if HasBadgeId(held, id) || !signedIn then held else held + [MakeBadge(id, now)]
  }

  /** After `awardBadge(id)` by a signed-in user the id is held, and no id is ever held twice. */
  lemma AwardHolds(held: seq<Badge>, id: string, signedIn: bool, now: Instant)
    ensures signedIn ==> HasBadgeId(Award(held, id, signedIn, now), id)
    ensures DistinctBadgeIds(held) ==> DistinctBadgeIds(Award(held, id, signedIn, now))
  {
    var r := Award(held, id, signedIn, now);
    if r != held {
      assert r[|held|].id == id;
    }
  }

  /** Asking for the same badge twice is asking once. */
  lemma AwardIdempotent(held: seq<Badge>, id: string, signedIn: bool, now: Instant)
    ensures Award(Award(held, id, signedIn, now), id, signedIn, now) == Award(held, id, signedIn, now)
  {
    AwardHolds(held, id, signedIn, now);
  }

  /** `awardBadge` for each id in turn. */
  function AwardAll(held: seq<Badge>, ids: seq<string>, signedIn: bool, now: Instant): (r: seq<Badge>)
    ensures |held| <= |r| && r[..|held|] == held
  {
    if ids == [] then held
    else Award(AwardAll(held, ids[..|ids| - 1], signedIn, now), ids[|ids| - 1], signedIn, now)
  }

  lemma AwardAllSnoc(held: seq<Badge>, ids: seq<string>, id: string, signedIn: bool, now: Instant)
    ensures AwardAll(held, ids + [id], signedIn, now) == Award(AwardAll(held, ids, signedIn, now), id, signedIn, now)
  {
    assert (ids + [id])[..|ids|] == ids;
  }

  /** However many badges are asked for, no badge id is ever held twice. */
  lemma {:induction false} AwardAllDistinct(held: seq<Badge>, ids: seq<string>, signedIn: bool, now: Instant)
    requires DistinctBadgeIds(held)
    ensures DistinctBadgeIds(AwardAll(held, ids, signedIn, now))
    ensures signedIn ==> forall i :: 0 <= i < |ids| ==> HasBadgeId(AwardAll(held, ids, signedIn, now), ids[i])
  {
    if ids != [] {
      var init := ids[..|ids| - 1];
      AwardAllDistinct(held, init, signedIn, now);
      var before := AwardAll(held, init, signedIn, now);
      AwardHolds(before, ids[|ids| - 1], signedIn, now);
      var after := AwardAll(held, ids, signedIn, now);
      if signedIn {
        forall i | 0 <= i < |ids| ensures HasBadgeId(after, ids[i]) {
          if i < |ids| - 1 {
            assert ids[i] == init[i];
            var k :| 0 <= k < |before| && before[k].id == ids[i];
            assert after[k] == before[k];
          }
        }
      }
    }
  }

  /** The store's achievements after `unlockAchievement(id)`. */
  function Unlock(held: seq<Achievement>, id: string, signedIn: bool, now: Instant): (r: seq<Achievement>)
    ensures |held| <= |r| <= |held| + 1 && r[..|held|] == held
    ensures r == held <==> HasAchievementId(held, id) || !signedIn
    ensures r != held ==> r == held + [MakeAchievement(id, now)]
  {
    if HasAchievementId(held, id) || !signedIn then held else held + [MakeAchievement(id, now)]
  }

  /** After `unlockAchievement(id)` by a signed-in user the id is held, and no id is ever held twice. */
  lemma UnlockHolds(held: seq<Achievement>, id: string, signedIn: bool, now: Instant)
    ensures signedIn ==> HasAchievementId(Unlock(held, id, signedIn, now), id)
    ensures DistinctAchievementIds(held) ==> DistinctAchievementIds(Unlock(held, id, signedIn, now))
  {
    var r := Unlock(held, id, signedIn, now);
    if r != held {
      assert r[|held|].id == id;
    }
  }

  /**
   * The adapter's per-user table after the store appended `added` through
   * it: untouched when nothing was added (or nobody is signed in, in which
   * case nothing can be), else the signed-in user's list extended.
   */
  function Stored<T>(m: map<string, seq<T>>, user: Option<User>, added: seq<T>): map<string, seq<T>> {
    if user.None? || added == [] then m else m[user.value.id := ListAt(m, user.value.id) + added]
  }

  lemma StoredCompose<T>(m: map<string, seq<T>>, user: Option<User>, x: seq<T>, y: seq<T>)
    ensures Stored(Stored(m, user, x), user, y) == Stored(m, user, x + y)
  {
    if y == [] {
      assert x + y == x;
    } else if x == [] {
      assert x + y == y;
    } else if user.Some? {
      assert ListAt(Stored(m, user, x), user.value.id) == ListAt(m, user.value.id) + x;
      assert ListAt(m, user.value.id) + x + y == ListAt(m, user.value.id) + (x + y);
    }
  }

  /** The record `initialize` creates for a signed-in user without one. */
  function FreshProgress(userId: string, now: Instant): (p: Progress)
    ensures p.userId == userId && p.level == 1 && p.totalXP == 0 && p.streak == 0
    ensures p.level == LevelFor(p.totalXP) && p.completedLessons == [] && p.achievements == []
  {
    Progress("progress_" + userId, userId, 1, 0, 0, now, [], [])
  }

  /** The achievement `markLessonComplete` unlocks after `count` completed lessons, if any. */
  function MilestoneAchievement(count: nat): (id: Option<string>)
    ensures id == Some("perfectionist") <==> count == 10
    ensures id == Some("scholar") <==> count == 100
    ensures id.None? <==> count != 10 && count != 100
  {
    if count == 10 then Some("perfectionist") else if count == 100 then Some("scholar") else None
  }

  /** `useProgressStore`; the constructor takes what was persisted. */
  class ProgressStore {
    const adapter: LocalAdapter
    var progress: Option<Progress>
    var badges: seq<Badge>
    var achievements: seq<Achievement>
    var isLoading: bool

    constructor(adapter: LocalAdapter, progress: Option<Progress>, badges: seq<Badge>, achievements: seq<Achievement>)
      ensures this.adapter == adapter && this.progress == progress && this.badges == badges
      ensures this.achievements == achievements && !isLoading
    {
      this.adapter := adapter;
      this.progress := progress;
      this.badges := badges;
      this.achievements := achievements;
      isLoading := false;
    }

    /**
     * `initialize`: the adapter's record for the signed-in user, or a fresh
     * one (saved through the adapter) when there is none; the badges and
     * achievements are reloaded from the adapter.
     */
    method Initialize(now: Instant)
      modifies this, adapter
      ensures !isLoading
      ensures var u := adapter.currentUser;
              progress == (if u.None? then None
                           else if u.value.id in old(adapter.progress) then Some(old(adapter.progress)[u.value.id])
                           else Some(FreshProgress(u.value.id, now)))
      ensures var u := adapter.currentUser;
              adapter.State() == old(adapter.State()).(progress := if u.Some? && u.value.id !in old(adapter.progress)
                                                                  then old(adapter.progress)[u.value.id := FreshProgress(u.value.id, now)]
                                                                  else old(adapter.progress))
      ensures badges == adapter.CurrentBadges() && achievements == adapter.CurrentAchievements()
    {
      isLoading := true;
      var p := adapter.GetUserProgress();
      if p.None? {
        var u := adapter.GetCurrentUser();
        if u.Some? {
          p := Some(FreshProgress(u.value.id, now));
          var _ := adapter.UpdateProgress(p.value);
        }
      }
      var bs := adapter.GetUserBadges();
      var as_ := adapter.GetUserAchievements();
      progress, badges, achievements := p, bs, as_;
      isLoading := false;
    }

    /**
     * `awardBadge`: nothing happens when a badge with the id is held; else
     * the adapter is asked, and the badge it returns is appended here (and
     * stored there for the signed-in user).
     */
    method AwardBadge(badgeId: string, now: Instant)
      modifies this, adapter
      ensures badges == Award(old(badges), badgeId, adapter.currentUser.Some?, now)
      ensures progress == old(progress) && achievements == old(achievements) && isLoading == old(isLoading)
      ensures adapter.State() == old(adapter.State()).(badges := Stored(old(adapter.badges), adapter.currentUser, badges[|old(badges)|..]))
    {
      if HasBadgeId(badges, badgeId) {
        assert badges[|badges|..] == [];
        return;
      }
      var r := adapter.AwardBadge(badgeId, now);
      if r.Ok? {
        badges := badges + [r.value];
        assert badges[|old(badges)|..] == [r.value];
      } else {
        assert badges[|old(badges)|..] == [];
      }
    }

    /** `unlockAchievement`: as `awardBadge`, for achievements. */
    method UnlockAchievement(achievementId: string, now: Instant)
      modifies this, adapter
      ensures achievements == Unlock(old(achievements), achievementId, adapter.currentUser.Some?, now)
      ensures progress == old(progress) && badges == old(badges) && isLoading == old(isLoading)
      ensures adapter.State() == old(adapter.State()).(achievements := Stored(old(adapter.achievements), adapter.currentUser, achievements[|old(achievements)|..]))
    {
      if HasAchievementId(achievements, achievementId) {
        assert achievements[|achievements|..] == [];
        return;
      }
      var r := adapter.UnlockAchievement(achievementId, now);
      if r.Ok? {
        achievements := achievements + [r.value];
        assert achievements[|old(achievements)|..] == [r.value];
      } else {
        assert achievements[|old(achievements)|..] == [];
      }
    }

    /**
     * One `awardBadge` call in a run of them that started from badges `b0`
     * and adapter table `m0`.
     */
    method AwardStep(ghost b0: seq<Badge>, ghost m0: map<string, seq<Badge>>, ghost ids: seq<string>,
                     id: string, now: Instant)
      modifies this, adapter
      requires badges == AwardAll(b0, ids, adapter.currentUser.Some?, now)
      requires adapter.badges == Stored(m0, adapter.currentUser, badges[|b0|..])
      ensures badges == AwardAll(b0, ids + [id], adapter.currentUser.Some?, now)
      ensures adapter.badges == Stored(m0, adapter.currentUser, badges[|b0|..])
      ensures adapter.State() == old(adapter.State()).(badges := adapter.badges)
      ensures progress == old(progress) && achievements == old(achievements) && isLoading == old(isLoading)
    {
      AwardAllSnoc(b0, ids, id, adapter.currentUser.Some?, now);
      ghost var before := badges;
      AwardBadge(id, now);
      StoredCompose(m0, adapter.currentUser, before[|b0|..], badges[|before|..]);
      assert before[|b0|..] + badges[|before|..] == badges[|b0|..];
    }

    /** The badge requests at the end of `updateProgress`, for a record that went from `before` to `after`. */
    method AwardTriggered(before: Progress, after: Progress, now: Instant)
      modifies this, adapter
      ensures badges == AwardAll(old(badges), BadgeTriggers(before, after), adapter.currentUser.Some?, now)
      ensures adapter.State() == old(adapter.State()).(badges := Stored(old(adapter.badges), adapter.currentUser, badges[|old(badges)|..]))
      ensures progress == old(progress) && achievements == old(achievements) && isLoading == old(isLoading)
    {
      ghost var b0, m0 := badges, adapter.badges;
      ghost var ids: seq<string> := [];
      assert badges[|b0|..] == [];
      if after.level > before.level {
        AwardStep(b0, m0, ids, "level_up", now);
        ids := ids + ["level_up"];
      }
      if after.streak == 7 {
        AwardStep(b0, m0, ids, "streak_7", now);
        ids := ids + ["streak_7"];
      }
      if after.streak == 30 {
        AwardStep(b0, m0, ids, "streak_30", now);
        ids := ids + ["streak_30"];
      }
      assert ids == BadgeTriggers(before, after);
    }

    /**
     * `updateProgress`: nothing happens without a record. Otherwise the
     * advanced record is saved and shown, then level_up is asked for exactly
     * when the level rose, and streak_7 / streak_30 exactly when the streak
     * is now 7 / 30.
     */
    method UpdateProgress(xp: int, now: Instant)
      modifies this, adapter
      ensures old(progress).None? ==> progress == None && badges == old(badges) && adapter.State() == old(adapter.State())
      ensures old(progress).Some? ==>
                var p := Advance(old(progress).value, xp, now);
                progress == Some(p)
                && badges == AwardAll(old(badges), BadgeTriggers(old(progress).value, p), adapter.currentUser.Some?, now)
                && adapter.State() == old(adapter.State()).(progress := old(adapter.progress)[p.userId := p],
                                                            badges := Stored(old(adapter.badges), adapter.currentUser, badges[|old(badges)|..]))
      ensures achievements == old(achievements) && isLoading == old(isLoading)
    {
      if progress.None? {
        return;
      }
      var current := progress.value;
      var next := Advance(current, xp, now);
      var saved := adapter.UpdateProgress(next);
      progress := Some(saved);
      AwardTriggered(current, next, now);
    }

    /**
     * `markLessonComplete`: nothing happens without a record or when the
     * lesson is already complete. Otherwise the lesson id is appended (so no
     * id is ever listed twice), 50 XP are added as by `updateProgress`, and
     * the first, tenth and hundredth completion ask for first_lesson,
     * perfectionist and scholar.
     */
    method MarkLessonComplete(lessonId: string, now: Instant)
      modifies this, adapter
      ensures old(progress).None? || lessonId in old(progress).value.completedLessons ==>
                progress == old(progress) && badges == old(badges) && achievements == old(achievements)
                && adapter.State() == old(adapter.State())
      ensures old(progress).Some? && lessonId !in old(progress).value.completedLessons ==>
                var marked := old(progress).value.(completedLessons := old(progress).value.completedLessons + [lessonId]);
                var p := Advance(marked, 50, now);
                var signedIn := adapter.currentUser.Some?;
                var count := |marked.completedLessons|;
                progress == Some(p)
                && badges == AwardAll(old(badges), BadgeTriggers(marked, p) + (if count == 1 then ["first_lesson"] else []), signedIn, now)
                && achievements == (match MilestoneAchievement(count)
                                    case None => old(achievements)
                                    case Some(id) => Unlock(old(achievements), id, signedIn, now))
                && adapter.State() == old(adapter.State()).(
                     progress := old(adapter.progress)[p.userId := p],
                     badges := Stored(old(adapter.badges), adapter.currentUser, badges[|old(badges)|..]),
                     achievements := Stored(old(adapter.achievements), adapter.currentUser, achievements[|old(achievements)|..]))
      ensures progress.Some? && Seqs.Distinct(old(progress).value.completedLessons) ==> Seqs.Distinct(progress.value.completedLessons)
      ensures isLoading == old(isLoading)
    {
      if progress.None? || lessonId in progress.value.completedLessons {
        return;
      }
      var count := |progress.value.completedLessons| + 1;
      RecordCompletion(lessonId, now);
      UnlockMilestone(count, now);
    }

    /** The completion itself: the id appended and saved, 50 XP added, and first_lesson asked for on the first. */
    method RecordCompletion(lessonId: string, now: Instant)
      modifies this, adapter
      requires progress.Some? && lessonId !in progress.value.completedLessons
      ensures var marked := old(progress).value.(completedLessons := old(progress).value.completedLessons + [lessonId]);
              var p := Advance(marked, 50, now);
              progress == Some(p)
              && badges == AwardAll(old(badges), BadgeTriggers(marked, p) + (if |marked.completedLessons| == 1 then ["first_lesson"] else []),
                                    adapter.currentUser.Some?, now)
              && adapter.State() == old(adapter.State()).(
                   progress := old(adapter.progress)[p.userId := p],
                   badges := Stored(old(adapter.badges), adapter.currentUser, badges[|old(badges)|..]))
      ensures achievements == old(achievements) && isLoading == old(isLoading)
    {
      var marked := progress.value.(completedLessons := progress.value.completedLessons + [lessonId]);
      ghost var s0 := adapter.State();
      SaveMarked(lessonId);
      ghost var s1 := adapter.State();
      ghost var b0, m0 := badges, adapter.badges;
      UpdateProgress(50, now);
      ghost var p := Advance(marked, 50, now);
      assert s1.progress[p.userId := p] == s0.progress[p.userId := p];
      if |marked.completedLessons| == 1 {
        AwardStep(b0, m0, BadgeTriggers(marked, progress.value), "first_lesson", now);
      } else {
        assert BadgeTriggers(marked, progress.value) + [] == BadgeTriggers(marked, progress.value);
      }
    }

    /** The lesson id appended to the record, which is saved through the adapter and shown. */
    method SaveMarked(lessonId: string)
      modifies this, adapter
      requires progress.Some?
      ensures var marked := old(progress).value.(completedLessons := old(progress).value.completedLessons + [lessonId]);
              progress == Some(marked) && adapter.State() == old(adapter.State()).(progress := old(adapter.progress)[marked.userId := marked])
      ensures badges == old(badges) && achievements == old(achievements) && isLoading == old(isLoading)
    {
      var current := progress.value;
      var marked := current.(completedLessons := current.completedLessons + [lessonId]);
      var saved := adapter.UpdateProgress(marked);
      progress := Some(saved);
    }

    /** The milestone after `count` completions: perfectionist at 10, scholar at 100, nothing otherwise. */
    method UnlockMilestone(count: nat, now: Instant)
      modifies this, adapter
      ensures achievements == (match MilestoneAchievement(count)
                               case None => old(achievements)
                               case Some(id) => Unlock(old(achievements), id, adapter.currentUser.Some?, now))
      ensures adapter.State() == old(adapter.State()).(
                achievements := Stored(old(adapter.achievements), adapter.currentUser, achievements[|old(achievements)|..]))
      ensures progress == old(progress) && badges == old(badges) && isLoading == old(isLoading)
    {
      if count == 10 {
        UnlockAchievement("perfectionist", now);
      }
      if count == 100 {
        UnlockAchievement("scholar", now);
      }
      if count != 10 && count != 100 {
        assert achievements[|old(achievements)|..] == [];
      }
    }
  }
}
