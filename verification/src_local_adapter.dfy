/**
 * The `src` portal's local adapter: users and the signed-in user, lessons,
 * per-user progress, badges and achievements, per-lesson progress and
 * highlights, all kept in in-memory tables that each operation rewrites.
 * Generated ids and the clock are parameters; the time zone the browser
 * reports is fixed when the adapter is made.
 */
module SrcLocalAdapter {
  import opened Wrappers
  import opened SrcTypes
  import Seqs

  const DemoPassword := "password123"

  /** `DEFAULT_USERS`: one demo student, teacher and admin. */
  function DefaultUsers(timezone: string, now: Instant): (r: seq<User>)
    ensures |r| == 3 && r[0].role == Student && r[1].role == Teacher && r[2].role == Admin
    ensures forall i :: 0 <= i < |r| ==> r[i].password == Some(DemoPassword)
  {
    var prefs := UserPreferences("en", timezone, true);
    [User("student-1", "student@demo.com", Some(DemoPassword), "Demo Student", Student, None, now, None, prefs),
     User("teacher-1", "teacher@demo.com", Some(DemoPassword), "Demo Teacher", Teacher, None, now, None, prefs),
     User("admin-1", "admin@demo.com", Some(DemoPassword), "Demo Admin", Admin, None, now, None, prefs)]
  }

  // The sample lessons' titles and descriptions.
  const IntroTitle := "Introduction to Web Accessibility"
  const IntroDescription := "Learn the basics of making websites accessible to everyone."
  const ScreenReaderTitle := "Screen Reader Navigation"
  const ScreenReaderDescription := "Understanding how screen readers work and how to optimize content for them."
  const ContrastTitle := "Color and Contrast Guidelines"
  const ContrastDescription := "Learn about color accessibility and contrast requirements."

  /** The three sample lessons, by teacher-1 and published; their markdown bodies are not kept. */
  function SampleLessons(now: Instant): (r: seq<Lesson>)
    ensures |r| == 3 && r[0].id == "lesson-1" && r[1].id == "lesson-2" && r[2].id == "lesson-3"
    ensures forall i :: 0 <= i < |r| ==> r[i].authorId == "teacher-1" && r[i].isPublished
  {
    [Lesson("lesson-1", IntroTitle, IntroDescription, "", "teacher-1",
            "beginner", 30, ["accessibility", "web", "basics"], true, now, now),
     Lesson("lesson-2", ScreenReaderTitle, ScreenReaderDescription, "", "teacher-1",
            "intermediate", 45, ["screen-reader", "navigation", "testing"], true, now, now),
     Lesson("lesson-3", ContrastTitle, ContrastDescription, "", "teacher-1",
            "intermediate", 35, ["color", "contrast", "visual", "design"], true, now, now)]
  }

  predicate UniqueEmails(users: seq<User>) {
    forall i, j :: 0 <= i < j < |users| ==> users[i].email != users[j].email
  }

  predicate HasEmail(users: seq<User>, email: string) {
    exists i :: 0 <= i < |users| && users[i].email == email
  }

  /** `u.email === email && u.password === password`; a user without a password never matches. */
  predicate Matches(u: User, email: string, password: string) {
    u.email == email && u.password == Some(password)
  }

  /** `users.find(...)` in `login`: the first user whose email and password both match. */
  function Authenticate(users: seq<User>, email: string, password: string): (r: Option<User>)
    ensures r.None? <==> forall i :: 0 <= i < |users| ==> !Matches(users[i], email, password)
    ensures r.Some? ==> r.value in users && Matches(r.value, email, password)
  {
    match Seqs.FindIndex(users, (u: User) => Matches(u, email, password))
    case None => None
    case Some(i) => Some(users[i])
  }

  /** The three demo accounts have different emails. */
  lemma DefaultUsersUnique(timezone: string, now: Instant)
    ensures UniqueEmails(DefaultUsers(timezone, now))
  {
  }

  /** With unique emails, the user found is the only one with that email. */
  lemma AuthenticateUnique(users: seq<User>, email: string, password: string)
    requires UniqueEmails(users) && Authenticate(users, email, password).Some?
    ensures forall i :: 0 <= i < |users| && users[i].email == email ==> users[i] == Authenticate(users, email, password).value
  {
  }

  /** `updates.email || updates.name || updates.preferences`: whether the signed-in copy is rewritten. */
  predicate RewritesCurrent(p: UserPatch) {
    (p.email.Some? && p.email.value != "") || (p.name.Some? && p.name.value != "") || p.preferences.Some?
  }

  // ------------------------------------------------------------ lookup tables

  const BadgeNames: map<string, string> :=
    map["first_lesson" := "First Steps", "streak_7" := "Week Warrior", "streak_30" := "Monthly Master",
        "level_up" := "Level Up!", "highlight_master" := "Highlight Hero", "note_taker" := "Note Ninja"]

  const BadgeDescriptions: map<string, string> :=
    map["first_lesson" := "Completed your first lesson", "streak_7" := "Maintained a 7-day learning streak",
        "streak_30" := "Maintained a 30-day learning streak", "level_up" := "Advanced to a new level",
        "highlight_master" := "Made 50 highlights", "note_taker" := "Created 20 notes"]

  /** The icon strings exactly as the source file spells them. */
  const BadgeIcons: map<string, string> :=
    map["first_lesson" := "\U{F8FF}\U{FC}\U{E9}\U{D8}", "streak_7" := "\U{F8FF}\U{FC}\U{EE}\U{2022}",
        "streak_30" := "\U{F8FF}\U{FC}\U{E8}\U{DC}", "level_up" := "\U{201A}\U{2260}\U{EA}",
        "highlight_master" := "\U{201A}\U{FA}\U{AE}", "note_taker" := "\U{F8FF}\U{FC}\U{EC}\U{F9}"]

  const DefaultBadgeIcon := "\U{F8FF}\U{FC}\U{E8}\U{D6}"

  const AchievementNames: map<string, string> :=
    map["perfectionist" := "Perfectionist", "speed_reader" := "Speed Reader", "scholar" := "Scholar",
        "mentor" := "Mentor"]

  const AchievementDescriptions: map<string, string> :=
    map["perfectionist" := "Scored 100% on 10 assessments", "speed_reader" := "Completed 5 lessons in one day",
        "scholar" := "Completed 100 lessons", "mentor" := "Helped 5 other students"]

  const AchievementXP: map<string, int> :=
    map["perfectionist" := 500, "speed_reader" := 300, "scholar" := 1000, "mentor" := 750]

  /** `getBadgeName`: the table's name, and 'Unknown Badge' exactly for ids not in it. */
  function BadgeName(id: string): (r: string)
    ensures id in BadgeNames ==> r == BadgeNames[id]
    ensures r == "Unknown Badge" <==> id !in BadgeNames
  {
    if id in BadgeNames then BadgeNames[id] else "Unknown Badge"
  }

  /** `getBadgeDescription`: 'Achievement unlocked!' exactly for ids not in the table. */
  function BadgeDescription(id: string): (r: string)
    ensures id in BadgeDescriptions ==> r == BadgeDescriptions[id]
    ensures r == "Achievement unlocked!" <==> id !in BadgeDescriptions
  {
    if id in BadgeDescriptions then BadgeDescriptions[id] else "Achievement unlocked!"
  }

  /** `getBadgeIcon`: the table's icon, and the medal icon exactly for ids not in it. */
  function BadgeIcon(id: string): (r: string)
    ensures id in BadgeIcons ==> r == BadgeIcons[id]
    ensures r == DefaultBadgeIcon <==> id !in BadgeIcons
  {
    if id in BadgeIcons then BadgeIcons[id] else DefaultBadgeIcon
  }

  /** `getAchievementName`: 'Achievement' exactly for ids not in the table. */
  function AchievementName(id: string): (r: string)
    ensures id in AchievementNames ==> r == AchievementNames[id]
    ensures r == "Achievement" <==> id !in AchievementNames
  {
    if id in AchievementNames then AchievementNames[id] else "Achievement"
  }

  /** `getAchievementDescription`: 'Special achievement unlocked!' exactly for ids not in the table. */
  function AchievementDescription(id: string): (r: string)
    ensures id in AchievementDescriptions ==> r == AchievementDescriptions[id]
    ensures r == "Special achievement unlocked!" <==> id !in AchievementDescriptions
  {
    if id in AchievementDescriptions then AchievementDescriptions[id] else "Special achievement unlocked!"
  }

  /** `getAchievementXP`: a positive reward, 100 exactly for ids not in the table. */
  function AchievementReward(id: string): (r: int)
    ensures r >= 100
    ensures id in AchievementXP ==> r == AchievementXP[id]
    ensures r == 100 <==> id !in AchievementXP
  {
    if id in AchievementXP then AchievementXP[id] else 100
  }

  /** The badge `awardBadge` builds for an id at a given time. */
  function MakeBadge(id: string, now: Instant): Badge {
    Badge(id, BadgeName(id), BadgeDescription(id), BadgeIcon(id), now)
  }

  /** The achievement `unlockAchievement` builds for an id at a given time. */
  function MakeAchievement(id: string, now: Instant): Achievement {
    Achievement(id, AchievementName(id), AchievementDescription(id), AchievementReward(id), now)
  }

  // ------------------------------------------------------------ keyed tables

  /** `getItem(key) || []`. */
  function ListAt<T>(m: map<string, seq<T>>, key: string): seq<T> {
    if key in m then m[key] else []
  }

  function LessonProgressKey(userId: string, lessonId: string): string {
    "lesson_progress_" + userId + "_" + lessonId
  }

  function HighlightsKey(userId: string, lessonId: string): string {
    "highlights_" + userId + "_" + lessonId
  }

  predicate HasHighlight(hs: seq<Highlight>, id: string) {
    exists i :: 0 <= i < |hs| && hs[i].id == id
  }

  /** `highlights.findIndex(h => h.id === id)`. */
  function HighlightIndex(hs: seq<Highlight>, id: string): (r: Option<nat>)
    ensures r.None? <==> !HasHighlight(hs, id)
    ensures r.Some? ==> r.value < |hs| && hs[r.value].id == id && forall i :: 0 <= i < r.value ==> hs[i].id != id
  {
    Seqs.FindIndex(hs, (h: Highlight) => h.id == id)
  }

  /** `highlights.filter(h => h.id !== id)`: the others in order, shorter exactly when one had the id. */
  function WithoutHighlight(hs: seq<Highlight>, id: string): (r: seq<Highlight>)
    ensures !HasHighlight(r, id)
    ensures Seqs.IsSubsequence(r, hs)
    ensures forall i :: 0 <= i < |hs| && hs[i].id != id ==> hs[i] in r
    ensures |r| != |hs| <==> HasHighlight(hs, id)
  {
    var keep := (h: Highlight) => h.id != id;
    Seqs.FilterIsSubsequence(hs, keep);
    Seqs.FilterShorter(hs, keep);
    Seqs.Filter(hs, keep)
  }

  /**
   * The first lesson, in lesson order, under which this user has a highlight
   * with the id: where `updateHighlight` and `deleteHighlight` stop.
   */
  function FirstLessonWith(lessons: seq<Lesson>, store: map<string, seq<Highlight>>, userId: string, id: string)
    : (r: Option<nat>)
    ensures r.None? <==> forall k :: 0 <= k < |lessons| ==> !HasHighlight(ListAt(store, HighlightsKey(userId, lessons[k].id)), id)
    ensures r.Some? ==> r.value < |lessons| && HasHighlight(ListAt(store, HighlightsKey(userId, lessons[r.value].id)), id)
    ensures r.Some? ==> forall k :: 0 <= k < r.value ==> !HasHighlight(ListAt(store, HighlightsKey(userId, lessons[k].id)), id)
  {
    Seqs.FindIndex(lessons, (l: Lesson) => HasHighlight(ListAt(store, HighlightsKey(userId, l.id)), id))
  }

  /** A lesson holding the id, with none before it holding it, is the first one. */
  lemma FirstLessonWithIs(lessons: seq<Lesson>, store: map<string, seq<Highlight>>, userId: string, id: string, k: nat)
    requires k < |lessons| && HasHighlight(ListAt(store, HighlightsKey(userId, lessons[k].id)), id)
    requires forall j :: 0 <= j < k ==> !HasHighlight(ListAt(store, HighlightsKey(userId, lessons[j].id)), id)
    ensures FirstLessonWith(lessons, store, userId, id) == Some(k)
  {
    var r := FirstLessonWith(lessons, store, userId, id);
    assert r.Some?;
    assert !(r.value < k);
  }

  /** Everything the adapter stores, as one value. */
  datatype Snapshot = Snapshot(users: seq<User>, currentUser: Option<User>, lessons: seq<Lesson>,
                               progress: map<string, Progress>, badges: map<string, seq<Badge>>,
                               achievements: map<string, seq<Achievement>>,
                               lessonProgress: map<string, LessonProgress>,
                               highlights: map<string, seq<Highlight>>)

  /** `localAdapter`; `progress`, `badges` and `achievements` are keyed by user id. */
  class LocalAdapter {
    const timezone: string
    var users: seq<User>
    var currentUser: Option<User>
    var lessons: seq<Lesson>
    var progress: map<string, Progress>
    var badges: map<string, seq<Badge>>
    var achievements: map<string, seq<Achievement>>
    var lessonProgress: map<string, LessonProgress>
    var highlights: map<string, seq<Highlight>>

    function State(): Snapshot
      reads this
    {
      Snapshot(users, currentUser, lessons, progress, badges, achievements, lessonProgress, highlights)
    }

    /** An adapter over empty storage. */
    constructor(timezone: string)
      ensures this.timezone == timezone
      ensures State() == Snapshot([], None, [], map[], map[], map[], map[], map[])
    {
      this.timezone := timezone;
      users, currentUser, lessons := [], None, [];
      progress, badges, achievements, lessonProgress, highlights := map[], map[], map[], map[], map[];
    }

    /** `getUserBadges`: the signed-in user's badges, none without one. */
    function CurrentBadges(): seq<Badge>
      reads this
    {
      if currentUser.None? then [] else ListAt(badges, currentUser.value.id)
    }

    /** `getUserAchievements`. */
    function CurrentAchievements(): seq<Achievement>
      reads this
    {
      if currentUser.None? then [] else ListAt(achievements, currentUser.value.id)
    }

    /**
     * `initializeDefaultUsers` (with `initializeSampleLessons`): an empty user
     * table gets the demo users and an empty lesson table the sample lessons;
     * tables that hold something are left alone.
     */
    method InitializeDefaultUsers(now: Instant)
      modifies this
      ensures users == if |old(users)| == 0 then DefaultUsers(timezone, now) else old(users)
      ensures lessons == if |old(lessons)| == 0 then SampleLessons(now) else old(lessons)
      ensures State() == old(State()).(users := users, lessons := lessons)
      ensures |users| > 0 && |lessons| > 0
    {
      if |users| == 0 {
        users := DefaultUsers(timezone, now);
      }
      if |lessons| == 0 {
        lessons := SampleLessons(now);
      }
    }

    method GetCurrentUser() returns (u: Option<User>)
      ensures u == currentUser
    {
      u := currentUser;
    }

    /**
     * `login`: after seeding, the first user whose email and password both
     * match becomes the current user and is returned; with no such user it
     * throws 'Invalid credentials' and the current user stays.
     */
    method Login(email: string, password: string, now: Instant) returns (r: Result<User>)
      modifies this
      ensures users == if |old(users)| == 0 then DefaultUsers(timezone, now) else old(users)
      ensures lessons == if |old(lessons)| == 0 then SampleLessons(now) else old(lessons)
      ensures r.Err? <==> forall i :: 0 <= i < |users| ==> !Matches(users[i], email, password)
      ensures r.Err? ==> r.msg == "Invalid credentials" && State() == old(State()).(users := users, lessons := lessons)
      ensures r.Ok? ==> r == Ok(Authenticate(users, email, password).value) && r.value in users
                        && Matches(r.value, email, password)
                        && State() == old(State()).(users := users, lessons := lessons, currentUser := Some(r.value))
    {
      InitializeDefaultUsers(now);
      var found := Authenticate(users, email, password);
      if found.None? {
        return Err("Invalid credentials");
      }
      currentUser := found;
      r := Ok(found.value);
    }

    /**
     * `register`: an email already present throws 'User already exists' and
     * changes nothing; otherwise exactly one user is appended, signed in, and
     * given fresh progress (level 1, no XP, no streak, nothing completed).
     * Emails that were distinct stay distinct, and the new credentials log in
     * as the new user.
     */
    method Register(email: string, password: string, name: string, role: UserRole,
                    id: string, progressId: string, now: Instant) returns (r: Result<User>)
      modifies this
      ensures r.Err? <==> HasEmail(old(users), email)
      ensures r.Err? ==> r.msg == "User already exists" && State() == old(State())
      ensures r.Ok? ==> r.value == User(id, email, Some(password), name, role, None, now, None,
                                        UserPreferences("en", timezone, true))
      ensures r.Ok? ==> users == old(users) + [r.value] && currentUser == Some(r.value)
      ensures r.Ok? ==> progress == old(progress)[id := Progress(progressId, id, 1, 0, 0, now, [], [])]
      ensures r.Ok? ==> State() == old(State()).(users := users, currentUser := currentUser, progress := progress)
      ensures UniqueEmails(old(users)) ==> UniqueEmails(users)
      ensures r.Ok? ==> Authenticate(users, email, password) == Some(r.value)
    {
      if Seqs.FindIndex(users, (u: User) => u.email == email).Some? {
        return Err("User already exists");
      }
      var user := User(id, email, Some(password), name, role, None, now, None, UserPreferences("en", timezone, true));
      var before := users;
      users := users + [user];
      currentUser := Some(user);
      progress := progress[id := Progress(progressId, id, 1, 0, 0, now, [], [])];
      r := Ok(user);
      assert forall i :: 0 <= i < |before| ==> users[i] == before[i] && !Matches(users[i], email, password);
      assert Matches(users[|before|], email, password);
      var found := Authenticate(users, email, password);
      assert found.Some?;
      assert found.value == user by {
        var j :| 0 <= j < |users| && users[j] == found.value;
        assert !(j < |before|);
      }
    }

    /** `logout`: nobody is signed in afterwards; the tables stay. */
    method Logout()
      modifies this
      ensures State() == old(State()).(currentUser := None)
    {
      currentUser := None;
    }

    /**
     * `updateUser`: an unknown id throws 'User not found' and changes nothing;
     * otherwise the first user with the id gets the updates merged in, no
     * other user changes, and the signed-in copy is rewritten only when the
     * updates carry an email, a name or preferences.
     */
    method UpdateUser(userId: string, updates: UserPatch) returns (r: Result<User>)
      modifies this
      ensures r.Err? <==> forall i :: 0 <= i < |old(users)| ==> old(users)[i].id != userId
      ensures r.Err? ==> r.msg == "User not found" && State() == old(State())
      ensures r.Ok? ==> exists i :: 0 <= i < |old(users)| && old(users)[i].id == userId
                          && (forall j :: 0 <= j < i ==> old(users)[j].id != userId)
                          && r.value == MergeUser(old(users)[i], updates)
                          && users == old(users)[i := r.value]
      ensures r.Ok? ==> currentUser == (if RewritesCurrent(updates) then Some(r.value) else old(currentUser))
      ensures r.Ok? ==> State() == old(State()).(users := users, currentUser := currentUser)
    {
      var i := Seqs.FindIndex(users, (u: User) => u.id == userId);
      if i.None? {
        return Err("User not found");
      }
      var merged := MergeUser(users[i.value], updates);
      users := users[i.value := merged];
      if RewritesCurrent(updates) {
        currentUser := Some(merged);
      }
      r := Ok(merged);
    }

    /** `getUserProgress`: the signed-in user's stored progress, if any. */
    method GetUserProgress() returns (p: Option<Progress>)
      ensures currentUser.None? ==> p == None
      ensures currentUser.Some? ==> p == if currentUser.value.id in progress then Some(progress[currentUser.value.id]) else None
    {
      if currentUser.None? {
        return None;
      }
      var uid := currentUser.value.id;
      p := if uid in progress then Some(progress[uid]) else None;
    }

    /** `updateProgress`: stores the record under its own user and returns it. */
    method UpdateProgress(p: Progress) returns (saved: Progress)
      modifies this
      ensures saved == p
      ensures State() == old(State()).(progress := old(progress)[p.userId := p])
    {
      progress := progress[p.userId := p];
      saved := p;
    }

    method GetUserBadges() returns (bs: seq<Badge>)
      ensures bs == CurrentBadges()
    {
      bs := CurrentBadges();
    }

    /**
     * `awardBadge`: with nobody signed in it throws 'No user logged in';
     * otherwise the badge named by the lookup tables is appended to the
     * user's badges, whether or not one with that id is already there.
     */
    method AwardBadge(badgeId: string, now: Instant) returns (r: Result<Badge>)
      modifies this
      ensures r.Err? <==> old(currentUser).None?
      ensures r.Err? ==> r.msg == "No user logged in" && State() == old(State())
      ensures r.Ok? ==> r.value == MakeBadge(badgeId, now)
                        && State() == old(State()).(badges := old(badges)[old(currentUser).value.id := old(CurrentBadges()) + [r.value]])
    {
      if currentUser.None? {
        return Err("No user logged in");
      }
      var badge := MakeBadge(badgeId, now);
      badges := badges[currentUser.value.id := CurrentBadges() + [badge]];
      r := Ok(badge);
    }

    method GetUserAchievements() returns (as_: seq<Achievement>)
      ensures as_ == CurrentAchievements()
    {
      as_ := CurrentAchievements();
    }

    /** `unlockAchievement`: as `awardBadge`, for achievements. */
    method UnlockAchievement(achievementId: string, now: Instant) returns (r: Result<Achievement>)
      modifies this
      ensures r.Err? <==> old(currentUser).None?
      ensures r.Err? ==> r.msg == "No user logged in" && State() == old(State())
      ensures r.Ok? ==> r.value == MakeAchievement(achievementId, now)
                        && State() == old(State()).(achievements := old(achievements)[old(currentUser).value.id := old(CurrentAchievements()) + [r.value]])
    {
      if currentUser.None? {
        return Err("No user logged in");
      }
      var achievement := MakeAchievement(achievementId, now);
      achievements := achievements[currentUser.value.id := CurrentAchievements() + [achievement]];
      r := Ok(achievement);
    }

    // ---------------------------------------------------------- lessons

    /** `getLessons`: the stored lessons, in order. */
    method GetLessons() returns (ls: seq<Lesson>)
      ensures ls == lessons
    {
      ls := lessons;
    }

    /** `getLesson`: the first lesson with the id, or null. */
    method GetLesson(id: string) returns (l: Option<Lesson>)
      ensures l.None? <==> forall i :: 0 <= i < |lessons| ==> lessons[i].id != id
      ensures l.Some? ==> exists i :: 0 <= i < |lessons| && lessons[i] == l.value && l.value.id == id
                            && forall j :: 0 <= j < i ==> lessons[j].id != id
    {
      var i := Seqs.FindIndex(lessons, (x: Lesson) => x.id == id);
      l := if i.Some? then Some(lessons[i.value]) else None;
    }

    /** `createLesson`: one lesson appended with the fresh id and both timestamps `now`. */
    method CreateLesson(input: LessonInput, id: string, now: Instant) returns (l: Lesson)
      modifies this
      ensures l.id == id && l.createdAt == now && l.updatedAt == now
      ensures l == Lesson(id, input.title, input.description, input.content, input.authorId, input.difficulty,
                          input.estimatedDuration, input.tags, input.isPublished, now, now)
      ensures State() == old(State()).(lessons := old(lessons) + [l])
    {
      l := Lesson(id, input.title, input.description, input.content, input.authorId, input.difficulty,
                  input.estimatedDuration, input.tags, input.isPublished, now, now);
      lessons := lessons + [l];
    }

    /**
     * `updateLesson`: an unknown id throws 'Lesson not found' and changes
     * nothing; otherwise only the first lesson with the id changes, patched
     * and stamped `now`.
     */
    method UpdateLesson(id: string, updates: LessonPatch, now: Instant) returns (r: Result<Lesson>)
      modifies this
      ensures r.Err? <==> forall i :: 0 <= i < |old(lessons)| ==> old(lessons)[i].id != id
      ensures r.Err? ==> r.msg == "Lesson not found" && State() == old(State())
      ensures r.Ok? ==> exists i :: 0 <= i < |old(lessons)| && old(lessons)[i].id == id
                          && (forall j :: 0 <= j < i ==> old(lessons)[j].id != id)
                          && r.value == PatchLesson(old(lessons)[i], updates, now)
                          && lessons == old(lessons)[i := r.value]
      ensures r.Ok? ==> r.value.updatedAt == now && State() == old(State()).(lessons := lessons)
    {
      var i := Seqs.FindIndex(lessons, (x: Lesson) => x.id == id);
      if i.None? {
        return Err("Lesson not found");
      }
      var patched := PatchLesson(lessons[i.value], updates, now);
      lessons := lessons[i.value := patched];
      r := Ok(patched);
    }

    /**
     * `deleteLesson`: every lesson with the id goes, the rest stay in order,
     * and an id no lesson has changes nothing.
     */
    method DeleteLesson(id: string)
      modifies this
      ensures forall i :: 0 <= i < |lessons| ==> lessons[i].id != id
      ensures Seqs.IsSubsequence(lessons, old(lessons))
      ensures forall i :: 0 <= i < |old(lessons)| && old(lessons)[i].id != id ==> old(lessons)[i] in lessons
      ensures (forall i :: 0 <= i < |old(lessons)| ==> old(lessons)[i].id != id) ==> lessons == old(lessons)
      ensures State() == old(State()).(lessons := lessons)
    {
      var keep := (l: Lesson) => l.id != id;
      Seqs.FilterIsSubsequence(lessons, keep);
      if forall i :: 0 <= i < |lessons| ==> lessons[i].id != id {
        Seqs.FilterAll(lessons, keep);
      }
      lessons := Seqs.Filter(lessons, keep);
    }

    // ---------------------------------------------------------- lesson progress

    /** `getLessonProgress`: the signed-in user's record for the lesson, if any. */
    method GetLessonProgress(lessonId: string) returns (p: Option<LessonProgress>)
      ensures currentUser.None? ==> p == None
      ensures currentUser.Some? ==>
                var key := LessonProgressKey(currentUser.value.id, lessonId);
                p == if key in lessonProgress then Some(lessonProgress[key]) else None
    {
      if currentUser.None? {
        return None;
      }
      var key := LessonProgressKey(currentUser.value.id, lessonId);
      p := if key in lessonProgress then Some(lessonProgress[key]) else None;
    }

    /** `updateLessonProgress`: 'No user logged in' without a user, else the record is stored. */
    method UpdateLessonProgress(lessonId: string, p: LessonProgress) returns (thrown: Option<string>)
      modifies this
      ensures thrown.Some? <==> old(currentUser).None?
      ensures thrown.Some? ==> thrown == Some("No user logged in") && State() == old(State())
      ensures thrown.None? ==>
                State() == old(State()).(lessonProgress := old(lessonProgress)[LessonProgressKey(old(currentUser).value.id, lessonId) := p])
    {
      if currentUser.None? {
        return Some("No user logged in");
      }
      lessonProgress := lessonProgress[LessonProgressKey(currentUser.value.id, lessonId) := p];
      thrown := None;
    }

    // ---------------------------------------------------------- highlights

    /** `getHighlights`. */
    method GetHighlights(lessonId: string) returns (hs: seq<Highlight>)
      ensures currentUser.None? ==> hs == []
      ensures currentUser.Some? ==> hs == ListAt(highlights, HighlightsKey(currentUser.value.id, lessonId))
    {
      if currentUser.None? {
        return [];
      }
      hs := ListAt(highlights, HighlightsKey(currentUser.value.id, lessonId));
    }

    /**
     * `createHighlight`: 'No user logged in' without a user; otherwise the
     * highlight, with the fresh id and time, is appended to the signed-in
     * user's list for its lesson.
     */
    method CreateHighlight(input: HighlightInput, id: string, now: Instant) returns (r: Result<Highlight>)
      modifies this
      ensures r.Err? <==> old(currentUser).None?
      ensures r.Err? ==> r.msg == "No user logged in" && State() == old(State())
      ensures r.Ok? ==> r.value == Highlight(id, input.userId, input.lessonId, input.startPosition, input.endPosition,
                                             input.text, input.color, input.note, now)
      ensures r.Ok? ==>
                var key := HighlightsKey(old(currentUser).value.id, input.lessonId);
                State() == old(State()).(highlights := old(highlights)[key := ListAt(old(highlights), key) + [r.value]])
    {
      if currentUser.None? {
        return Err("No user logged in");
      }
      var h := Highlight(id, input.userId, input.lessonId, input.startPosition, input.endPosition,
                         input.text, input.color, input.note, now);
      var key := HighlightsKey(currentUser.value.id, input.lessonId);
      highlights := highlights[key := ListAt(highlights, key) + [h]];
      r := Ok(h);
    }

    /**
     * `updateHighlight`: lessons are searched in order; in the first whose
     * list holds the id, the first highlight with it is patched and returned.
     * Without a user it throws 'No user logged in', and when no lesson's list
     * holds the id it throws 'Highlight not found'; both change nothing.
     */
    method UpdateHighlight(id: string, updates: HighlightPatch) returns (r: Result<Highlight>)
      modifies this
      ensures old(currentUser).None? ==> r == Err("No user logged in") && State() == old(State())
      ensures old(currentUser).Some? ==>
                match FirstLessonWith(lessons, old(highlights), old(currentUser).value.id, id)
                case None => r == Err("Highlight not found") && State() == old(State())
                case Some(k) =>
                  var key := HighlightsKey(old(currentUser).value.id, lessons[k].id);
                  var hs := ListAt(old(highlights), key);
                  var i := HighlightIndex(hs, id).value;
                  r == Ok(PatchHighlight(hs[i], updates))
                  && State() == old(State()).(highlights := old(highlights)[key := hs[i := r.value]])
    {
      if currentUser.None? {
        return Err("No user logged in");
      }
      var uid := currentUser.value.id;
      var k := 0;
      while k < |lessons|
        invariant 0 <= k <= |lessons|
        invariant forall j :: 0 <= j < k ==> !HasHighlight(ListAt(highlights, HighlightsKey(uid, lessons[j].id)), id)
        invariant State() == old(State())
      {
        var key := HighlightsKey(uid, lessons[k].id);
        var hs := ListAt(highlights, key);
        var i := HighlightIndex(hs, id);
        if i.Some? {
          FirstLessonWithIs(lessons, highlights, uid, id, k);
          var patched := PatchHighlight(hs[i.value], updates);
          highlights := highlights[key := hs[i.value := patched]];
          return Ok(patched);
        }
        k := k + 1;
      }
      r := Err("Highlight not found");
    }

    /**
     * `deleteHighlight`: lessons are searched in order, and from the first
     * whose list holds the id every highlight with it is removed, the rest
     * kept in order. Failures are as for `updateHighlight`.
     */
    method DeleteHighlight(id: string) returns (thrown: Option<string>)
      modifies this
      ensures old(currentUser).None? ==> thrown == Some("No user logged in") && State() == old(State())
      ensures old(currentUser).Some? ==>
                match FirstLessonWith(lessons, old(highlights), old(currentUser).value.id, id)
                case None => thrown == Some("Highlight not found") && State() == old(State())
                case Some(k) =>
                  var key := HighlightsKey(old(currentUser).value.id, lessons[k].id);
                  thrown.None?
                  && State() == old(State()).(highlights := old(highlights)[key := WithoutHighlight(ListAt(old(highlights), key), id)])
    {
      if currentUser.None? {
        return Some("No user logged in");
      }
      var uid := currentUser.value.id;
      var k := 0;
      while k < |lessons|
        invariant 0 <= k <= |lessons|
        invariant forall j :: 0 <= j < k ==> !HasHighlight(ListAt(highlights, HighlightsKey(uid, lessons[j].id)), id)
        invariant State() == old(State())
      {
        var key := HighlightsKey(uid, lessons[k].id);
        var hs := ListAt(highlights, key);
        var filtered := WithoutHighlight(hs, id);
        if |filtered| != |hs| {
          FirstLessonWithIs(lessons, highlights, uid, id, k);
          highlights := highlights[key := filtered];
          return None;
        }
        k := k + 1;
      }
      thrown := Some("Highlight not found");
    }
  }
}
