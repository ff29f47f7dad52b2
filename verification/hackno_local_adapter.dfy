/**
 * The HACKNO portal's local adapter: users, progress items, level records,
 * badges and per-user settings in one stored data object. Every operation
 * loads the object, changes it and saves it back; here the stored object is
 * the adapter's `data` field, so loading reads the field and saving assigns
 * it. `Date.now()` and the ISO timestamp are parameters, and the password
 * encoding (`btoa`) is a function fixed when the adapter is made.
 */
module HacknoLocalAdapter {
  import opened Wrappers
  import opened Strings
  import opened Seqs

  datatype UserRec = UserRec(id: string, username: string, password: string, createdAt: string, isAdmin: bool)
  datatype LevelRec = LevelRec(userId: string, level: int, points: int, lastUpdated: string)
  datatype ProgressItem = ProgressItem(id: string, userId: string, lessonId: string, kind: string,
                                       content: string, notes: string, timestamp: string)
  datatype BadgeRec = BadgeRec(userId: string, badge: string, awardedAt: string)

  /** The stored object: four lists and the settings keyed by user id. */
  datatype Data = Data(users: seq<UserRec>, progress: seq<ProgressItem>, badges: seq<BadgeRec>,
                       levels: seq<LevelRec>, settings: map<string, map<string, string>>)

  /** `initializeData`'s default object. */
  const EmptyData := Data([], [], [], [], map[])

  // ------------------------------------------------------------ users

  /** `username === 'admin'`. */
  predicate IsAdminName(username: string) {
    username == "admin"
  }

  /** The user record and the level record `createUser` appends. */
  function WithUser(d: Data, user: UserRec, iso: string): Data {
    d.(users := d.users + [user], levels := d.levels + [LevelRec(user.id, 1, 0, iso)])
  }

  predicate Matches(u: UserRec, encode: string -> string, username: string, password: string) {
    u.username == username && u.password == encode(password)
  }

  /** `authenticateUser`: the first user with the name whose stored password is the encoded one. */
  function Authenticate(users: seq<UserRec>, encode: string -> string, username: string, password: string): (r: Option<UserRec>)
    ensures r.None? <==> forall i :: 0 <= i < |users| ==> !Matches(users[i], encode, username, password)
    ensures r.Some? ==> r.value in users && Matches(r.value, encode, username, password)
  {
    match FindIndex(users, (u: UserRec) => Matches(u, encode, username, password))
    case None => None
    case Some(i) => Some(users[i])
  }

  ghost predicate Injective(encode: string -> string) {
    forall a, b :: encode(a) == encode(b) ==> a == b
  }

  /** A newly created user signs in with the password given at creation. */
  lemma CreatedUserAuthenticates(d: Data, user: UserRec, iso: string, encode: string -> string, password: string)
    requires user.password == encode(password)
    ensures Authenticate(WithUser(d, user, iso).users, encode, user.username, password).Some?
  {
    var users := WithUser(d, user, iso).users;
    assert users[|users| - 1] == user;
  }

  /**
   * With an injective encoding, a name held by one user signs in with that
   * user's password and with no other.
   */
  lemma OnlyTheRightPassword(users: seq<UserRec>, encode: string -> string, k: nat, password: string, attempt: string)
    requires Injective(encode)
    requires k < |users| && users[k].password == encode(password)
    requires forall i :: 0 <= i < |users| && i != k ==> users[i].username != users[k].username
    ensures Authenticate(users, encode, users[k].username, attempt).Some? <==> attempt == password
  {
    if attempt == password {
      assert Matches(users[k], encode, users[k].username, attempt);
    }
  }

  // ------------------------------------------------------------ points and levels

  /** `getPointsForAction`: the points table, 5 for any other action. */
  function PointsForAction(kind: string): (p: int)
    ensures p >= 5
    ensures kind == "highlight" ==> p == 10
    ensures kind == "note" ==> p == 15
    ensures kind == "completion" ==> p == 25
    ensures kind == "quiz" ==> p == 20
    ensures kind !in {"highlight", "note", "completion", "quiz"} ==> p == 5
  {
    if kind == "highlight" then 10
    else if kind == "note" then 15
    else if kind == "completion" then 25
    else if kind == "quiz" then 20
    else 5
  }

  /** `Math.floor(points / 100) + 1`: one level per hundred points. */
  function LevelFor(points: int): (level: int)
    ensures (level - 1) * 100 <= points < level * 100
  {
    points / 100 + 1
  }

  /** The test `levels.find` uses: the record belongs to the user. */
  function LevelOf(userId: string): LevelRec -> bool {
    (l: LevelRec) => l.userId == userId
  }

  /** The level records after `awardPoints`: the user's first record gains the points and its level follows. */
  function AwardedLevels(levels: seq<LevelRec>, userId: string, points: int, iso: string): (r: seq<LevelRec>)
    ensures |r| == |levels|
    ensures FindIndex(levels, LevelOf(userId)).None? ==> r == levels
    ensures FindIndex(levels, LevelOf(userId)).Some? ==>
              var i := FindIndex(levels, LevelOf(userId)).value;
              r[i].userId == userId && r[i].points == levels[i].points + points && r[i].level == LevelFor(r[i].points)
              && forall j :: 0 <= j < |levels| && j != i ==> r[j] == levels[j]
  {
    match FindIndex(levels, LevelOf(userId))
    case None => levels
    case Some(i) =>
      var p := levels[i].points + points;
      levels[i := levels[i].(points := p, level := LevelFor(p), lastUpdated := iso)]
  }

  /** Every record's level is the one its points give. */
  predicate LevelsConsistent(levels: seq<LevelRec>) {
    forall i :: 0 <= i < |levels| ==> levels[i].level == LevelFor(levels[i].points)
  }

  /** Awarding points keeps every level in step with its points. */
  lemma AwardKeepsLevelsConsistent(levels: seq<LevelRec>, userId: string, points: int, iso: string)
    requires LevelsConsistent(levels)
    ensures LevelsConsistent(AwardedLevels(levels, userId, points, iso))
  {
  }

  /** What `getUserLevel` reports: a level and a point total. */
  datatype Standing = Standing(level: int, points: int)

  /** `getUserLevel`: the user's first record, or level 1 with no points. */
  function StandingOf(d: Data, userId: string): (s: Standing)
    ensures FindIndex(d.levels, LevelOf(userId)).None? ==> s == Standing(1, 0)
    ensures FindIndex(d.levels, LevelOf(userId)).Some? ==>
              var l := d.levels[FindIndex(d.levels, LevelOf(userId)).value];
              l.userId == userId && s == Standing(l.level, l.points)
  {
    match FindIndex(d.levels, LevelOf(userId))
    case None => Standing(1, 0)
    case Some(i) => Standing(d.levels[i].level, d.levels[i].points)
  }

  /** A user created with an id no record has yet stands at level 1 with no points. */
  lemma NewUserStartsAtLevelOne(d: Data, user: UserRec, iso: string)
    requires forall i :: 0 <= i < |d.levels| ==> d.levels[i].userId != user.id
    ensures StandingOf(WithUser(d, user, iso), user.id) == Standing(1, 0)
  {
    var levels := WithUser(d, user, iso).levels;
    assert LevelOf(user.id)(levels[|levels| - 1]);
  }

  /** After points are awarded, the user's standing holds them, with the level they give. */
  lemma AwardRaisesStanding(d: Data, userId: string, points: int, iso: string)
    requires FindIndex(d.levels, LevelOf(userId)).Some?
    ensures var after := d.(levels := AwardedLevels(d.levels, userId, points, iso));
            StandingOf(after, userId).points == StandingOf(d, userId).points + points
            && StandingOf(after, userId).level == LevelFor(StandingOf(after, userId).points)
  {
    var i := FindIndex(d.levels, LevelOf(userId)).value;
    var r := AwardedLevels(d.levels, userId, points, iso);
    assert forall j :: 0 <= j < i ==> r[j] == d.levels[j];
    assert FindIndex(r, LevelOf(userId)) == Some(i);
  }

  // ------------------------------------------------------------ progress

  function ProgressOf(userId: string): ProgressItem -> bool {
    (p: ProgressItem) => p.userId == userId
  }

  /** `getUserProgress`: the user's items, in the order they were added. */
  function UserProgress(d: Data, userId: string): (r: seq<ProgressItem>)
    ensures forall i :: 0 <= i < |r| ==> r[i].userId == userId && r[i] in d.progress
    ensures forall i :: 0 <= i < |d.progress| && d.progress[i].userId == userId ==> d.progress[i] in r
  {
    Filter(d.progress, ProgressOf(userId))
  }

  /** The item `addProgress` builds. */
  function NewItem(userId: string, kind: string, content: string, notes: string, lessonId: string,
                   now: nat, iso: string): ProgressItem {
    ProgressItem("progress_" + NatToString(now), userId, lessonId, kind, content, notes, iso)
  }

  /** Adding an item appends it to its user's progress and leaves every other user's alone. */
  lemma AppendedToUserProgress(d: Data, item: ProgressItem, other: string)
    requires other != item.userId
    ensures UserProgress(d.(progress := d.progress + [item]), item.userId) == UserProgress(d, item.userId) + [item]
    ensures UserProgress(d.(progress := d.progress + [item]), other) == UserProgress(d, other)
  {
    FilterAppend(d.progress, [item], ProgressOf(item.userId));
    FilterAppend(d.progress, [item], ProgressOf(other));
  }

  // ------------------------------------------------------------ badges

  /** A badge rule: its name and how many of the user's items of `kind` (of any kind for `None`) it needs. */
  datatype Rule = Rule(name: string, kind: Option<string>, threshold: nat)

  /** The three rules, in the order they are checked. */
  const Rules: seq<Rule> := [Rule("First Highlight", Some("highlight"), 1),
                             Rule("Note Taker", Some("note"), 5),
                             Rule("Dedicated Learner", None, 10)]

  function OfKind(kind: string): ProgressItem -> bool {
    (p: ProgressItem) => p.kind == kind
  }

  /** `rule.condition()` on the user's progress. */
  predicate RuleHolds(rule: Rule, userProgress: seq<ProgressItem>) {
    match rule.kind
    case None => |userProgress| >= rule.threshold
    case Some(kind) => Count(userProgress, OfKind(kind)) >= rule.threshold
  }

  function BadgeOf(userId: string): BadgeRec -> bool {
    (b: BadgeRec) => b.userId == userId
  }

  /** `getUserBadges`: the user's badge records. */
  function UserBadges(d: Data, userId: string): (r: seq<BadgeRec>)
    ensures forall i :: 0 <= i < |r| ==> r[i].userId == userId && r[i] in d.badges
    ensures forall i :: 0 <= i < |d.badges| && d.badges[i].userId == userId ==> d.badges[i] in r
  {
    Filter(d.badges, BadgeOf(userId))
  }

  /** `userBadges.some(b => b.badge === name)`. */
  predicate HasBadge(userBadges: seq<BadgeRec>, name: string) {
    exists b :: b in userBadges && b.badge == name
  }

  /** One rule's contribution: its badge when not yet held and the condition holds. */
  function Grant(rule: Rule, userProgress: seq<ProgressItem>, userBadges: seq<BadgeRec>,
                 userId: string, iso: string): seq<BadgeRec> {
    if !HasBadge(userBadges, rule.name) && RuleHolds(rule, userProgress) then [BadgeRec(userId, rule.name, iso)] else []
  }

  /** The badges the first k rules add, in rule order. */
  function EarnedUpTo(rules: seq<Rule>, userProgress: seq<ProgressItem>, userBadges: seq<BadgeRec>,
                      userId: string, iso: string, k: nat): seq<BadgeRec>
    requires k <= |rules|
  {
    if k == 0 then []
    else EarnedUpTo(rules, userProgress, userBadges, userId, iso, k - 1)
         + Grant(rules[k - 1], userProgress, userBadges, userId, iso)
  }

  /** The badges `checkAndAwardBadges` adds for the user. */
  function Earned(d: Data, userId: string, iso: string): seq<BadgeRec> {
    EarnedUpTo(Rules, UserProgress(d, userId), UserBadges(d, userId), userId, iso, |Rules|)
  }

  function Names(rules: seq<Rule>): (ns: seq<string>)
    ensures |ns| == |rules| && forall i :: 0 <= i < |rules| ==> ns[i] == rules[i].name
  {
    seq(|rules|, i requires 0 <= i < |rules| => rules[i].name)
  }

  /** Every added badge is the user's, was not held, and is named by one of the rules checked so far. */
  lemma {:induction false} EarnedShape(rules: seq<Rule>, up: seq<ProgressItem>, ub: seq<BadgeRec>,
                                       userId: string, iso: string, k: nat)
    requires k <= |rules|
    ensures forall b :: b in EarnedUpTo(rules, up, ub, userId, iso, k) ==>
              b.userId == userId && !HasBadge(ub, b.badge) && b.badge in Names(rules)[..k]
  {
    if k > 0 {
      EarnedShape(rules, up, ub, userId, iso, k - 1);
      var prev := EarnedUpTo(rules, up, ub, userId, iso, k - 1);
      var e := EarnedUpTo(rules, up, ub, userId, iso, k);
      assert e == prev + Grant(rules[k - 1], up, ub, userId, iso);
      forall b | b in e
        ensures b.userId == userId && !HasBadge(ub, b.badge) && b.badge in Names(rules)[..k]
      {
        if b in prev {
          var j :| 0 <= j < k - 1 && Names(rules)[..k - 1][j] == b.badge;
          assert Names(rules)[..k][j] == b.badge;
        } else {
          assert Names(rules)[..k][k - 1] == rules[k - 1].name;
        }
      }
    }
  }

  /** A rule's name does not occur among the names of the rules before it. */
  lemma NameNotEarlier(rules: seq<Rule>, k: nat)
    requires Distinct(Names(rules)) && k < |rules|
    ensures rules[k].name !in Names(rules)[..k]
  {
  }

  predicate NamesDistinct(badges: seq<BadgeRec>) {
    forall i, j :: 0 <= i < j < |badges| ==> badges[i].badge != badges[j].badge
  }

  /** With distinctly named rules, the added badges have distinct names. */
  lemma {:induction false} EarnedDistinct(rules: seq<Rule>, up: seq<ProgressItem>, ub: seq<BadgeRec>,
                                          userId: string, iso: string, k: nat)
    requires Distinct(Names(rules)) && k <= |rules|
    ensures NamesDistinct(EarnedUpTo(rules, up, ub, userId, iso, k))
  {
    if k > 0 {
      EarnedDistinct(rules, up, ub, userId, iso, k - 1);
      EarnedShape(rules, up, ub, userId, iso, k - 1);
      NameNotEarlier(rules, k - 1);
      var prev := EarnedUpTo(rules, up, ub, userId, iso, k - 1);
      var e := EarnedUpTo(rules, up, ub, userId, iso, k);
      forall i, j | 0 <= i < j < |e| ensures e[i].badge != e[j].badge {
        if j >= |prev| {
          assert e[j].badge == rules[k - 1].name;
          assert e[i] == prev[i] && prev[i] in prev;
        } else {
          assert e[i] == prev[i] && e[j] == prev[j];
        }
      }
    }
  }

  /** A rule's badge is added exactly when it is not held and its condition holds. */
  lemma {:induction false} EarnedIff(rules: seq<Rule>, up: seq<ProgressItem>, ub: seq<BadgeRec>,
                                     userId: string, iso: string, k: nat, r: nat)
    requires Distinct(Names(rules)) && r < k <= |rules|
    ensures BadgeRec(userId, rules[r].name, iso) in EarnedUpTo(rules, up, ub, userId, iso, k)
            <==> !HasBadge(ub, rules[r].name) && RuleHolds(rules[r], up)
  {
    var prev := EarnedUpTo(rules, up, ub, userId, iso, k - 1);
    var b := BadgeRec(userId, rules[r].name, iso);
    if r == k - 1 {
      EarnedShape(rules, up, ub, userId, iso, k - 1);
      NameNotEarlier(rules, r);
    } else {
      EarnedIff(rules, up, ub, userId, iso, k - 1, r);
      assert Names(rules)[r] != Names(rules)[k - 1];
    }
  }

  /** The three thresholds: a badge is added exactly when not held and its count is reached. */
  lemma BadgeThresholds(d: Data, userId: string, iso: string)
    ensures var up, ub := UserProgress(d, userId), UserBadges(d, userId);
            (BadgeRec(userId, "First Highlight", iso) in Earned(d, userId, iso) <==>
                  !HasBadge(ub, "First Highlight") && Count(up, OfKind("highlight")) >= 1)
            && (BadgeRec(userId, "Note Taker", iso) in Earned(d, userId, iso) <==>
                  !HasBadge(ub, "Note Taker") && Count(up, OfKind("note")) >= 5)
            && (BadgeRec(userId, "Dedicated Learner", iso) in Earned(d, userId, iso) <==>
                  !HasBadge(ub, "Dedicated Learner") && |up| >= 10)
  {
    var up, ub := UserProgress(d, userId), UserBadges(d, userId);
    assert Distinct(Names(Rules));
    EarnedIff(Rules, up, ub, userId, iso, 3, 0);
    EarnedIff(Rules, up, ub, userId, iso, 3, 1);
    EarnedIff(Rules, up, ub, userId, iso, 3, 2);
  }

  /** No user holds two badges of the same name. */
  predicate BadgesDistinct(badges: seq<BadgeRec>) {
    forall i, j :: 0 <= i < j < |badges| && badges[i].userId == badges[j].userId ==> badges[i].badge != badges[j].badge
  }

  /** `checkAndAwardBadges` never gives a user a badge they already hold. */
  lemma AwardKeepsBadgesDistinct(d: Data, userId: string, iso: string)
    requires BadgesDistinct(d.badges)
    ensures BadgesDistinct(d.badges + Earned(d, userId, iso))
  {
    var up, ub := UserProgress(d, userId), UserBadges(d, userId);
    assert Distinct(Names(Rules));
    EarnedShape(Rules, up, ub, userId, iso, 3);
    EarnedDistinct(Rules, up, ub, userId, iso, 3);
    AppendUnheld(d.badges, Earned(d, userId, iso), userId, ub);
  }

  /**
   * Appending distinctly named badges for one user, none of which that user
   * held before, keeps every user's badges distinct.
   */
  lemma AppendUnheld(badges: seq<BadgeRec>, e: seq<BadgeRec>, userId: string, ub: seq<BadgeRec>)
    requires BadgesDistinct(badges) && NamesDistinct(e)
    requires forall b :: b in e ==> b.userId == userId && !HasBadge(ub, b.badge)
    requires forall i :: 0 <= i < |badges| && badges[i].userId == userId ==> badges[i] in ub
    ensures BadgesDistinct(badges + e)
  {
    var all := badges + e;
    forall i, j | 0 <= i < j < |all| && all[i].userId == all[j].userId
      ensures all[i].badge != all[j].badge
    {
      if j >= |badges| && i < |badges| {
        var x := e[j - |badges|];
        assert x in e;
        assert all[i] == badges[i] && all[i] in ub;
      } else if i >= |badges| {
        assert all[i] == e[i - |badges|] && all[j] == e[j - |badges|];
      }
    }
  }

  // ------------------------------------------------------------ settings

  /** `getUserSettings`: the user's settings, or none for a user who never saved any. */
  function UserSettings(d: Data, userId: string): (s: map<string, string>)
    ensures userId in d.settings ==> s == d.settings[userId]
    ensures userId !in d.settings ==> s == map[]
  {
    if userId in d.settings then d.settings[userId] else map[]
  }

  /** The data after `saveUserSettings`: the new keys laid over the user's existing settings. */
  function SettingsSaved(d: Data, userId: string, s: map<string, string>): Data {
    d.(settings := d.settings[userId := UserSettings(d, userId) + s])
  }

  /** A saved key reads back its new value, any other key its old one, and other users see no change. */
  lemma SettingsOverlay(d: Data, userId: string, s: map<string, string>, key: string, other: string)
    requires other != userId
    ensures var after := UserSettings(SettingsSaved(d, userId, s), userId);
            (key in after <==> key in s || key in UserSettings(d, userId))
            && (key in s ==> after[key] == s[key])
            && (key !in s && key in UserSettings(d, userId) ==> after[key] == UserSettings(d, userId)[key])
    ensures UserSettings(SettingsSaved(d, userId, s), other) == UserSettings(d, other)
  {
  }

  // ------------------------------------------------------------ scoreboard

  datatype Entry = Entry(userId: string, username: string, level: int, points: int)

  function HasId(id: string): UserRec -> bool {
    (u: UserRec) => u.id == id
  }

  /** `user ? user.username : 'Unknown'` for the first user with the id. */
  function UsernameFor(users: seq<UserRec>, id: string): (name: string)
    ensures FindIndex(users, HasId(id)).None? ==> name == "Unknown"
    ensures FindIndex(users, HasId(id)).Some? ==> name == users[FindIndex(users, HasId(id)).value].username
  {
    match FindIndex(users, HasId(id))
    case None => "Unknown"
    case Some(i) => users[i].username
  }

  function EntryFor(users: seq<UserRec>, l: LevelRec): Entry {
    Entry(l.userId, UsernameFor(users, l.userId), l.level, l.points)
  }

  /** One entry per level record, in record order. */
  function Entries(d: Data): (r: seq<Entry>)
    ensures |r| == |d.levels| && forall i :: 0 <= i < |r| ==> r[i] == EntryFor(d.users, d.levels[i])
  {
    seq(|d.levels|, i requires 0 <= i < |d.levels| => EntryFor(d.users, d.levels[i]))
  }

  function PointsOf(e: Entry): int {
    e.points
  }

  /** `getScoreboard`: the entries sorted by points, most first. */
  function Scoreboard(d: Data): (r: seq<Entry>)
    ensures |r| == |d.levels|
    ensures SortedDesc(r, PointsOf)
    ensures multiset(r) == multiset(Entries(d))
  {
    SortDesc(Entries(d), PointsOf)
  }

  /** Every level record appears on the scoreboard, under its user's name or 'Unknown'. */
  lemma EveryRecordListed(d: Data, k: nat)
    requires k < |d.levels|
    ensures EntryFor(d.users, d.levels[k]) in Scoreboard(d)
  {
    var e := Entries(d);
    assert e[k] in multiset(e);
  }

  // ------------------------------------------------------------ addProgress

  /** The stored data once `addProgress` as written returns: the item and nothing else. */
  function RecordedAsWritten(d: Data, item: ProgressItem): Data {
    d.(progress := d.progress + [item])
  }

  /** The intended effect of `addProgress`: the item, then the points for it, then the badges it earns. */
  function Recorded(d: Data, item: ProgressItem, iso: string): Data {
    var d1 := d.(progress := d.progress + [item]);
    var d2 := d1.(levels := AwardedLevels(d1.levels, item.userId, PointsForAction(item.kind), iso));
    d2.(badges := d2.badges + Earned(d2, item.userId, iso))
  }

  /** As written, an action never changes the user's standing. */
  lemma AsWrittenKeepsStanding(d: Data, item: ProgressItem)
    ensures StandingOf(RecordedAsWritten(d, item), item.userId) == StandingOf(d, item.userId)
  {
  }

  /** As intended, an action raises a user with a level record by at least five points. */
  lemma RecordedAwardsPoints(d: Data, item: ProgressItem, iso: string)
    requires FindIndex(d.levels, LevelOf(item.userId)).Some?
    ensures StandingOf(Recorded(d, item, iso), item.userId).points
            == StandingOf(d, item.userId).points + PointsForAction(item.kind)
            >= StandingOf(d, item.userId).points + 5
  {
    var d1 := d.(progress := d.progress + [item]);
    AwardRaisesStanding(d1, item.userId, PointsForAction(item.kind), iso);
  }

  /** As intended, the user's first highlight earns 'First Highlight'. */
  lemma RecordedFirstHighlight(d: Data, item: ProgressItem, iso: string)
    requires item.kind == "highlight"
    requires !HasBadge(UserBadges(d, item.userId), "First Highlight")
    ensures BadgeRec(item.userId, "First Highlight", iso) in Recorded(d, item, iso).badges
  {
    var d1 := d.(progress := d.progress + [item]);
    var d2 := d1.(levels := AwardedLevels(d1.levels, item.userId, PointsForAction(item.kind), iso));
    var up := UserProgress(d2, item.userId);
    AppendedToUserProgress(d, item, item.userId + "'");
    assert up[|up| - 1] == item;
    CountPositive(up, OfKind("highlight"), |up| - 1);
    assert UserBadges(d2, item.userId) == UserBadges(d, item.userId);
    BadgeThresholds(d2, item.userId, iso);
  }

  /** A sequence with an entry satisfying `p` has a positive count. */
  lemma {:induction false} CountPositive<T>(s: seq<T>, p: T -> bool, k: nat)
    requires k < |s| && p(s[k])
    ensures Count(s, p) >= 1
  {
    if k > 0 {
      CountPositive(s[1..], p, k - 1);
    }
  }

  const Alice := UserRec("user_1", "alice", "cGFzcw==", "t0", false)

  /** A new user, as created: one level record at level 1 with no points. */
  const Fresh := Data([Alice], [], [], [LevelRec("user_1", 1, 0, "t0")], map[])

  /**
   * The new user's first highlight: as written the 10 points and the
   * 'First Highlight' badge are lost; as intended both are kept.
   */
  lemma FirstHighlightLost()
    ensures var item := NewItem("user_1", "highlight", "text", "", "", 2, "t1");
            StandingOf(RecordedAsWritten(Fresh, item), "user_1") == Standing(1, 0)
            && RecordedAsWritten(Fresh, item).badges == []
            && StandingOf(Recorded(Fresh, item, "t1"), "user_1") == Standing(1, 10)
            && BadgeRec("user_1", "First Highlight", "t1") in Recorded(Fresh, item, "t1").badges
  {
    var item := NewItem("user_1", "highlight", "text", "", "", 2, "t1");
    assert FindIndex(Fresh.levels, LevelOf("user_1")) == Some(0);
    RecordedAwardsPoints(Fresh, item, "t1");
    assert !HasBadge(UserBadges(Fresh, "user_1"), "First Highlight");
    RecordedFirstHighlight(Fresh, item, "t1");
  }

  // ------------------------------------------------------------ the adapter

  class LocalAdapter {
    /** The stored data object. */
    var data: Data
    /** `btoa`, as the adapter's password encoding. */
    const encode: string -> string

    /** `initializeData`: the stored object when there is one, the empty default otherwise. */
    constructor(stored: Option<Data>, encode: string -> string)
      ensures data == stored.GetOr(EmptyData) && this.encode == encode
    {
      data := stored.GetOr(EmptyData);
      this.encode := encode;
    }

    /** `createUser`: a user `user_<now>`, administrator iff named 'admin', and a level-1 record with no points. */
    method CreateUser(username: string, password: string, now: nat, iso: string) returns (user: UserRec)
      modifies this
      ensures user == UserRec("user_" + NatToString(now), username, encode(password), iso, IsAdminName(username))
      ensures data == WithUser(old(data), user, iso)
    {
      var d := data;
      var userId := "user_" + NatToString(now);
      user := UserRec(userId, username, encode(password), iso, username == "admin");
      d := d.(users := d.users + [user]);
      d := d.(levels := d.levels + [LevelRec(userId, 1, 0, iso)]);
      data := d;
    }

    /** `awardPoints`: the user's first level record gains the points; without one nothing changes. */
    method AwardPoints(userId: string, points: int, iso: string)
      modifies this
      ensures data == old(data).(levels := AwardedLevels(old(data).levels, userId, points, iso))
    {
      var d := data;
      var found := FindIndex(d.levels, LevelOf(userId));
      if found.Some? {
        var i := found.value;
        var userLevel := d.levels[i];
        var p := userLevel.points + points;
        d := d.(levels := d.levels[i := userLevel.(points := p, level := LevelFor(p), lastUpdated := iso)]);
      }
      data := d;
    }

    /** `checkAndAwardBadges`: each rule in turn adds its badge when not yet held and its condition holds. */
    method CheckAndAwardBadges(userId: string, actionType: string, iso: string)
      modifies this
      ensures data == old(data).(badges := old(data).badges + Earned(old(data), userId, iso))
    {
      var d := data;
      var userProgress := UserProgress(d, userId);
      var userBadges := UserBadges(d, userId);
      var added: seq<BadgeRec> := [];
      for k := 0 to |Rules|
        invariant added == EarnedUpTo(Rules, userProgress, userBadges, userId, iso, k)
      {
        var rule := Rules[k];
        assert EarnedUpTo(Rules, userProgress, userBadges, userId, iso, k + 1)
            == added + Grant(rule, userProgress, userBadges, userId, iso);
        if !HasBadge(userBadges, rule.name) && RuleHolds(rule, userProgress) {
          added := added + [BadgeRec(userId, rule.name, iso)];
        }
      }
      data := d.(badges := d.badges + added);
    }

    /**
     * `addProgress` as written: it takes a snapshot, appends the item to it,
     * lets `awardPoints` and `checkAndAwardBadges` save their own copies, and
     * then saves the snapshot over them.
     */
    method AddProgress(userId: string, kind: string, content: string, notes: string, lessonId: string,
                       now: nat, iso: string) returns (item: ProgressItem)
      modifies this
      ensures item == NewItem(userId, kind, content, notes, lessonId, now, iso)
      ensures data == RecordedAsWritten(old(data), item)
    {
      var snapshot := data;
      item := ProgressItem("progress_" + NatToString(now), userId, lessonId, kind, content, notes, iso);
      snapshot := snapshot.(progress := snapshot.progress + [item]);
      AwardPoints(userId, PointsForAction(kind), iso);
      CheckAndAwardBadges(userId, kind, iso);
      data := snapshot;
    }

    /** `addProgress` as intended: the item is saved first, so the points and badges it earns are kept. */
    method AddProgressCorrected(userId: string, kind: string, content: string, notes: string, lessonId: string,
                                now: nat, iso: string) returns (item: ProgressItem)
      modifies this
      ensures item == NewItem(userId, kind, content, notes, lessonId, now, iso)
      ensures data == Recorded(old(data), item, iso)
    {
      item := ProgressItem("progress_" + NatToString(now), userId, lessonId, kind, content, notes, iso);
      data := data.(progress := data.progress + [item]);
      AwardPoints(userId, PointsForAction(kind), iso);
      CheckAndAwardBadges(userId, kind, iso);
    }

    /** `saveUserSettings`: the new keys laid over the user's settings. */
    method SaveUserSettings(userId: string, settings: map<string, string>)
      modifies this
      ensures data == SettingsSaved(old(data), userId, settings)
    {
      var d := data;
      var current := if userId in d.settings then d.settings[userId] else map[];
      d := d.(settings := d.settings[userId := current + settings]);
      data := d;
    }
  }
}
