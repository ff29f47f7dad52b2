/**
 * The records of the `src` portal: users, lessons, progress, badges,
 * achievements and highlights. A clock reading is an `Instant`: the
 * calendar day it falls on (what `toDateString` compares) and the
 * milliseconds since the epoch.
 */
module SrcTypes {
  import opened Wrappers

  datatype Instant = Instant(day: int, ms: int)

  datatype UserRole = Student | Teacher | Admin | Parent

  datatype UserPreferences = UserPreferences(language: string, timezone: string, notifications: bool)

  datatype User = User(id: string, email: string, password: Option<string>, name: string, role: UserRole,
                       avatar: Option<string>, createdAt: Instant, updatedAt: Option<Instant>,
                       preferences: UserPreferences)

  /** `Partial<User>`: a supplied field replaces the stored one. */
  datatype UserPatch = UserPatch(id: Option<string>, email: Option<string>, password: Option<Option<string>>,
                                 name: Option<string>, role: Option<UserRole>, avatar: Option<Option<string>>,
                                 createdAt: Option<Instant>, updatedAt: Option<Option<Instant>>,
                                 preferences: Option<UserPreferences>)

  /** `{ ...user, ...updates }`. */
  function MergeUser(u: User, p: UserPatch): (r: User)
    ensures r.createdAt == p.createdAt.GetOr(u.createdAt) && r.updatedAt == p.updatedAt.GetOr(u.updatedAt)
    ensures r.password == p.password.GetOr(u.password) && r.avatar == p.avatar.GetOr(u.avatar)
    ensures r.id == p.id.GetOr(u.id) && r.email == p.email.GetOr(u.email) && r.name == p.name.GetOr(u.name)
    ensures r.role == p.role.GetOr(u.role) && r.preferences == p.preferences.GetOr(u.preferences)
  {
    User(p.id.GetOr(u.id), p.email.GetOr(u.email), p.password.GetOr(u.password), p.name.GetOr(u.name),
         p.role.GetOr(u.role), p.avatar.GetOr(u.avatar), p.createdAt.GetOr(u.createdAt), p.updatedAt.GetOr(u.updatedAt),
         p.preferences.GetOr(u.preferences))
  }

  /** Applying the same update twice is applying it once. */
  lemma MergeUserTwice(u: User, p: UserPatch)
    ensures MergeUser(MergeUser(u, p), p) == MergeUser(u, p)
  {
  }


  /** The lesson fields the adapter reads and writes. */
  datatype Lesson = Lesson(id: string, title: string, description: string, content: string, authorId: string,
                           difficulty: string, estimatedDuration: int, tags: seq<string>, isPublished: bool,
                           createdAt: Instant, updatedAt: Instant)

  /** What `createLesson` takes: a lesson without id and timestamps. */
  datatype LessonInput = LessonInput(title: string, description: string, content: string, authorId: string,
                                     difficulty: string, estimatedDuration: int, tags: seq<string>,
                                     isPublished: bool)

  /** `Partial<Lesson>`; an `updatedAt` in it is overwritten at once, so it has no field. */
  datatype LessonPatch = LessonPatch(id: Option<string>, title: Option<string>, description: Option<string>,
                                     content: Option<string>, authorId: Option<string>, difficulty: Option<string>,
                                     estimatedDuration: Option<int>, tags: Option<seq<string>>,
                                     isPublished: Option<bool>, createdAt: Option<Instant>)

  /** `{ ...lesson, ...updates, updatedAt: now }`. */
  function PatchLesson(l: Lesson, p: LessonPatch, now: Instant): (r: Lesson)
    ensures r.updatedAt == now
    ensures r.id == p.id.GetOr(l.id) && r.title == p.title.GetOr(l.title) && r.content == p.content.GetOr(l.content)
    ensures r.createdAt == p.createdAt.GetOr(l.createdAt)
  {
    Lesson(p.id.GetOr(l.id), p.title.GetOr(l.title), p.description.GetOr(l.description), p.content.GetOr(l.content),
           p.authorId.GetOr(l.authorId), p.difficulty.GetOr(l.difficulty),
           p.estimatedDuration.GetOr(l.estimatedDuration), p.tags.GetOr(l.tags), p.isPublished.GetOr(l.isPublished),
           p.createdAt.GetOr(l.createdAt), now)
  }
  /** Patching twice with the same update at the same time is patching once. */
  lemma PatchLessonTwice(l: Lesson, p: LessonPatch, now: Instant)
    ensures PatchLesson(PatchLesson(l, p, now), p, now) == PatchLesson(l, p, now)
  {
  }


  /** `completedLessons` and `achievements` hold lesson and achievement ids. */
  datatype Progress = Progress(id: string, userId: string, level: int, totalXP: int, streak: int,
                               lastActivity: Instant, completedLessons: seq<string>, achievements: seq<string>)

  datatype Badge = Badge(id: string, name: string, description: string, icon: string, awardedAt: Instant)

  datatype Achievement = Achievement(id: string, name: string, description: string, xpReward: int,
                                     unlockedAt: Instant)

  /** A reader's progress through one lesson, stored as given. */
  datatype LessonProgress = LessonProgress(status: string, completionPercentage: int, timeSpent: int)

  datatype Highlight = Highlight(id: string, userId: string, lessonId: string, startPosition: int, endPosition: int,
                                 text: string, color: string, note: Option<string>, createdAt: Instant)

  /** What `createHighlight` takes: a highlight without id and creation time. */
  datatype HighlightInput = HighlightInput(userId: string, lessonId: string, startPosition: int, endPosition: int,
                                           text: string, color: string, note: Option<string>)

  /** `Partial<Highlight>`. */
  datatype HighlightPatch = HighlightPatch(id: Option<string>, userId: Option<string>, lessonId: Option<string>,
                                           startPosition: Option<int>, endPosition: Option<int>,
                                           text: Option<string>, color: Option<string>, note: Option<Option<string>>,
                                           createdAt: Option<Instant>)

  /** `{ ...highlight, ...updates }`. */
  function PatchHighlight(h: Highlight, p: HighlightPatch): (r: Highlight)
    ensures r.id == p.id.GetOr(h.id) && r.text == p.text.GetOr(h.text) && r.color == p.color.GetOr(h.color)
    ensures r.note == p.note.GetOr(h.note) && r.lessonId == p.lessonId.GetOr(h.lessonId)
  {
    Highlight(p.id.GetOr(h.id), p.userId.GetOr(h.userId), p.lessonId.GetOr(h.lessonId),
              p.startPosition.GetOr(h.startPosition), p.endPosition.GetOr(h.endPosition), p.text.GetOr(h.text),
              p.color.GetOr(h.color), p.note.GetOr(h.note), p.createdAt.GetOr(h.createdAt))
  }

  /** Applying the same update twice is applying it once. */
  lemma PatchHighlightTwice(h: Highlight, p: HighlightPatch)
    ensures PatchHighlight(PatchHighlight(h, p), p) == PatchHighlight(h, p)
  {
  }


  /** A comprehension question with its answer options and the expected answer. */
  datatype Question = Question(question: string, options: seq<string>, answer: string)

  datatype SentimentLabel = Positive | Negative | Neutral

  /** A sentiment label and how sure the analysis is of it. */
  datatype Sentiment = Sentiment(sentiment: SentimentLabel, confidence: real)
}
