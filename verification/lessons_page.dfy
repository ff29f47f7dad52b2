/** The Hackathon lesson catalogue: search, the two filters and the badge colours. */
module LessonsPage {
  import opened Strings
  import Seqs

  /** A catalogue entry as the page lists it. */
  datatype Listing = Listing(
    id: string, title: string, description: string, subject: string,
    gradeLevel: string, difficulty: string, teacherName: string,
    status: string, accessibility: string, createdAt: string, studentsEnrolled: nat)

  const Catalogue: seq<Listing> := [
    Listing("1", "Introduction to Mathematics", "Basic mathematical concepts for beginners",
            "Mathematics", "Grade 1", "beginner", "Ms. Johnson", "published", "verified",
            "2024-01-15", 24),
    Listing("2", "Basic Reading Comprehension", "Improve reading skills with interactive exercises",
            "English", "Grade 2", "beginner", "Mr. Smith", "published", "verified",
            "2024-01-14", 18),
    Listing("3", "Science Fundamentals", "Explore the basics of scientific thinking",
            "Science", "Grade 3", "intermediate", "Dr. Brown", "draft", "processing",
            "2024-01-13", 0)
  ]

  /** Search matches title or description ignoring case; an empty filter admits everything. */
  predicate Shown(l: Listing, query: string, subject: string, difficulty: string) {
    (Contains(LowerStr(l.title), LowerStr(query)) || Contains(LowerStr(l.description), LowerStr(query)))
    && (subject == "" || l.subject == subject)
    && (difficulty == "" || l.difficulty == difficulty)
  }

  /** `filteredLessons`. */
  function FilteredLessons(lessons: seq<Listing>, query: string, subject: string, difficulty: string): (r: seq<Listing>)
    ensures forall i :: 0 <= i < |r| ==> r[i] in lessons && Shown(r[i], query, subject, difficulty)
    ensures forall i :: 0 <= i < |lessons| && Shown(lessons[i], query, subject, difficulty) ==> lessons[i] in r
  {
    Seqs.Filter(lessons, l => Shown(l, query, subject, difficulty))
  }

  /** The listing keeps the catalogue order. */
  lemma FilteredInOrder(lessons: seq<Listing>, query: string, subject: string, difficulty: string)
    ensures Seqs.IsSubsequence(FilteredLessons(lessons, query, subject, difficulty), lessons)
  {
    Seqs.FilterIsSubsequence(lessons, l => Shown(l, query, subject, difficulty));
  }

  /** With nothing typed or selected, every lesson is listed. */
  lemma NoFiltersShowsAll(lessons: seq<Listing>)
    ensures FilteredLessons(lessons, "", "", "") == lessons
  {
    forall i | 0 <= i < |lessons| ensures Shown(lessons[i], "", "", "") {
      assert OccursAt(LowerStr(lessons[i].title), LowerStr(""), 0);
    }
    Seqs.FilterAll(lessons, l => Shown(l, "", "", ""));
  }

  /** The "no lessons found" panel appears exactly when no lesson passes the filters. */
  predicate ShowEmptyState(lessons: seq<Listing>, query: string, subject: string, difficulty: string) {
    |FilteredLessons(lessons, query, subject, difficulty)| == 0
  }

  lemma EmptyStateIff(lessons: seq<Listing>, query: string, subject: string, difficulty: string)
    ensures ShowEmptyState(lessons, query, subject, difficulty)
            <==> forall i :: 0 <= i < |lessons| ==> !Shown(lessons[i], query, subject, difficulty)
  {
    var r := FilteredLessons(lessons, query, subject, difficulty);
    if |r| > 0 {
      var k :| 0 <= k < |lessons| && lessons[k] == r[0];
      assert Shown(lessons[k], query, subject, difficulty);
    }
  }

  const Green := "text-green-600 bg-green-100 dark:bg-green-900 dark:text-green-300"
  const Yellow := "text-yellow-600 bg-yellow-100 dark:bg-yellow-900 dark:text-yellow-300"
  const Red := "text-red-600 bg-red-100 dark:bg-red-900 dark:text-red-300"
  const Grey := "text-gray-600 bg-gray-100 dark:bg-gray-700 dark:text-gray-300"

  function StatusColor(status: string): (r: string)
    ensures r == Grey <==> status != "published" && status != "draft"
  {
    if status == "published" then Green
    else if status == "draft" then Yellow
    else Grey
  }

  function DifficultyColor(difficulty: string): (r: string)
    ensures r == Grey <==> difficulty != "beginner" && difficulty != "intermediate" && difficulty != "advanced"
  {
    if difficulty == "beginner" then Green
    else if difficulty == "intermediate" then Yellow
    else if difficulty == "advanced" then Red
    else Grey
  }
}
