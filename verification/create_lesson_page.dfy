/**
 * The Hackathon lesson-creation form: its validation schema, the list of
 * files being uploaded beside it, and the lesson record it submits. Ids,
 * object URLs and the clock are inputs.
 */
module CreateLessonPage {
  import opened Wrappers
  import opened HackathonTypes
  import Seqs

  datatype LessonForm = LessonForm(
    title: string, description: string, content: string, subject: string,
    gradeLevel: string, difficulty: string, estimatedDuration: string)

  const Difficulties: seq<string> := ["beginner", "intermediate", "advanced"]

  /** What the schema demands of each field. */
  predicate Acceptable(f: LessonForm) {
    1 <= |f.title| <= 200 && 1 <= |f.description| <= 500
    && |f.content| >= 1 && |f.subject| >= 1 && |f.gradeLevel| >= 1
    && f.difficulty in Difficulties
    && |f.estimatedDuration| >= 1
  }

  /** The form's field names, in schema order. */
  const Fields: seq<string> := ["title", "description", "content", "subject", "gradeLevel", "difficulty", "estimatedDuration"]

  const TitleRequired := "Title is required"
  const TitleTooLong := "Title must be less than 200 characters"
  const DescriptionRequired := "Description is required"
  const DescriptionTooLong := "Description must be less than 500 characters"
  const ContentRequired := "Content is required"
  const SubjectRequired := "Subject is required"
  const GradeLevelRequired := "Grade level is required"
  const InvalidEnum := "Invalid enum value"
  const DurationRequired := "Estimated duration is required"

  /**
   * `createLessonSchema`: the field errors in schema order; the enumeration's
   * own message is the validation library's and is abbreviated here.
   */
  function Validate(f: LessonForm): (errors: seq<FieldError>)
    ensures errors == [] <==> Acceptable(f)
    ensures forall i :: 0 <= i < |errors| ==> errors[i].field in Fields
  {
    Check(|f.title| >= 1, Fields[0], TitleRequired)
    + Check(|f.title| <= 200, Fields[0], TitleTooLong)
    + Check(|f.description| >= 1, Fields[1], DescriptionRequired)
    + Check(|f.description| <= 500, Fields[1], DescriptionTooLong)
    + Check(|f.content| >= 1, Fields[2], ContentRequired)
    + Check(|f.subject| >= 1, Fields[3], SubjectRequired)
    + Check(|f.gradeLevel| >= 1, Fields[4], GradeLevelRequired)
    + Check(f.difficulty in Difficulties, Fields[5], InvalidEnum)
    + Check(|f.estimatedDuration| >= 1, Fields[6], DurationRequired)
  }

  // ------------------------------------------------------------ uploads

  datatype UploadStatus = Uploading | UploadCompleted | UploadFailed

  datatype UploadedFile = UploadedFile(
    id: string, name: string, mimeType: string, size: nat,
    progress: nat, status: UploadStatus)

  /** One progress tick: ten more percent, capped at a hundred. */
  function Tick(f: UploadedFile): UploadedFile {
    f.(progress := if f.progress + 10 < 100 then f.progress + 10 else 100)
  }

  function Finish(f: UploadedFile): UploadedFile {
    f.(status := UploadCompleted, progress := 100)
  }

  /** `prev.map(f => f.id === id ? step(f) : f)`. */
  function UpdateWhere(files: seq<UploadedFile>, id: string, step: UploadedFile -> UploadedFile): (r: seq<UploadedFile>)
    ensures |r| == |files|
    ensures forall i :: 0 <= i < |files| ==> r[i] == (if files[i].id == id then step(files[i]) else files[i])
  {
    seq(|files|, i requires 0 <= i < |files| => if files[i].id == id then step(files[i]) else files[i])
  }

  /** Every progress is a percentage and a completed upload is at a hundred. */
  predicate WellFormed(files: seq<UploadedFile>) {
    forall i :: 0 <= i < |files| ==>
      files[i].progress <= 100 && (files[i].status == UploadCompleted ==> files[i].progress == 100)
  }

  /** `n` ticks from `p` percent reach `min(p + 10n, 100)`. */
  lemma {:induction false} Ticks(f: UploadedFile, n: nat)
    requires f.progress <= 100
    ensures RepeatTick(f, n).progress == if f.progress + 10 * n < 100 then f.progress + 10 * n else 100
    ensures RepeatTick(f, n).id == f.id && RepeatTick(f, n).status == f.status
  {
    if n > 0 {
      Ticks(f, n - 1);
    }
  }

  function RepeatTick(f: UploadedFile, n: nat): UploadedFile {
    if n == 0 then f else Tick(RepeatTick(f, n - 1))
  }

  class UploadList {
    var files: seq<UploadedFile>

    constructor()
      ensures files == []
    {
      files := [];
    }

    /** A picked file joins the list at 0% while it uploads. */
    method Add(id: string, name: string, mimeType: string, size: nat)
      modifies this
      requires WellFormed(files)
      ensures files == old(files) + [UploadedFile(id, name, mimeType, size, 0, Uploading)]
      ensures WellFormed(files)
    {
      files := files + [UploadedFile(id, name, mimeType, size, 0, Uploading)];
    }

    /** The 200 ms timer: advances only the entries with this id. */
    method TickFile(id: string)
      modifies this
      requires WellFormed(files)
      ensures files == UpdateWhere(old(files), id, Tick)
      ensures WellFormed(files)
    {
      files := UpdateWhere(files, id, Tick);
    }

    /** The 2 s timer: marks the entries with this id completed at 100%. */
    method CompleteFile(id: string)
      modifies this
      requires WellFormed(files)
      ensures files == UpdateWhere(old(files), id, Finish)
      ensures WellFormed(files)
    {
      files := UpdateWhere(files, id, Finish);
    }

    /** `removeFile`: drops exactly the entries with this id. */
    method Remove(id: string)
      modifies this
      requires WellFormed(files)
      ensures files == Seqs.Filter(old(files), (f: UploadedFile) => f.id != id)
      ensures forall i :: 0 <= i < |files| ==> files[i].id != id
      ensures WellFormed(files)
    {
      files := Seqs.Filter(files, (f: UploadedFile) => f.id != id);
    }
  }

  // ------------------------------------------------------------ submission

  datatype NewAttachment = NewAttachment(
    id: string, filename: string, originalName: string, mimeType: string,
    size: nat, url: string)

  datatype NewLesson = NewLesson(
    id: string, form: LessonForm, teacherId: Option<string>, teacherName: Option<string>,
    status: LessonStatus, accessibilityStatus: ArtifactStatus,
    attachments: seq<NewAttachment>, createdAt: string, updatedAt: string)

  predicate IsCompleted(f: UploadedFile) { f.status == UploadCompleted }

  /** The attachment record of a completed file, with its id and the object URL made for its contents. */
  function AttachmentOf(f: UploadedFile, id: string, url: string): NewAttachment {
    NewAttachment(id, f.name, f.name, f.mimeType, f.size, url)
  }

  /** `.map(f => ({ id: generateId(), ... }))` over the completed files. */
  function Attachments(done: seq<UploadedFile>, ids: nat -> string, objectUrls: nat -> string): (a: seq<NewAttachment>)
    ensures |a| == |done|
    ensures forall k :: 0 <= k < |done| ==> a[k] == AttachmentOf(done[k], ids(k + 1), objectUrls(k))
  {
    seq(|done|, k requires 0 <= k < |done| => AttachmentOf(done[k], ids(k + 1), objectUrls(k)))
  }

  /**
   * The lesson `onSubmit` builds: `ids(0)` is the lesson's id and `ids(k + 1)`
   * the k-th attachment's; `objectUrls(k)` is the URL `URL.createObjectURL`
   * returns for the k-th completed file's contents, one call per file.
   */
  function SubmittedLesson(form: LessonForm, user: Option<User>, files: seq<UploadedFile>,
                           ids: nat -> string, objectUrls: nat -> string, now: string): (l: NewLesson)
    ensures l.status == Draft && l.accessibilityStatus == Unverified
    ensures l.form == form
    ensures l.id == ids(0) && l.createdAt == now && l.updatedAt == now
    ensures l.teacherId == (if user.Some? then Some(user.value.id) else None)
    ensures l.teacherName == (if user.Some? then Some(user.value.name) else None)
    ensures |l.attachments| == Seqs.Count(files, IsCompleted)
    ensures forall k :: 0 <= k < |l.attachments| ==>
              exists i :: 0 <= i < |files| && IsCompleted(files[i]) && l.attachments[k].filename == files[i].name
    ensures forall k :: 0 <= k < |l.attachments| ==>
              l.attachments[k] == AttachmentOf(Seqs.Filter(files, IsCompleted)[k], ids(k + 1), objectUrls(k))
  {
    var done := Seqs.Filter(files, IsCompleted);
    assert forall k :: 0 <= k < |done| ==> done[k] in files && IsCompleted(done[k]);
    NewLesson(ids(0), form,
              if user.Some? then Some(user.value.id) else None,
              if user.Some? then Some(user.value.name) else None,
              Draft, Unverified, Attachments(done, ids, objectUrls), now, now)
  }
}
