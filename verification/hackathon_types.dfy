/** The records of the Hackathon front-end that its stores and pages exchange. */
module HackathonTypes {
  import opened Wrappers

  datatype Role = Student | Teacher | Admin

  /** A signed-in user; timestamps are the ISO strings the pages stamp. */
  datatype User = User(
    id: string, email: string, name: string, role: Role,
    avatar: Option<string>, createdAt: string, updatedAt: string)

  datatype FontSize = Small | Medium | Large | ExtraLarge
  datatype FontFamily = DefaultFamily | DyslexiaFriendly

  /** The reader's display and speech preferences; numbers are exact rationals. */
  datatype Preferences = Preferences(
    fontSize: FontSize,
    fontFamily: FontFamily,
    highContrast: bool,
    darkMode: bool,
    reducedMotion: bool,
    screenReader: bool,
    ttsEnabled: bool,
    ttsSpeed: real,
    ttsVoice: Option<string>,
    colorOverlay: Option<string>,
    lineSpacing: real,
    letterSpacing: real)

  datatype Difficulty = Beginner | Intermediate | Advanced
  datatype LessonStatus = Draft | Published | Archived
  datatype ArtifactStatus = Unverified | VerifiedByTeacher | NeedsAttention | ArtifactPublished

  datatype ProcessingStatus = PQueued | PProcessing | PCompleted | PFailed

  /** An uploaded file attached to a lesson. */
  datatype Attachment = Attachment(
    id: string, lessonId: string, filename: string, originalName: string,
    mimeType: string, size: nat, url: string, processingStatus: ProcessingStatus,
    createdAt: string)

  datatype JobType = Ocr | Tts | Transcribe | Summarize | ImageDescription | VideoProcess
  datatype JobStatus = Queued | Processing | Retrying | Completed | Failed

  /** What a finished job produced: the one-field payloads of the local processor. */
  datatype JobResult =
    | TextResult(text: string)
    | AudioResult(audioUrl: string)
    | TranscriptResult(transcript: string)
    | SummaryResult(summary: string)
    | DescriptionResult(description: string)
    | GenericResult(result: string)

  datatype Job = Job(
    id: string, jobType: JobType, lessonId: string, attachmentId: Option<string>,
    status: JobStatus, attempts: nat, maxAttempts: nat,
    result: Option<JobResult>, error: Option<string>,
    createdAt: string, updatedAt: string)

  /** The accessibility record every lesson carries. */
  datatype Artifact = Artifact(id: string, lessonId: string, status: ArtifactStatus,
                               createdAt: string, updatedAt: string)

  /** A learner's profile record. */
  datatype Profile = Profile(
    id: string, userId: string, disabilityTags: seq<string>, preferences: Preferences,
    learningPath: Option<seq<string>>, createdAt: string, updatedAt: string)

  datatype Lesson = Lesson(
    id: string, title: string, description: string, content: string,
    teacherId: string, subject: string, gradeLevel: string,
    difficulty: Difficulty, attachments: seq<Attachment>,
    accessibility: Artifact, status: LessonStatus,
    createdAt: string, updatedAt: string)

  /** A validation message attached to one form field. */
  datatype FieldError = FieldError(field: string, message: string)

  /** No error when the rule holds, else the one message. */
  function Check(ok: bool, field: string, message: string): seq<FieldError> {
    if ok then [] else [FieldError(field, message)]
  }
}
