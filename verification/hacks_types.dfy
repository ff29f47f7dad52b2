/** The entities of the `Hacks` front-end that its stores, adapters and guards share. */
module HacksTypes {
  import opened Wrappers

  datatype Role = Student | Teacher | Admin | Parent

  /** A signed-in account; timestamps are clock readings. */
  datatype User = User(id: string, email: string, name: string, role: Role, createdAt: nat, updatedAt: nat)

  datatype ProcessingStatus = PQueued | PProcessing | PCompleted | PFailed

  /** A file attached to a lesson; `url` addresses the stored file. */
  datatype Attachment = Attachment(id: string, lessonId: string, filename: string, mimeType: string,
                                   size: nat, url: string, processingStatus: ProcessingStatus, createdAt: nat)

  /**
   * The kind of processing a job asks for. A record read back from storage is
   * not checked against the declared union, so a job can carry any other type
   * name, kept in `OtherType`.
   */
  datatype JobType = Ocr | Tts | Transcribe | Summarize | ImageDescription | VideoProcess | OtherType(name: string)

  /** The wire name of a job type. */
  function TypeName(t: JobType): string {
    match t
    case Ocr => "ocr"
    case Tts => "tts"
    case Transcribe => "transcribe"
    case Summarize => "summarize"
    case ImageDescription => "image_description"
    case VideoProcess => "video_process"
    case OtherType(name) => name
  }

  datatype JobStatus = Queued | Processing | Retrying | Completed | Failed

  datatype Caption = Caption(start: int, end: int, text: string, language: string)

  /** The payload a completed job carries, one shape per job type. */
  datatype JobResult =
    | SummaryOf(summary: string)
    | AudioOf(audioUrl: string)
    | TranscriptOf(transcript: string)
    | DescriptionOf(description: string)
    | TextOf(text: string)
    | CaptionsOf(captions: seq<Caption>)

  datatype Job = Job(id: string, jobType: JobType, lessonId: string, attachmentId: Option<string>,
                     status: JobStatus, attempts: nat, maxAttempts: nat,
                     result: Option<JobResult>, error: Option<string>, createdAt: nat, updatedAt: nat)
}
