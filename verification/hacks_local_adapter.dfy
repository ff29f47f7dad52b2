/**
 * The `Hacks` local back-end: sign-up and sign-in against a user table, files
 * addressed by `local://` paths, resumable uploads in 5 MiB chunks, and a
 * job queue that simulates server processing with retries and exponential
 * backoff. The browser databases are in-memory maps; generated ids, the
 * clock and the base64 text of uploaded data are inputs, and each timer the
 * source starts is returned as the delay after which the next step runs.
 */
module HacksLocalAdapter {
  import opened Wrappers
  import opened HacksTypes
  import opened Strings
  import Seqs

  // ------------------------------------------------------------ authentication

  /** `localAuthAdapter`: a user table keyed by id and the module's current user. */
  class LocalAuth {
    var users: map<string, User>
    var current: Option<User>

    constructor()
      ensures users == map[] && current == None
    {
      users := map[];
      current := None;
    }

    /**
     * `signUp`: stores a new user under the generated id and signs it in. A
     * missing or empty name becomes 'User', a missing role 'student'; the
     * password is not kept.
     */
    method SignUp(email: string, password: string, name: Option<string>, role: Option<Role>,
                  id: string, now: nat) returns (user: User)
      modifies this
      ensures user.id == id && user.email == email && user.role == role.GetOr(Student)
      ensures user.name == (if name.None? || name.value == "" then "User" else name.value)
      ensures user.createdAt == now && user.updatedAt == now
      ensures users == old(users)[id := user] && current == Some(user)
    {
      var n := if name.None? || name.value == "" then "User" else name.value;
      user := User(id, email, n, role.GetOr(Student), now, now);
      users := users[id := user];
      current := Some(user);
    }

    /**
     * `signIn`: signs in a stored user with this e-mail address; the password
     * is never looked at. Which of several such users is found depends on
     * the database's iteration order.
     */
    method SignIn(email: string, password: string) returns (r: Result<User>)
      modifies this
      ensures users == old(users)
      ensures r.Err? <==> forall id :: id in users ==> users[id].email != email
      ensures r.Err? ==> r.msg == "User not found" && current == old(current)
      ensures r.Ok? ==> r.value.email == email && r.value in users.Values && current == Some(r.value)
    {
      if exists id :: id in users && users[id].email == email {
        var id :| id in users && users[id].email == email;
        r := Ok(users[id]);
        current := Some(users[id]);
      } else {
        r := Err("User not found");
      }
    }

    /** `signOut`: forgets the current user and keeps the table. */
    method SignOut()
      modifies this
      ensures current == None && users == old(users)
    {
      current := None;
    }

    /** `getCurrentUser`: the user signed in by the last sign-up or sign-in, if not signed out. */
    method GetCurrentUser() returns (u: Option<User>)
      ensures u == current
    {
      u := current;
    }
  }

  // ------------------------------------------------------------ files

  /** What the file database holds: a stored file, or an upload still receiving chunks. */
  datatype FileEntry =
    | FileRecord(id: string, path: Option<string>, data: string, mimeType: string, size: nat, uploadedAt: nat)
    | UploadRecord(uploadId: string, filename: string, totalSize: nat, mimeType: string,
                   chunks: seq<Option<string>>, createdAt: nat)

  const LocalScheme: string := "local://"

  const UploadPrefix: string := "upload_"

  /** `path.replace('local://', '')`: the first occurrence of the scheme is removed, wherever it is. */
  function FileId(path: string): (id: string)
    ensures StartsWith(path, LocalScheme) ==> id == path[|LocalScheme|..]
    ensures !Contains(path, LocalScheme) ==> id == path
  {
    if StartsWith(path, LocalScheme) then
      assert OccursAt(path, LocalScheme, 0);
      assert IndexOf(path, LocalScheme) == Some(0);
      ReplaceFirst(path, LocalScheme, "")
    else ReplaceFirst(path, LocalScheme, "")
  }

  /** A path built from an id leads back to that id. */
  lemma PathRoundTrip(id: string)
    ensures FileId(LocalScheme + id) == id
  {
    var s := LocalScheme + id;
    assert s[..|LocalScheme|] == LocalScheme;
    assert OccursAt(s, LocalScheme, 0);
    var i := IndexOf(s, LocalScheme);
    assert i == Some(0);
    assert s[|LocalScheme|..] == id;
  }

  /** `getFileUrl`: the stored data, nothing for an upload record, or the not-found error. */
  function Lookup(files: map<string, FileEntry>, path: string): (r: Result<Option<string>>)
    ensures r.Err? <==> FileId(path) !in files
    ensures r.Err? ==> r.msg == "File not found"
    ensures r.Ok? && r.value.Some? <==> FileId(path) in files && files[FileId(path)].FileRecord?
  {
    var k := FileId(path);
    if k !in files then Err("File not found")
    else match files[k]
      case FileRecord(_, _, data, _, _, _) => Ok(Some(data))
      case UploadRecord(_, _, _, _, _, _) => Ok(None)
  }

  /** The path returned for a stored file reads back that file's data. */
  lemma StoredFileFound(files: map<string, FileEntry>, id: string, e: FileEntry)
    requires e.FileRecord?
    ensures Lookup(files[id := e], LocalScheme + id) == Ok(Some(e.data))
  {
    PathRoundTrip(id);
  }

  /** After deleting a path, reading it fails, whatever the path is. */
  lemma DeletedFileGone(files: map<string, FileEntry>, path: string)
    ensures Lookup(files - {FileId(path)}, path) == Err("File not found")
  {
  }

  /** `chunks.join('')`: holes contribute nothing. */
  function JoinChunks(chunks: seq<Option<string>>): (r: string)
    ensures (forall i :: 0 <= i < |chunks| ==> chunks[i].None?) ==> r == ""
    ensures forall i :: 0 <= i < |chunks| && chunks[i].Some? ==> Contains(r, chunks[i].value)
  {
    if chunks == [] then ""
    else
      var rest := JoinChunks(chunks[1..]);
      var head := chunks[0].GetOr("");
      assert forall i :: 0 < i < |chunks| ==> chunks[i] == chunks[1..][i - 1];
      ContainsMiddle("", head, rest);
      assert "" + head + rest == head + rest;
      ContainsMiddle(head, rest, "");
      assert head + rest + "" == head + rest;
      forall i | 0 < i < |chunks| && chunks[i].Some? ensures Contains(head + rest, chunks[i].value) {
        ContainsWithin(head + rest, rest, chunks[i].value);
      }
      head + rest
  }

  lemma {:induction false} JoinChunksAppend(a: seq<Option<string>>, b: seq<Option<string>>)
    ensures JoinChunks(a + b) == JoinChunks(a) + JoinChunks(b)
  {
    if a == [] {
      assert a + b == b;
    } else {
      assert (a + b)[1..] == a[1..] + b;
      JoinChunksAppend(a[1..], b);
    }
  }

  lemma {:induction false} HolesJoinEmpty(n: nat)
    ensures JoinChunks(seq(n, _ => None)) == ""
  {
    if n > 0 {
      var h: seq<Option<string>> := seq(n, _ => None);
      assert h[1..] == seq(n - 1, _ => None);
      HolesJoinEmpty(n - 1);
    }
  }

  /** A chunk sent past the end lands after the earlier ones; the holes before it add nothing. */
  lemma ChunkPastEnd(chunks: seq<Option<string>>, index: nat, data: string)
    requires index >= |chunks|
    ensures JoinChunks(Seqs.StoreAt(chunks, index, data)) == JoinChunks(chunks) + data
  {
    var holes: seq<Option<string>> := seq(index - |chunks|, _ => None);
    var front := chunks + holes;
    assert Seqs.StoreAt(chunks, index, data) == front + [Some(data)];
    JoinChunksAppend(front, [Some(data)]);
    JoinChunksAppend(chunks, holes);
    HolesJoinEmpty(index - |chunks|);
    assert JoinChunks(front) == JoinChunks(chunks);
    assert [Some(data)][1..] == [];
    assert JoinChunks([Some(data)]) == data;
  }

  /** `Boolean(chunk)`: a hole and an empty string are both falsy. */
  predicate Truthy(chunk: Option<string>) {
    chunk.Some? && chunk.value != ""
  }

  /** `chunks.filter(Boolean).length`. */
  function CompletedChunks(chunks: seq<Option<string>>): nat {
    Seqs.Count(chunks, Truthy)
  }

  const ChunkBytes: nat := 5 * 1024 * 1024

  /** `Math.ceil(totalSize / (5 * 1024 * 1024))`. */
  function TotalChunks(size: nat): (n: nat)
    ensures n * ChunkBytes >= size && (n > 0 ==> (n - 1) * ChunkBytes < size)
  {
    (size + ChunkBytes - 1) / ChunkBytes
  }

  /** Once every expected chunk has arrived with some data, progress is 100. */
  lemma ProgressReachesHundred(chunks: seq<Option<string>>, size: nat)
    requires |chunks| == TotalChunks(size)
    requires forall i :: 0 <= i < |chunks| ==> Truthy(chunks[i])
    ensures CompletedChunks(chunks) == TotalChunks(size)
  {
    Seqs.FilterAll(chunks, Truthy);
  }

  /** Upload records sit exactly under the 'upload_' keys. */
  predicate FilesWellFormed(files: map<string, FileEntry>) {
    forall k :: k in files ==> (files[k].UploadRecord? <==> StartsWith(k, UploadPrefix))
  }

  /**
   * `localStorageAdapter`. Generated file ids are UUIDs, which never begin
   * with 'upload_', so stored files and uploads do not share keys.
   */
  class LocalStorage {
    var files: map<string, FileEntry>

    predicate Valid()
      reads this
    {
      FilesWellFormed(files)
    }

    constructor()
      ensures files == map[] && Valid()
    {
      files := map[];
    }

    /** `uploadFile`: stores the file's data URL under a fresh id and returns its `local://` path. */
    method UploadFile(path: string, dataUrl: string, mimeType: string, size: nat, fileId: string, now: nat)
      returns (url: string)
      modifies this
      requires Valid() && !StartsWith(fileId, UploadPrefix)
      ensures url == LocalScheme + fileId
      ensures files == old(files)[fileId := FileRecord(fileId, Some(path), dataUrl, mimeType, size, now)]
      ensures Lookup(files, url) == Ok(Some(dataUrl))
      ensures Valid()
    {
      files := files[fileId := FileRecord(fileId, Some(path), dataUrl, mimeType, size, now)];
      url := LocalScheme + fileId;
      StoredFileFound(old(files), fileId, files[fileId]);
    }

    /** `deleteFile`: removes the record the path names; reading it afterwards fails. */
    method DeleteFile(path: string)
      modifies this
      requires Valid()
      ensures files == old(files) - {FileId(path)}
      ensures Lookup(files, path) == Err("File not found")
      ensures Valid()
    {
      files := files - {FileId(path)};
    }

    /** `getFileUrl`. */
    method GetFileUrl(path: string) returns (r: Result<Option<string>>)
      ensures r == Lookup(files, path)
    {
      r := Lookup(files, path);
    }

    /** `initResumableUpload`: an empty upload record under 'upload_' + id, and 5 MiB chunks. */
    method InitResumableUpload(filename: string, totalSize: nat, mimeType: string, uploadId: string, now: nat)
      returns (id: string, chunkSize: nat)
      modifies this
      requires Valid()
      ensures id == uploadId && chunkSize == ChunkBytes
      ensures files == old(files)[UploadPrefix + uploadId := UploadRecord(uploadId, filename, totalSize, mimeType, [], now)]
      ensures Valid()
    {
      assert (UploadPrefix + uploadId)[..|UploadPrefix|] == UploadPrefix;
      files := files[UploadPrefix + uploadId := UploadRecord(uploadId, filename, totalSize, mimeType, [], now)];
      id := uploadId;
      chunkSize := ChunkBytes;
    }

    /**
     * `uploadChunk`: puts the chunk's base64 text in its slot and reports the
     * percentage of expected chunks that hold non-empty text, as the ratio
     * `100 * completed / total` (an empty file expects no chunks, and the
     * division gives Infinity or NaN).
     */
    method UploadChunk(uploadId: string, chunkIndex: nat, encoded: string) returns (r: Result<Ratio>)
      modifies this
      requires Valid()
      ensures UploadPrefix + uploadId !in old(files) ==> r == Err("Upload not found") && files == old(files)
      ensures UploadPrefix + uploadId in old(files) ==>
                var u := old(files)[UploadPrefix + uploadId];
                var chunks := Seqs.StoreAt(u.chunks, chunkIndex, encoded);
                files == old(files)[UploadPrefix + uploadId := u.(chunks := chunks)]
                && r == Ok(Ratio(100 * CompletedChunks(chunks), TotalChunks(u.totalSize)))
      ensures Valid()
    {
      var key := UploadPrefix + uploadId;
      if key !in files {
        return Err("Upload not found");
      }
      assert key[..|UploadPrefix|] == UploadPrefix;
      var u := files[key];
      var chunks := Seqs.StoreAt(u.chunks, chunkIndex, encoded);
      files := files[key := u.(chunks := chunks)];
      r := Ok(Ratio(100 * CompletedChunks(chunks), TotalChunks(u.totalSize)));
    }

    /**
     * `completeUpload`: the chunks' text, joined in index order, is stored as
     * a new file, the upload record is removed, and a queued attachment whose
     * `local://` url reads back that text is returned.
     */
    method CompleteUpload(uploadId: string, fileId: string, now: nat) returns (r: Result<Attachment>)
      modifies this
      requires Valid() && !StartsWith(fileId, UploadPrefix)
      ensures UploadPrefix + uploadId !in old(files) ==> r == Err("Upload not found") && files == old(files)
      ensures UploadPrefix + uploadId in old(files) ==>
                var u := old(files)[UploadPrefix + uploadId];
                var data := JoinChunks(u.chunks);
                r == Ok(Attachment(fileId, "", u.filename, u.mimeType, u.totalSize, LocalScheme + fileId, PQueued, now))
                && files == old(files)[fileId := FileRecord(fileId, None, data, u.mimeType, u.totalSize, now)]
                                      - {UploadPrefix + uploadId}
                && Lookup(files, r.value.url) == Ok(Some(data))
      ensures Valid()
    {
      var key := UploadPrefix + uploadId;
      if key !in files {
        return Err("Upload not found");
      }
      assert key[..|UploadPrefix|] == UploadPrefix;
      assert fileId != key;
      var u := files[key];
      var data := JoinChunks(u.chunks);
      var stored := files[fileId := FileRecord(fileId, None, data, u.mimeType, u.totalSize, now)];
      files := stored - {key};
      r := Ok(Attachment(fileId, "", u.filename, u.mimeType, u.totalSize, LocalScheme + fileId, PQueued, now));
      PathRoundTrip(fileId);
    }
  }

  // ------------------------------------------------------------ processing jobs

  const KnownTypeNames: seq<string> := ["summarize", "tts", "transcribe", "image_description", "ocr", "video_process"]

  /** `mockProcessing`: a canned result per type name, and an error for any other name. */
  function MockProcessing(t: JobType): (r: Result<JobResult>)
    ensures r.Err? <==> TypeName(t) !in KnownTypeNames
    ensures r.Err? ==> r.msg == "Unknown job type: " + TypeName(t)
  {
    var name := TypeName(t);
    if name == "summarize" then Ok(SummaryOf("This is a simplified summary of the content."))
    else if name == "tts" then Ok(AudioOf("local://mock-tts-audio"))
    else if name == "transcribe" then Ok(TranscriptOf("This is a mock transcript of the audio."))
    else if name == "image_description" then Ok(DescriptionOf("This image shows educational content."))
    else if name == "ocr" then Ok(TextOf("Extracted text from the document."))
    else if name == "video_process" then Ok(CaptionsOf([Caption(0, 10, "Mock caption", "en")]))
    else Err("Unknown job type: " + name)
  }

  /** Each of the six declared types gets the result shape of its own kind. */
  lemma ResultMatchesType(t: JobType)
    requires !t.OtherType?
    ensures MockProcessing(t).Ok?
    ensures t == Summarize ==> MockProcessing(t).value.SummaryOf?
    ensures t == Tts ==> MockProcessing(t).value.AudioOf?
    ensures t == Transcribe ==> MockProcessing(t).value.TranscriptOf?
    ensures t == ImageDescription ==> MockProcessing(t).value.DescriptionOf?
    ensures t == Ocr ==> MockProcessing(t).value.TextOf?
    ensures t == VideoProcess ==> MockProcessing(t).value.CaptionsOf?
  {
  }

  /** The first half of `processJob`: the job is marked processing and one more attempt is counted. */
  function Started(job: Job, now: nat): (r: Job)
    ensures r.status == Processing && r.attempts == job.attempts + 1
    ensures r == job.(status := r.status, attempts := r.attempts, updatedAt := now)
  {
    job.(status := Processing, attempts := job.attempts + 1, updatedAt := now)
  }

  /**
   * The second half of `processJob`: the job completes with its mock result,
   * or, when that throws, fails for good once its attempts reach the limit
   * and is marked retrying otherwise, keeping the error message.
   */
  function Settled(job: Job, now: nat): (r: Job)
    ensures r.status == Completed <==> TypeName(job.jobType) in KnownTypeNames
    ensures r.status == Failed <==> TypeName(job.jobType) !in KnownTypeNames && job.attempts >= job.maxAttempts
    ensures r.status == Retrying <==> TypeName(job.jobType) !in KnownTypeNames && job.attempts < job.maxAttempts
    ensures r.status == Completed ==> r.result == Some(MockProcessing(job.jobType).value) && r.error == job.error
    ensures r.status != Completed ==> r.error == Some("Unknown job type: " + TypeName(job.jobType)) && r.result == job.result
    ensures r.attempts == job.attempts && r.id == job.id && r.updatedAt == now
  {
    match MockProcessing(job.jobType)
    case Ok(res) => job.(status := Completed, result := Some(res), updatedAt := now)
    case Err(msg) =>
      job.(status := if job.attempts >= job.maxAttempts then Failed else Retrying,
           error := Some(msg), updatedAt := now)
  }

  function Pow2(n: nat): (r: nat)
    ensures r >= 1
  {
    if n == 0 then 1 else 2 * Pow2(n - 1)
  }

  /** `Math.pow(2, job.attempts) * 1000`: the wait before a retrying job runs again. */
  function Backoff(job: Job, now: nat): (delay: Option<nat>)
    ensures delay.Some? <==> Settled(job, now).status == Retrying
    ensures delay.Some? ==> delay.value == Pow2(job.attempts) * 1000
  {
    if Settled(job, now).status == Retrying then Some(Pow2(job.attempts) * 1000) else None
  }

  /** One uninterrupted run of `processJob` on a stored job. */
  function Round(job: Job, now: nat): Job {
    Settled(Started(job, now), now)
  }

  /** `k` runs of `processJob` one after the other. */
  function Rounds(job: Job, k: nat, now: nat): Job
    decreases k
  {
    if k == 0 then job else Rounds(Round(job, now), k - 1, now)
  }

  /** How many runs a job whose type is unknown takes to fail for good. */
  function RunsToFail(job: Job): nat {
    if job.attempts + 1 >= job.maxAttempts then 1 else job.maxAttempts - job.attempts
  }

  /**
   * The backoff loop ends: a job of unknown type is retried until its
   * attempts reach the limit (at least one run happens), each run before the
   * last leaves it retrying, and the last leaves it failed.
   */
  lemma {:induction false} UnknownTypeGivesUp(job: Job, now: nat)
    requires TypeName(job.jobType) !in KnownTypeNames
    ensures Rounds(job, RunsToFail(job), now).status == Failed
    ensures Rounds(job, RunsToFail(job), now).attempts == job.attempts + RunsToFail(job)
    ensures forall k :: 1 <= k < RunsToFail(job) ==> Rounds(job, k, now).status == Retrying
    decreases job.maxAttempts - job.attempts
  {
    var next := Round(job, now);
    if job.attempts + 1 >= job.maxAttempts {
      assert Rounds(job, 1, now) == Rounds(next, 0, now) == next;
    } else {
      assert next.status == Retrying && next.attempts == job.attempts + 1;
      assert RunsToFail(next) == RunsToFail(job) - 1;
      UnknownTypeGivesUp(next, now);
      forall k | 1 <= k < RunsToFail(job) ensures Rounds(job, k, now).status == Retrying {
        assert Rounds(job, k, now) == Rounds(next, k - 1, now);
      }
    }
  }

  /** A job of a known type completes on its first run. */
  lemma KnownTypeCompletes(job: Job, now: nat)
    requires TypeName(job.jobType) in KnownTypeNames
    ensures Round(job, now).status == Completed && Round(job, now).attempts == job.attempts + 1
    ensures Round(job, now).result.Some?
  {
  }

  /** What `enqueueProcessingJob` takes: a job without id, status, attempts or timestamps. */
  datatype JobInput = JobInput(jobType: JobType, lessonId: string, attachmentId: Option<string>,
                               maxAttempts: nat, result: Option<JobResult>, error: Option<string>)

  const EnqueueDelay: nat := 2000
  const RetryDelay: nat := 1000

  /** `localProcessingAdapter`: a job table keyed by id. */
  class LocalProcessing {
    var jobs: map<string, Job>

    constructor()
      ensures jobs == map[]
    {
      jobs := map[];
    }

    /** `enqueueProcessingJob`: a queued job with no attempts, first run 2 s later. */
    method Enqueue(input: JobInput, id: string, now: nat) returns (job: Job, runAfter: nat)
      modifies this
      ensures job.id == id && job.status == Queued && job.attempts == 0
      ensures job == Job(id, input.jobType, input.lessonId, input.attachmentId, Queued, 0,
                         input.maxAttempts, input.result, input.error, now, now)
      ensures jobs == old(jobs)[id := job]
      ensures runAfter == EnqueueDelay
    {
      job := Job(id, input.jobType, input.lessonId, input.attachmentId, Queued, 0,
                 input.maxAttempts, input.result, input.error, now, now);
      jobs := jobs[id := job];
      runAfter := EnqueueDelay;
    }

    /** `getJobStatus`. */
    method GetJobStatus(id: string) returns (r: Result<Job>)
      ensures id in jobs ==> r == Ok(jobs[id])
      ensures id !in jobs ==> r == Err("Job not found")
    {
      if id in jobs {
        r := Ok(jobs[id]);
      } else {
        r := Err("Job not found");
      }
    }

    /** `cancelJob`: the record is deleted, whatever its status. */
    method CancelJob(id: string)
      modifies this
      ensures jobs == old(jobs) - {id}
    {
      jobs := jobs - {id};
    }

    /**
     * `retryJob`: whatever its status, the job is queued again with its
     * attempts reset and its error cleared, and runs 1 s later.
     */
    method RetryJob(id: string, now: nat) returns (r: Result<Job>, runAfter: Option<nat>)
      modifies this
      ensures id !in old(jobs) ==> r == Err("Job not found") && runAfter == None && jobs == old(jobs)
      ensures id in old(jobs) ==>
                r == Ok(old(jobs)[id].(status := Queued, attempts := 0, error := None, updatedAt := now))
                && jobs == old(jobs)[id := r.value] && runAfter == Some(RetryDelay)
    {
      if id !in jobs {
        return Err("Job not found"), None;
      }
      var job := jobs[id].(status := Queued, attempts := 0, error := None, updatedAt := now);
      jobs := jobs[id := job];
      r, runAfter := Ok(job), Some(RetryDelay);
    }

    /**
     * The first half of `processJob`: a missing job is ignored; otherwise it
     * is marked processing with one more attempt, and that copy is returned
     * for the second half.
     */
    method ProcessJob(id: string, now: nat) returns (inFlight: Option<Job>)
      modifies this
      ensures id !in old(jobs) ==> inFlight == None && jobs == old(jobs)
      ensures id in old(jobs) ==> inFlight == Some(Started(old(jobs)[id], now)) && jobs == old(jobs)[id := inFlight.value]
    {
      if id !in jobs {
        return None;
      }
      var job := Started(jobs[id], now);
      jobs := jobs[id := job];
      inFlight := Some(job);
    }

    /**
     * The second half of `processJob`, 3 to 5 s later: the in-flight copy is
     * settled and written back under its id, even if the job was cancelled
     * or retried in the meantime. A retrying job runs again after the
     * returned backoff.
     */
    method SettleJob(id: string, inFlight: Job, now: nat) returns (runAfter: Option<nat>)
      modifies this
      ensures jobs == old(jobs)[id := Settled(inFlight, now)]
      ensures runAfter == Backoff(inFlight, now)
    {
      jobs := jobs[id := Settled(inFlight, now)];
      runAfter := Backoff(inFlight, now);
    }

    /** `cancelJob` while a run is in flight does not stop it: the job reappears settled. */
    method CancelDuringRun(id: string, started: nat, finished: nat) returns (runAfter: Option<nat>)
      modifies this
      requires id in jobs
      ensures id in jobs && jobs[id].attempts == old(jobs)[id].attempts + 1
      ensures jobs[id].status in {Completed, Failed, Retrying}
    {
      var inFlight := ProcessJob(id, started);
      CancelJob(id);
      runAfter := SettleJob(id, inFlight.value, finished);
    }
  }
}
