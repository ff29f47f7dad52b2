/**
 * The Hackathon's browser-side persistence: a key-value store whose keys are
 * a kind prefix plus an id, the job queue that simulates server processing,
 * and resumable uploads in 1 MiB chunks. The browser database is an
 * in-memory map; ids, the clock and the simulated outcome are inputs.
 */
module HackathonStorage {
  import opened Wrappers
  import opened HackathonTypes
  import opened Strings
  import Seqs

  /** A file saved as its bytes with the name, type and size it came with. */
  datatype StoredFile = StoredFile(data: seq<bv8>, name: string, mimeType: string, size: nat)

  datatype Value =
    | UserValue(user: User)
    | ProfileValue(profile: Profile)
    | LessonValue(lesson: Lesson)
    | AttachmentValue(attachment: Attachment)
    | JobValue(job: Job)
    | FileValue(file: StoredFile)

  const Prefixes: seq<string> := ["user:", "profile:", "lesson:", "attachment:", "job:", "file:"]

  lemma DifferentPrefix(p: string, id: string, q: string)
    requires |p| > 0 && |q| > 0 && p[0] != q[0]
    ensures !StartsWith(p + id, q)
  {
    assert |q| > |p + id| || (p + id)[..|q|][0] != q[0];
  }

  /** The six prefixes start with six different letters, so a key has one kind. */
  lemma KeyKind(p: string, id: string)
    requires p in Prefixes
    ensures StartsWith(p + id, "user:") <==> p == "user:"
    ensures StartsWith(p + id, "lesson:") <==> p == "lesson:"
    ensures StartsWith(p + id, "job:") <==> p == "job:"
  {
    assert (p + id)[..|p|] == p;
    if p != "user:" { DifferentPrefix(p, id, "user:"); }
    if p != "lesson:" { DifferentPrefix(p, id, "lesson:"); }
    if p != "job:" { DifferentPrefix(p, id, "job:"); }
  }

  /** Different ids under one prefix are different keys. */
  lemma KeyInjective(p: string, a: string, b: string)
    ensures p + a == p + b ==> a == b
  {
    if p + a == p + b {
      assert a == (p + a)[|p|..];
    }
  }

  /** Every key under a listed prefix holds a record of that prefix's kind. */
  predicate Typed(items: map<string, Value>) {
    forall k :: k in items ==>
      (StartsWith(k, "user:") ==> items[k].UserValue?)
      && (StartsWith(k, "lesson:") ==> items[k].LessonValue?)
      && (StartsWith(k, "job:") ==> items[k].JobValue?)
  }

  function KeysUnder(items: map<string, Value>, prefix: string): set<string> {
    set k | k in items && StartsWith(k, prefix)
  }

  /** The records under the keys `ks`, one per key, in whatever order the keys are visited. */
  method ValuesAt(m: map<string, Value>, ks: set<string>) returns (vs: seq<Value>)
    requires ks <= m.Keys
    ensures |vs| == |ks|
    ensures forall i :: 0 <= i < |vs| ==> exists k :: k in ks && m[k] == vs[i]
    ensures forall k :: k in ks ==> m[k] in vs
  {
    var todo := ks;
    ghost var done: set<string> := {};
    ghost var keys: seq<string> := [];
    vs := [];
    while todo != {}
      invariant todo !! done && todo + done == ks
      invariant |vs| == |done| == |keys|
      invariant forall i :: 0 <= i < |keys| ==> keys[i] in done && m[keys[i]] == vs[i]
      invariant forall k :: k in done ==> m[k] in vs
      decreases |todo|
    {
      var k :| k in todo;
      vs, keys := vs + [m[k]], keys + [k];
      todo := todo - {k};
      done := done + {k};
    }
    forall i | 0 <= i < |vs| ensures exists k :: k in ks && m[k] == vs[i] {
      assert keys[i] in ks;
    }
  }

  /** Some user stored under a 'user:' key has this e-mail address. */
  predicate EmailKnown(items: map<string, Value>, email: string) {
    exists k :: k in KeysUnder(items, "user:") && items[k].UserValue? && items[k].user.email == email
  }

  /** The first user in `users` with this e-mail address: `users.find(...) || null`. */
  function FindByEmail(users: seq<User>, email: string): (r: Option<User>)
    ensures r.Some? ==> r.value in users && r.value.email == email
    ensures r.None? <==> forall i :: 0 <= i < |users| ==> users[i].email != email
  {
    if users == [] then None
    else if users[0].email == email then Some(users[0])
    else FindByEmail(users[1..], email)
  }

  /** `LocalStorageAdapter`: one browser database shared by all the adapters. */
  class KeyValueStore {
    var items: map<string, Value>

    predicate Valid()
      reads this
    {
      Typed(items)
    }

    constructor()
      ensures items == map[] && Valid()
    {
      items := map[];
    }

    function GetUser(id: string): (r: Option<User>)
      reads this
      ensures r.Some? ==> "user:" + id in items && items["user:" + id] == UserValue(r.value)
      ensures Valid() ==> (r.None? <==> "user:" + id !in items)
    {
      var k := "user:" + id;
      if k in items && items[k].UserValue? then Some(items[k].user) else None
    }

    function GetLesson(id: string): (r: Option<Lesson>)
      reads this
      ensures r.Some? ==> "lesson:" + id in items && items["lesson:" + id] == LessonValue(r.value)
      ensures Valid() ==> (r.None? <==> "lesson:" + id !in items)
    {
      var k := "lesson:" + id;
      if k in items && items[k].LessonValue? then Some(items[k].lesson) else None
    }

    function GetJob(id: string): (r: Option<Job>)
      reads this
      ensures r.Some? ==> "job:" + id in items && items["job:" + id] == JobValue(r.value)
      ensures Valid() ==> (r.None? <==> "job:" + id !in items)
    {
      var k := "job:" + id;
      if k in items && items[k].JobValue? then Some(items[k].job) else None
    }

    function GetProfile(userId: string): (r: Option<Profile>)
      reads this
      ensures r.Some? ==> "profile:" + userId in items && items["profile:" + userId] == ProfileValue(r.value)
      ensures r.None? <==> "profile:" + userId !in items || !items["profile:" + userId].ProfileValue?
    {
      var k := "profile:" + userId;
      if k in items && items[k].ProfileValue? then Some(items[k].profile) else None
    }

    function GetAttachment(id: string): (r: Option<Attachment>)
      reads this
      ensures r.Some? ==> "attachment:" + id in items && items["attachment:" + id] == AttachmentValue(r.value)
      ensures r.None? <==> "attachment:" + id !in items || !items["attachment:" + id].AttachmentValue?
    {
      var k := "attachment:" + id;
      if k in items && items[k].AttachmentValue? then Some(items[k].attachment) else None
    }

    function GetFile(fileId: string): (r: Option<StoredFile>)
      reads this
      ensures r.Some? ==> fileId in items && items[fileId] == FileValue(r.value)
      ensures r.None? <==> fileId !in items || !items[fileId].FileValue?
    {
      if fileId in items && items[fileId].FileValue? then Some(items[fileId].file) else None
    }

    /** Writes one record under `p + id`; what was there before is replaced. */
    method Put(p: string, id: string, v: Value)
      modifies this
      requires Valid() && p in Prefixes
      requires p == "user:" ==> v.UserValue?
      requires p == "lesson:" ==> v.LessonValue?
      requires p == "job:" ==> v.JobValue?
      ensures items == old(items)[p + id := v] && Valid()
    {
      KeyKind(p, id);
      items := items[p + id := v];
    }

    /** `setUser`; reading the user back gives it, and every other user is as before. */
    method SetUser(u: User)
      modifies this
      requires Valid()
      ensures items == old(items)["user:" + u.id := UserValue(u)] && Valid()
      ensures GetUser(u.id) == Some(u)
      ensures forall id :: id != u.id ==> GetUser(id) == old(GetUser(id))
    {
      Put("user:", u.id, UserValue(u));
      forall id | id != u.id ensures GetUser(id) == old(GetUser(id)) {
        KeyInjective("user:", id, u.id);
      }
    }

    method SetProfile(p: Profile)
      modifies this
      requires Valid()
      ensures items == old(items)["profile:" + p.userId := ProfileValue(p)] && Valid()
      ensures GetProfile(p.userId) == Some(p)
    {
      Put("profile:", p.userId, ProfileValue(p));
    }

    method SetLesson(l: Lesson)
      modifies this
      requires Valid()
      ensures items == old(items)["lesson:" + l.id := LessonValue(l)] && Valid()
      ensures GetLesson(l.id) == Some(l)
    {
      Put("lesson:", l.id, LessonValue(l));
    }

    method DeleteLesson(id: string)
      modifies this
      requires Valid()
      ensures items == old(items) - {"lesson:" + id} && Valid()
      ensures GetLesson(id) == None
    {
      items := items - {"lesson:" + id};
    }

    method SetAttachment(a: Attachment)
      modifies this
      requires Valid()
      ensures items == old(items)["attachment:" + a.id := AttachmentValue(a)] && Valid()
      ensures GetAttachment(a.id) == Some(a)
    {
      Put("attachment:", a.id, AttachmentValue(a));
    }

    method SetJob(j: Job)
      modifies this
      requires Valid()
      ensures items == old(items)["job:" + j.id := JobValue(j)] && Valid()
      ensures GetJob(j.id) == Some(j)
      ensures forall id :: id != j.id ==> GetJob(id) == old(GetJob(id))
    {
      Put("job:", j.id, JobValue(j));
      forall id | id != j.id ensures GetJob(id) == old(GetJob(id)) {
        KeyInjective("job:", id, j.id);
      }
    }

    /** `storeFile`, with the generated part of the file id given. */
    method StoreFile(f: StoredFile, stamp: string) returns (fileId: string)
      modifies this
      requires Valid()
      ensures fileId == "file:" + stamp
      ensures items == old(items)[fileId := FileValue(f)] && Valid()
      ensures GetFile(fileId) == Some(f)
    {
      Put("file:", stamp, FileValue(f));
      fileId := "file:" + stamp;
    }

    method ClearAll()
      modifies this
      ensures items == map[] && Valid()
    {
      items := map[];
    }

    /** The records under every key with this prefix, in the database's key order. */
    method ValuesUnder(prefix: string) returns (vs: seq<Value>)
      ensures |vs| == |KeysUnder(items, prefix)|
      ensures forall i :: 0 <= i < |vs| ==> exists k :: k in KeysUnder(items, prefix) && items[k] == vs[i]
      ensures forall k :: k in KeysUnder(items, prefix) ==> items[k] in vs
    {
      vs := ValuesAt(items, KeysUnder(items, prefix));
    }

    /** `getAllUsers`: exactly the records under the 'user:' keys. */
    method GetAllUsers() returns (users: seq<User>)
      requires Valid()
      ensures |users| == |KeysUnder(items, "user:")|
      ensures forall i :: 0 <= i < |users| ==>
                exists k :: k in KeysUnder(items, "user:") && items[k] == UserValue(users[i])
      ensures forall k :: k in KeysUnder(items, "user:") ==> items[k].user in users
    {
      var vs := ValuesUnder("user:");
      users := seq(|vs|, i requires 0 <= i < |vs| && vs[i].UserValue? => vs[i].user);
      forall k | k in KeysUnder(items, "user:") ensures items[k].user in users {
        var i :| 0 <= i < |vs| && vs[i] == items[k];
        assert users[i] == items[k].user;
      }
    }

    /** `getAllLessons`. */
    method GetAllLessons() returns (lessons: seq<Lesson>)
      requires Valid()
      ensures |lessons| == |KeysUnder(items, "lesson:")|
      ensures forall i :: 0 <= i < |lessons| ==>
                exists k :: k in KeysUnder(items, "lesson:") && items[k] == LessonValue(lessons[i])
      ensures forall k :: k in KeysUnder(items, "lesson:") ==> items[k].lesson in lessons
    {
      var vs := ValuesUnder("lesson:");
      lessons := seq(|vs|, i requires 0 <= i < |vs| && vs[i].LessonValue? => vs[i].lesson);
      forall k | k in KeysUnder(items, "lesson:") ensures items[k].lesson in lessons {
        var i :| 0 <= i < |vs| && vs[i] == items[k];
        assert lessons[i] == items[k].lesson;
      }
    }

    /** `getAllJobs`. */
    method GetAllJobs() returns (jobs: seq<Job>)
      requires Valid()
      ensures |jobs| == |KeysUnder(items, "job:")|
      ensures forall i :: 0 <= i < |jobs| ==>
                exists k :: k in KeysUnder(items, "job:") && items[k] == JobValue(jobs[i])
      ensures forall k :: k in KeysUnder(items, "job:") ==> items[k].job in jobs
    {
      var vs := ValuesUnder("job:");
      jobs := seq(|vs|, i requires 0 <= i < |vs| && vs[i].JobValue? => vs[i].job);
      forall k | k in KeysUnder(items, "job:") ensures items[k].job in jobs {
        var i :| 0 <= i < |vs| && vs[i] == items[k];
        assert jobs[i] == items[k].job;
      }
    }

    /** `getUserByEmail`: a stored user with that address, or none when there is none. */
    method GetUserByEmail(email: string) returns (r: Option<User>)
      requires Valid()
      ensures r.Some? ==> r.value.email == email
                          && exists k :: k in KeysUnder(items, "user:") && items[k] == UserValue(r.value)
      ensures r.None? ==> forall k :: k in KeysUnder(items, "user:") ==> items[k].user.email != email
    {
      var users := GetAllUsers();
      r := FindByEmail(users, email);
      if r.Some? {
        var i :| 0 <= i < |users| && users[i] == r.value;
      }
    }
  }

  // ------------------------------------------------------------ processing jobs

  /** The payload a completed job carries; job kinds without a case get the generic one. */
  function MockResult(t: JobType): (r: JobResult)
    ensures r.GenericResult? <==> t == VideoProcess
  {
    match t
    case Ocr => TextResult("Extracted text from document...")
    case Tts => AudioResult("data:audio/wav;base64,mock-audio-data")
    case Transcribe => TranscriptResult("Transcribed audio content...")
    case Summarize => SummaryResult("This is a summary of the content...")
    case ImageDescription => DescriptionResult("An educational diagram showing...")
    case VideoProcess => GenericResult("Processing completed")
  }

  /** Every stored job sits under its own id and has not used more attempts than it is allowed. */
  predicate JobsWellFormed(items: map<string, Value>) {
    forall k :: k in items && items[k].JobValue? ==>
      k == "job:" + items[k].job.id && items[k].job.attempts <= items[k].job.maxAttempts
  }

  /** `LocalProcessingAdapter`: jobs live in the shared store under 'job:' keys. */
  class ProcessingAdapter {
    const storage: KeyValueStore

    constructor(storage: KeyValueStore)
      ensures this.storage == storage
    {
      this.storage := storage;
    }

    /** A new job waits in the queue with no attempts used and three allowed. */
    method Enqueue(jobType: JobType, lessonId: string, attachmentId: Option<string>,
                   stamp: string, now: string) returns (job: Job)
      modifies storage
      requires storage.Valid() && JobsWellFormed(storage.items)
      ensures job == Job("job:" + stamp, jobType, lessonId, attachmentId, Queued, 0, 3,
                         None, None, now, now)
      ensures storage.items == old(storage.items)["job:" + job.id := JobValue(job)]
      ensures storage.Valid() && JobsWellFormed(storage.items)
    {
      job := Job("job:" + stamp, jobType, lessonId, attachmentId, Queued, 0, 3, None, None, now, now);
      storage.SetJob(job);
    }

    /** `status`: the stored job, or the not-found error. */
    method Status(jobId: string) returns (r: Result<Job>)
      ensures r == (match storage.GetJob(jobId)
                    case Some(j) => Ok(j)
                    case None => Err("Job " + jobId + " not found"))
    {
      match storage.GetJob(jobId)
      case Some(j) => r := Ok(j);
      case None => r := Err("Job " + jobId + " not found");
    }

    /** `cancel`: only a queued job changes, to failed with the cancellation message. */
    method Cancel(jobId: string, now: string)
      modifies storage
      requires storage.Valid() && JobsWellFormed(storage.items)
      ensures old(storage.GetJob(jobId)).Some? && old(storage.GetJob(jobId)).value.status == Queued ==>
                storage.items == old(storage.items)["job:" + jobId :=
                  JobValue(old(storage.GetJob(jobId)).value.(status := Failed, error := Some("Cancelled by user"), updatedAt := now))]
      ensures old(storage.GetJob(jobId)).None? || old(storage.GetJob(jobId)).value.status != Queued ==>
                storage.items == old(storage.items)
      ensures storage.Valid() && JobsWellFormed(storage.items)
    {
      var job := storage.GetJob(jobId);
      if job.Some? && job.value.status == Queued {
        var j := job.value.(status := Failed, error := Some("Cancelled by user"), updatedAt := now);
        KeyInjective("job:", jobId, j.id);
        storage.SetJob(j);
      }
    }

    /**
     * `retry`: re-queues the job and counts the attempt, unless it is missing or
     * has used its attempts; the job's current status is not consulted.
     */
    method Retry(jobId: string, now: string) returns (r: Result<Job>)
      modifies storage
      requires storage.Valid() && JobsWellFormed(storage.items)
      ensures old(storage.GetJob(jobId)).None? ==>
                r == Err("Job " + jobId + " not found") && storage.items == old(storage.items)
      ensures old(storage.GetJob(jobId)).Some? && old(storage.GetJob(jobId)).value.attempts >= old(storage.GetJob(jobId)).value.maxAttempts ==>
                r == Err("Maximum retry attempts exceeded") && storage.items == old(storage.items)
      ensures old(storage.GetJob(jobId)).Some? && old(storage.GetJob(jobId)).value.attempts < old(storage.GetJob(jobId)).value.maxAttempts ==>
                var j := old(storage.GetJob(jobId)).value;
                r == Ok(j.(status := Queued, attempts := j.attempts + 1, updatedAt := now))
                && storage.items == old(storage.items)["job:" + jobId := JobValue(r.value)]
      ensures storage.Valid() && JobsWellFormed(storage.items)
    {
      var job := storage.GetJob(jobId);
      if job.None? {
        return Err("Job " + jobId + " not found");
      }
      var j := job.value;
      if j.attempts >= j.maxAttempts {
        return Err("Maximum retry attempts exceeded");
      }
      j := j.(status := Queued, attempts := j.attempts + 1, updatedAt := now);
      KeyInjective("job:", jobId, j.id);
      storage.SetJob(j);
      r := Ok(j);
    }

    /**
     * The first half of `processJob`: a queued job is marked processing and
     * the copy being worked on is returned; any other job is left alone.
     */
    method BeginProcessing(jobId: string, now: string) returns (inFlight: Option<Job>)
      modifies storage
      requires storage.Valid() && JobsWellFormed(storage.items)
      ensures old(storage.GetJob(jobId)).Some? && old(storage.GetJob(jobId)).value.status == Queued ==>
                inFlight == Some(old(storage.GetJob(jobId)).value.(status := Processing, updatedAt := now))
                && storage.items == old(storage.items)["job:" + jobId := JobValue(inFlight.value)]
      ensures old(storage.GetJob(jobId)).None? || old(storage.GetJob(jobId)).value.status != Queued ==>
                inFlight == None && storage.items == old(storage.items)
      ensures inFlight.Some? ==> inFlight.value.id == jobId && inFlight.value.attempts <= inFlight.value.maxAttempts
      ensures storage.Valid() && JobsWellFormed(storage.items)
    {
      var job := storage.GetJob(jobId);
      if job.None? || job.value.status != Queued {
        return None;
      }
      var j := job.value.(status := Processing, updatedAt := now);
      KeyInjective("job:", jobId, j.id);
      storage.SetJob(j);
      inFlight := Some(j);
    }

    /**
     * The second half of `processJob`: the copy taken at the start is written
     * back completed with its mock result or failed, whatever happened to the
     * stored job in between.
     */
    method FinishProcessing(job: Job, success: bool, now: string)
      modifies storage
      requires storage.Valid() && JobsWellFormed(storage.items)
      requires job.attempts <= job.maxAttempts
      ensures storage.items == old(storage.items)["job:" + job.id := JobValue(
                if success then job.(status := Completed, result := Some(MockResult(job.jobType)), updatedAt := now)
                else job.(status := Failed, error := Some("Processing failed due to simulated error"), updatedAt := now))]
      ensures storage.Valid() && JobsWellFormed(storage.items)
    {
      var j := if success then job.(status := Completed, result := Some(MockResult(job.jobType)), updatedAt := now)
               else job.(status := Failed, error := Some("Processing failed due to simulated error"), updatedAt := now);
      storage.SetJob(j);
    }

    /** `processJob` run without interruption: a queued job ends completed or failed. */
    method ProcessJob(jobId: string, success: bool, started: string, finished: string)
      modifies storage
      requires storage.Valid() && JobsWellFormed(storage.items)
      ensures old(storage.GetJob(jobId)).Some? && old(storage.GetJob(jobId)).value.status == Queued ==>
                storage.GetJob(jobId).Some?
                && storage.GetJob(jobId).value.status == (if success then Completed else Failed)
                && storage.GetJob(jobId).value.attempts == old(storage.GetJob(jobId)).value.attempts
      ensures old(storage.GetJob(jobId)).None? || old(storage.GetJob(jobId)).value.status != Queued ==>
                storage.items == old(storage.items)
      ensures storage.Valid() && JobsWellFormed(storage.items)
    {
      var inFlight := BeginProcessing(jobId, started);
      if inFlight.Some? {
        FinishProcessing(inFlight.value, success, finished);
      }
    }
  }

  // ------------------------------------------------------------ uploads

  const ChunkSize: nat := 1024 * 1024

  datatype FileInfo = FileInfo(name: string, mimeType: string, size: nat)

  /** An upload in progress: chunk slots that may still be holes. */
  datatype Upload = Upload(file: FileInfo, chunks: seq<Option<seq<bv8>>>)

  /** `chunks.filter(Boolean).length`: every chunk buffer is truthy, even an empty one. */
  function Filled(chunks: seq<Option<seq<bv8>>>): (n: nat)
    ensures n <= |chunks|
  {
    if chunks == [] then 0 else (if chunks[0].Some? then 1 else 0) + Filled(chunks[1..])
  }

  /** The present chunks laid end to end, in index order, holes skipped. */
  function Joined(chunks: seq<Option<seq<bv8>>>): seq<bv8> {
    if chunks == [] then []
    else
      var last := chunks[|chunks| - 1];
      Joined(chunks[..|chunks| - 1]) + (if last.Some? then last.value else [])
  }

  /** `Math.ceil(size / (1024 * 1024))`. */
  function TotalChunks(size: nat): nat {
    (size + ChunkSize - 1) / ChunkSize
  }

  /** `LocalUploadAdapter`. */
  class UploadAdapter {
    const storage: KeyValueStore
    var uploads: map<string, Upload>

    constructor(storage: KeyValueStore)
      ensures this.storage == storage && uploads == map[]
    {
      this.storage := storage;
      uploads := map[];
    }

    /** Registers an empty upload and announces 1 MiB chunks. */
    method InitResumableUpload(file: FileInfo, stamp: string) returns (uploadId: string, chunkSize: nat)
      modifies this
      ensures uploadId == "upload:" + stamp && chunkSize == ChunkSize
      ensures uploads == old(uploads)[uploadId := Upload(file, [])]
    {
      uploadId := "upload:" + stamp;
      chunkSize := ChunkSize;
      uploads := uploads[uploadId := Upload(file, [])];
    }

    /**
     * Stores one chunk and reports progress as filled slots over the expected
     * chunk count, as the ratio `100 * filled / total` (an empty file has no
     * expected chunks and the division gives Infinity).
     */
    method UploadChunk(uploadId: string, index: nat, data: seq<bv8>) returns (r: Result<Ratio>)
      modifies this
      ensures uploadId !in old(uploads) ==>
                r == Err("Upload " + uploadId + " not found") && uploads == old(uploads)
      ensures uploadId in old(uploads) ==>
                var u := old(uploads)[uploadId].(chunks := Seqs.StoreAt(old(uploads)[uploadId].chunks, index, data));
                uploads == old(uploads)[uploadId := u]
                && r == Ok(Ratio(100 * Filled(u.chunks), TotalChunks(u.file.size)))
    {
      if uploadId !in uploads {
        return Err("Upload " + uploadId + " not found");
      }
      var u := uploads[uploadId];
      u := u.(chunks := Seqs.StoreAt(u.chunks, index, data));
      uploads := uploads[uploadId := u];
      r := Ok(Ratio(100 * Filled(u.chunks), TotalChunks(u.file.size)));
    }

    /**
     * Copies the present chunks, in index order, into a buffer of the file's
     * size, one after the other; a chunk that would run past the end raises
     * a RangeError before anything is copied from it.
     */
    method Combine(size: nat, chunks: seq<Option<seq<bv8>>>) returns (r: Result<array<bv8>>)
      ensures r.Ok? <==> |Joined(chunks)| <= size
      ensures r.Ok? ==> fresh(r.value) && r.value.Length == size
                        && r.value[..|Joined(chunks)|] == Joined(chunks)
                        && forall j :: |Joined(chunks)| <= j < size ==> r.value[j] == 0
    {
      var buffer := new bv8[size](_ => 0);
      var offset := 0;
      var i := 0;
      while i < |chunks|
        invariant 0 <= i <= |chunks|
        invariant offset == |Joined(chunks[..i])| <= size
        invariant buffer[..offset] == Joined(chunks[..i])
        invariant forall j :: offset <= j < size ==> buffer[j] == 0
      {
        assert chunks[..i + 1][..i] == chunks[..i];
        if chunks[i].Some? {
          var c := chunks[i].value;
          if offset + |c| > size {
            JoinedGrows(chunks, i + 1);
            return Err("offset is out of bounds");
          }
          var j := 0;
          while j < |c|
            invariant 0 <= j <= |c|
            invariant buffer[..offset] == Joined(chunks[..i])
            invariant buffer[offset..offset + j] == c[..j]
            invariant forall t :: offset + |c| <= t < size ==> buffer[t] == 0
            modifies buffer
          {
            buffer[offset + j] := c[j];
            j := j + 1;
          }
          assert buffer[..offset + |c|] == buffer[..offset] + buffer[offset..offset + |c|];
          offset := offset + |c|;
        }
        i := i + 1;
      }
      assert chunks[..i] == chunks;
      r := Ok(buffer);
    }

    /**
     * `completeUpload`: the combined file is stored, an attachment record
     * pointing at it is saved, and the upload is forgotten. `fileStamp` and
     * `attachmentStamp` are the generated parts of the two new ids.
     */
    method CompleteUpload(uploadId: string, fileStamp: string, attachmentStamp: string, now: string)
      returns (r: Result<Attachment>)
      modifies this, storage
      requires storage.Valid()
      ensures uploadId !in old(uploads) ==>
                r == Err("Upload " + uploadId + " not found")
      ensures uploadId in old(uploads) ==>
                (r.Ok? <==> |Joined(old(uploads)[uploadId].chunks)| <= old(uploads)[uploadId].file.size)
      ensures r.Err? ==> uploads == old(uploads) && storage.items == old(storage.items)
      ensures r.Ok? ==>
                var u := old(uploads)[uploadId];
                var fileId := "file:" + fileStamp;
                var data := Joined(u.chunks) + seq(u.file.size - |Joined(u.chunks)|, _ => 0 as bv8);
                r.value == Attachment("attachment:" + attachmentStamp, "", fileId, u.file.name,
                                      u.file.mimeType, u.file.size, fileId, PCompleted, now)
                && uploads == old(uploads) - {uploadId}
                && storage.items == old(storage.items)[fileId := FileValue(StoredFile(data, u.file.name, u.file.mimeType, u.file.size))]
                                                      ["attachment:" + r.value.id := AttachmentValue(r.value)]
      ensures storage.Valid()
    {
      if uploadId !in uploads {
        return Err("Upload " + uploadId + " not found");
      }
      var u := uploads[uploadId];
      var combined := Combine(u.file.size, u.chunks);
      if combined.Err? {
        return Err(combined.msg);
      }
      var buffer := combined.value;
      var data := buffer[..];
      assert data == Joined(u.chunks) + seq(u.file.size - |Joined(u.chunks)|, _ => 0 as bv8);
      var fileId := storage.StoreFile(StoredFile(data, u.file.name, u.file.mimeType, u.file.size), fileStamp);
      var attachment := Attachment("attachment:" + attachmentStamp, "", fileId, u.file.name,
                                   u.file.mimeType, u.file.size, fileId, PCompleted, now);
      storage.SetAttachment(attachment);
      uploads := uploads - {uploadId};
      r := Ok(attachment);
    }
  }

  /** Laying out more chunks never shortens the result. */
  lemma {:induction false} JoinedGrows(chunks: seq<Option<seq<bv8>>>, n: nat)
    requires n <= |chunks|
    ensures |Joined(chunks[..n])| <= |Joined(chunks)|
    decreases |chunks|
  {
    if n < |chunks| {
      var init := chunks[..|chunks| - 1];
      assert init[..n] == chunks[..n];
      JoinedGrows(init, n);
    } else {
      assert chunks[..n] == chunks;
    }
  }
}
