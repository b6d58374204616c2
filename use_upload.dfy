/** hooks/useUpload.ts: the client-side upload hook. Its state is `progress`, `status`
    and `fileId`; `handleUpload` moves it through UPLOADING, UPLOADED, SAVING and
    GENERATING, and any failure on the way resets `status` and `progress` to null.
    Vercel Blob's `put`, the POST to the metadata route, the embeddings server action
    and `uuidv4` are foreign calls and enter as parameters. */
module UseUpload {
  import opened Types

  datatype StatusText = Uploading | Uploaded | Saving | Generating {
    /** The text the enum member stands for. */
    function Text(): string {
      match this
      case Uploading => "Uploading file..."
      case Uploaded => "File uploaded successfully"
      case Saving => "Saving file to database..."
      case Generating => "Generating AI Embeddings, This will only take a few seconds..."
    }
  }

  /** The status texts are pairwise different, so the text shown names the step reached. */
  lemma StatusTextsDistinct(a: StatusText, b: StatusText)
    ensures a.Text() == b.Text() ==> a == b
  {
    assert Uploaded.Text()[0] == 'F' && Saving.Text()[0] == 'S';
  }

  /** The dropped file, as far as the hook reads it. */
  datatype File = File(name: string, size: nat)

  /** The signed-in Clerk user. */
  datatype User = User(id: string)

  /** What `put` resolves to. */
  datatype Blob = Blob(url: string)

  /** The response of the metadata route; its body is not modelled. */
  datatype HttpResponse = HttpResponse(ok: bool)

  /** The JSON body posted to the metadata route (its upload date is not modelled). */
  datatype FileMetadata = FileMetadata(fileId: string, userId: string, url: string, filename: string, size: nat)

  /** Where `handleUpload` stopped: at the first foreign call that failed, or at the end. */
  datatype Stage = PutFailed | SaveFailed | GenerateFailed | Completed

  // ---------------------------------------------------------------------------
  // The progress tick
  // ---------------------------------------------------------------------------

  /** The updater the interval timer hands to `setProgress`: null stays null, a value of
      90 or more stays, anything lower moves up by 10. */
  function Tick(prev: Option<int>): (next: Option<int>)
    ensures prev.None? ==> next.None?
    ensures prev.Some? && prev.value >= 90 ==> next == prev
    ensures prev.Some? && prev.value < 90 ==> next == Some(prev.value + 10)
  {
    match prev
    case None => None
    case Some(p) => if p >= 90 then prev else Some(p + 10)
  }

  /** The progress after `n` firings of the timer. */
  function Ticks(prev: Option<int>, n: nat): Option<int> {
    if n == 0 then prev else Tick(Ticks(prev, n - 1))
  }

  /** Started from 0, the simulated progress climbs in steps of 10 and stops at 90. */
  lemma {:induction false} TicksFromZero(n: nat)
    ensures Ticks(Some(0), n) == Some(if 10 * n < 90 then 10 * n else 90)
  {
    if n > 0 {
      TicksFromZero(n - 1);
    }
  }

  /** Started from null (the hook after a failure), the timer never brings progress back. */
  lemma {:induction false} TicksFromNull(n: nat)
    ensures Ticks(None, n) == None
  {
    if n > 0 {
      TicksFromNull(n - 1);
    }
  }

  // ---------------------------------------------------------------------------
  // Blob name and metadata
  // ---------------------------------------------------------------------------

  /** The blob path `users/{userId}/files/{fileId}/{file name}`. */
  function BlobName(userId: string, fileId: string, name: string): (path: string)
    ensures |path| == |userId| + |fileId| + |name| + 14
    ensures path[..|userId| + 7] == "users/" + userId + "/"
    ensures path[|path| - |name|..] == name
  {
    "users/" + userId + "/files/" + fileId + "/" + name
  }

  /** A string without '/' followed by '/' can be split back at that slash. */
  lemma SplitAtSlash(a: string, x: string, b: string, y: string)
    requires '/' !in a && '/' !in b
    requires a + "/" + x == b + "/" + y
    ensures a == b && x == y
  {
    var s := a + "/" + x;
    assert forall k :: 0 <= k < |a| ==> s[k] == a[k];
    assert forall k :: 0 <= k < |b| ==> s[k] == b[k];
    assert forall k :: 0 <= k < |a| ==> a[k] != '/';
    assert forall k :: 0 <= k < |b| ==> b[k] != '/';
    assert s[|a|] == '/' && s[|b|] == '/';
    assert |a| == |b|;
    assert a == s[..|a|] == b;
    assert x == s[|a| + 1..] == y;
  }

  /** Past the leading "users/", a blob path is the user id, a slash and the rest. */
  lemma BlobNameAfterUsers(userId: string, fileId: string, name: string)
    ensures BlobName(userId, fileId, name)[6..] == userId + "/" + ("files/" + fileId + "/" + name)
  {
    assert BlobName(userId, fileId, name) == "users/" + (userId + "/" + ("files/" + fileId + "/" + name));
  }

  /** Past the leading "files/", the rest of a blob path is the file id, a slash and the name. */
  lemma AfterFiles(fileId: string, name: string)
    ensures ("files/" + fileId + "/" + name)[6..] == fileId + "/" + name
  {
    assert "files/" + fileId + "/" + name == "files/" + (fileId + "/" + name);
  }

  /** When neither id contains '/', the blob path names the owner, the file id and the
      file name: two uploads with different file ids never share a blob, and one user's
      blobs never land under another user's prefix. */
  lemma BlobNameDeterminesUpload(userId: string, fileId: string, name: string,
                                 userId': string, fileId': string, name': string)
    requires '/' !in userId && '/' !in fileId && '/' !in userId' && '/' !in fileId'
    requires BlobName(userId, fileId, name) == BlobName(userId', fileId', name')
    ensures userId == userId' && fileId == fileId' && name == name'
  {
    var tail := "files/" + fileId + "/" + name;
    var tail' := "files/" + fileId' + "/" + name';
    BlobNameAfterUsers(userId, fileId, name);
    BlobNameAfterUsers(userId', fileId', name');
    SplitAtSlash(userId, tail, userId', tail');
    AfterFiles(fileId, name);
    AfterFiles(fileId', name');
    SplitAtSlash(fileId, name, fileId', name');
  }

  /** `saveFileMetadata`: a response that is not ok throws "Failed to save file metadata";
      a failed fetch rethrows its own error. */
  function SaveFileMetadata(response: Outcome<HttpResponse>): (r: Result<()>)
    ensures r.Ok? <==> response.Returned? && response.value.ok
    ensures response.Returned? && !response.value.ok ==>
              r == Err(MetadataSaveFailed) && r.error.Message() == "Failed to save file metadata"
    ensures response.Threw? ==> r == Err(Foreign(response.reason))
  {
    match response
    case Threw(reason) => Err(Foreign(reason))
    case Returned(res) => if res.ok then Ok(()) else Err(MetadataSaveFailed)
  }

  /** The stage reached once `put` has returned the blob: the metadata save, with the
      blob's url and the same file id and user id, then the embeddings. */
  function StageAfterPut(file: File, user: User, newId: string, blob: Blob,
                         save: FileMetadata -> Outcome<HttpResponse>, generate: string -> Outcome<()>): (stage: Stage)
    ensures stage != PutFailed
    ensures stage == SaveFailed <==>
              SaveFileMetadata(save(FileMetadata(newId, user.id, blob.url, file.name, file.size))).Err?
    ensures stage == Completed <==>
              save(FileMetadata(newId, user.id, blob.url, file.name, file.size)) == Returned(HttpResponse(true)) &&
              generate(newId).Returned?
  {
    if SaveFileMetadata(save(FileMetadata(newId, user.id, blob.url, file.name, file.size))).Err? then SaveFailed
    else if generate(newId).Threw? then GenerateFailed
    else Completed
  }

  /** The stage `handleUpload` reaches for a file and a user: `put` under the blob name
      built from the user id, the new file id and the file name, then the rest. */
  function UploadStage(file: File, user: User, newId: string, put: string -> Outcome<Blob>,
                       save: FileMetadata -> Outcome<HttpResponse>, generate: string -> Outcome<()>): (stage: Stage)
    ensures stage == PutFailed <==> put(BlobName(user.id, newId, file.name)).Threw?
    ensures put(BlobName(user.id, newId, file.name)).Returned? ==>
              stage == StageAfterPut(file, user, newId, put(BlobName(user.id, newId, file.name)).value, save, generate)
  {
    match put(BlobName(user.id, newId, file.name))
    case Threw(_) => PutFailed
    case Returned(blob) => StageAfterPut(file, user, newId, blob, save, generate)
  }

  /** The `setStatus` calls made on the way to a stage, in order. */
  function StatusSteps(stage: Stage): (steps: seq<Option<StatusText>>)
    ensures |steps| >= 2 && (stage != PutFailed ==> |steps| >= 4)
    ensures steps[0] == Some(Uploading)
    ensures stage != PutFailed ==> steps[1..3] == [Some(Uploaded), Some(Saving)]
    ensures stage == Completed <==> steps[|steps| - 1] == Some(Generating)
    ensures stage != Completed <==> steps[|steps| - 1] == None
    ensures stage == PutFailed ==> Some(Uploaded) !in steps
    ensures stage == SaveFailed ==> Some(Generating) !in steps
    ensures stage == GenerateFailed ==> |steps| == 5 && steps[3] == Some(Generating)
  {
    match stage
    case PutFailed => [Some(Uploading), None]
    case SaveFailed => [Some(Uploading), Some(Uploaded), Some(Saving), None]
    case GenerateFailed => [Some(Uploading), Some(Uploaded), Some(Saving), Some(Generating), None]
    case Completed => [Some(Uploading), Some(Uploaded), Some(Saving), Some(Generating)]
  }

  /** The progress values the timer sets while `put` is pending, one per firing, when
      the run started at 0. */
  function TickValues(n: nat): (values: seq<Option<int>>)
    ensures |values| == n
    ensures forall k :: 0 <= k < n ==> values[k] == Ticks(Some(0), k + 1)
  {
    if n == 0 then [] else TickValues(n - 1) + [Ticks(Some(0), n)]
  }

  /** The `setProgress` calls made once `put` has resolved: null from the catch block
      after a failed put; otherwise 100, then null if the save or the embeddings fail. */
  function ProgressAfterPut(stage: Stage): (steps: seq<Option<int>>)
    ensures |steps| >= 1
    ensures stage == PutFailed <==> steps == [None]
    ensures stage != PutFailed ==> steps[0] == Some(100)
    ensures stage == Completed <==> steps == [Some(100)]
    ensures stage != Completed ==> steps[|steps| - 1] == None
  {
    match stage
    case PutFailed => [None]
    case Completed => [Some(100)]
    case _ => [Some(100), None]
  }

  /** Every progress value a run sets, in order, with `ticks` firings while `put` is
      pending: 0, then the climbing timer values, then what follows put. */
  function ProgressSteps(stage: Stage, ticks: nat): (steps: seq<Option<int>>)
    ensures |steps| >= ticks + 2
    ensures steps[0] == Some(0)
    ensures stage == PutFailed <==> steps[ticks + 1] == None
    ensures stage != PutFailed ==> steps[ticks + 1] == Some(100)
    ensures stage != Completed <==> steps[|steps| - 1] == None
  {
    [Some(0)] + TickValues(ticks) + ProgressAfterPut(stage)
  }

  /** While `put` is pending the progress a run reports climbs by 10 per firing and never
      leaves [0, 90]: entry k is min(10k, 90). */
  lemma ProgressWhilePutPending(stage: Stage, ticks: nat)
    ensures forall k :: 1 <= k <= ticks ==>
              ProgressSteps(stage, ticks)[k] == Some(if 10 * k < 90 then 10 * k else 90)
    ensures forall k :: 1 <= k <= ticks ==>
              ProgressSteps(stage, ticks)[k].Some? && 0 <= ProgressSteps(stage, ticks)[k].value <= 90
  {
    var steps := ProgressSteps(stage, ticks);
    forall k | 1 <= k <= ticks ensures steps[k] == Some(if 10 * k < 90 then 10 * k else 90) {
      assert steps[k] == TickValues(ticks)[k - 1];
      TicksFromZero(k);
    }
  }

  /** Logging a list's first entry and then the rest of it logs the whole list. */
  lemma ConcatAfterHead<T>(log: seq<T>, steps: seq<T>)
    requires steps != []
    ensures log + [steps[0]] + steps[1..] == log + steps
  {
    assert [steps[0]] + steps[1..] == steps;
  }

  // ---------------------------------------------------------------------------
  // The hook
  // ---------------------------------------------------------------------------

  class UploadHook {
    var progress: Option<int>
    var status: Option<StatusText>
    var fileId: Option<string>
    /** Interval timers started by `handleUpload` and never cleared. */
    var runningIntervals: nat
    /** Every value handed to `setStatus`, in order. */
    ghost var statusLog: seq<Option<StatusText>>
    /** Every value `setProgress` leaves behind, in order. */
    ghost var progressLog: seq<Option<int>>

    /** Progress is null or a percentage. */
    ghost predicate Valid()
      reads this
    {
      progress.Some? ==> 0 <= progress.value <= 100
    }

    constructor ()
      ensures Valid()
      ensures progress == None && status == None && fileId == None
      ensures runningIntervals == 0 && statusLog == [] && progressLog == []
    {
      progress, status, fileId := None, None, None;
      runningIntervals := 0;
      statusLog, progressLog := [], [];
    }

    /** One firing of a running interval timer. */
    method IntervalFires()
      requires Valid() && runningIntervals > 0
      modifies this
      ensures Valid()
      ensures progress == Tick(old(progress))
      ensures status == old(status) && fileId == old(fileId)
      ensures runningIntervals == old(runningIntervals) && statusLog == old(statusLog)
      ensures progressLog == old(progressLog) + [progress]
    {
      progress := Tick(progress);
      progressLog := progressLog + [progress];
    }

    /** `handleUpload`. `newId` is what `uuidv4()` returns and `ticks` is how often the
        timers fire while `put` is pending. */
    method HandleUpload(file: Option<File>, user: Option<User>, newId: string, ticks: nat,
                        put: string -> Outcome<Blob>, save: FileMetadata -> Outcome<HttpResponse>,
                        generate: string -> Outcome<()>)
      requires Valid()
      modifies this
      ensures Valid()
      ensures file.None? || user.None? ==>
                progress == old(progress) && status == old(status) && fileId == old(fileId) &&
                runningIntervals == old(runningIntervals) && statusLog == old(statusLog) &&
                progressLog == old(progressLog)
      ensures file.Some? && user.Some? ==>
                (var stage := UploadStage(file.value, user.value, newId, put, save, generate);
                 statusLog == old(statusLog) + StatusSteps(stage) &&
                 progressLog == old(progressLog) + ProgressSteps(stage, ticks) &&
                 (stage == Completed ==>
                    progress == Some(100) && status == Some(Generating) && fileId == Some(newId)) &&
                 (stage != Completed ==>
                    progress == None && status == None && fileId == old(fileId)) &&
                 runningIntervals == if stage == PutFailed then old(runningIntervals) + 1 else old(runningIntervals))
    {
      if file.None? || user.None? {
        return;
      }
      var f, u := file.value, user.value;
      var fileIdToUploadTo := newId;
      StartUpload(ticks);
      var blobName := BlobName(u.id, fileIdToUploadTo, f.name);
      var blob := put(blobName);
      ghost var stage := if blob.Threw? then PutFailed
                         else StageAfterPut(f, u, fileIdToUploadTo, blob.value, save, generate);
      assert stage == UploadStage(f, u, newId, put, save, generate);
      ghost var steps := StatusSteps(stage);
      ghost var started := progressLog;
      FinishUpload(f, u, fileIdToUploadTo, blob, save, generate);
      ConcatAfterHead(old(statusLog), steps);
      assert started + ProgressAfterPut(stage) == old(progressLog) + ProgressSteps(stage, ticks);
    }

    /** What follows once `put` has resolved: the catch block after a throw, which leaves
        the timer running; otherwise the timer is cleared and the save and the embeddings
        follow. */
    method FinishUpload(f: File, u: User, fileIdToUploadTo: string, blob: Outcome<Blob>,
                        save: FileMetadata -> Outcome<HttpResponse>, generate: string -> Outcome<()>)
      requires runningIntervals > 0
      modifies this
      ensures Valid()
      ensures var stage := if blob.Threw? then PutFailed
                           else StageAfterPut(f, u, fileIdToUploadTo, blob.value, save, generate);
              statusLog == old(statusLog) + StatusSteps(stage)[1..] &&
              progressLog == old(progressLog) + ProgressAfterPut(stage) &&
              (stage == Completed ==>
                 progress == Some(100) && status == Some(Generating) && fileId == Some(fileIdToUploadTo)) &&
              (stage != Completed ==>
                 progress == None && status == None && fileId == old(fileId)) &&
              runningIntervals == if stage == PutFailed then old(runningIntervals) else old(runningIntervals) - 1
    {
      match blob {
        case Threw(_) =>
          status, progress := None, None;
          statusLog := statusLog + [None];
          progressLog := progressLog + [None];
        case Returned(b) =>
          runningIntervals := runningIntervals - 1;
          SaveAndGenerate(f, u, fileIdToUploadTo, b, save, generate);
      }
    }

    /** The start of a run: UPLOADING with progress 0, then the interval timer, which
        fires `ticks` times while `put` is pending. */
    method StartUpload(ticks: nat)
      requires Valid()
      modifies this
      ensures Valid()
      ensures status == Some(Uploading) && progress == Ticks(Some(0), ticks) && fileId == old(fileId)
      ensures runningIntervals == old(runningIntervals) + 1
      ensures statusLog == old(statusLog) + [Some(Uploading)]
      ensures progressLog == old(progressLog) + [Some(0)] + TickValues(ticks)
    {
      status, progress := Some(Uploading), Some(0);
      statusLog := statusLog + [Some(Uploading)];
      progressLog := progressLog + [Some(0)];
      runningIntervals := runningIntervals + 1;
      TimerWhilePutPending(ticks);
    }

    /** The `ticks` firings of the timer just started, while `put` is pending. */
    method TimerWhilePutPending(ticks: nat)
      requires Valid() && runningIntervals > 0 && progress == Some(0)
      modifies this
      ensures Valid()
      ensures progress == Ticks(Some(0), ticks)
      ensures progressLog == old(progressLog) + TickValues(ticks)
      ensures status == old(status) && fileId == old(fileId)
      ensures runningIntervals == old(runningIntervals) && statusLog == old(statusLog)
    {
      var i := 0;
      while i < ticks
        invariant 0 <= i <= ticks
        invariant Valid()
        invariant progress == Ticks(Some(0), i)
        invariant status == old(status) && fileId == old(fileId)
        invariant runningIntervals == old(runningIntervals) && statusLog == old(statusLog)
        invariant progressLog == old(progressLog) + TickValues(i)
      {
        IntervalFires();
        i := i + 1;
      }
    }

    /** The part of `handleUpload` after `put` has resolved and the timer is cleared. */
    method SaveAndGenerate(f: File, u: User, fileIdToUploadTo: string, b: Blob,
                           save: FileMetadata -> Outcome<HttpResponse>, generate: string -> Outcome<()>)
      modifies this
      ensures Valid()
      ensures var stage := StageAfterPut(f, u, fileIdToUploadTo, b, save, generate);
              statusLog == old(statusLog) + StatusSteps(stage)[1..] &&
              progressLog == old(progressLog) + ProgressAfterPut(stage) &&
              (stage == Completed ==>
                 progress == Some(100) && status == Some(Generating) && fileId == Some(fileIdToUploadTo)) &&
              (stage != Completed ==>
                 progress == None && status == None && fileId == old(fileId))
      ensures runningIntervals == old(runningIntervals)
    {
      progress := Some(100);
      progressLog := progressLog + [Some(100)];
      status := Some(Uploaded);
      status := Some(Saving);
      statusLog := statusLog + [Some(Uploaded), Some(Saving)];
      var metadata := FileMetadata(fileIdToUploadTo, u.id, b.url, f.name, f.size);
      var saved := SaveFileMetadata(save(metadata));
      if saved.Err? {
        status, progress := None, None;
        statusLog := statusLog + [None];
        progressLog := progressLog + [None];
        return;
      }
      status := Some(Generating);
      statusLog := statusLog + [Some(Generating)];
      var generated := generate(fileIdToUploadTo);
      if generated.Threw? {
        status, progress := None, None;
        statusLog := statusLog + [None];
        progressLog := progressLog + [None];
        return;
      }
      fileId := Some(fileIdToUploadTo);
    }
  }
}
