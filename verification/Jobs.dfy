/**
 One generation job: its `jobs` row, its stage log, its track rows, and the calls it makes on
 the credit gate. The functions are the helpers every pipeline shares; `JobTables` performs
 them in place.
 */
module Jobs {
  import opened Options
  import opened Keys

  datatype Status = Created | Queued | Running | PostProcessing | Completed | Failed | Canceled

  datatype Stage =
    | PreparePrompt | UploadCdn | Finalize
    | Lyrics | MusicGeneration | VocalTts | MixMaster
    | StemSeparation | VoiceConversion
    | SourcePrep | Lipsync | VisualGen | MuxAudio | LyricsRender

  /** Value of the `status` column of the stage log. */
  datatype Progress = Running | Succeeded | Failed | Skipped

  datatype VideoMode = Avatar | VisualClip | LyricsVideo | UnknownMode

  /** `input_payload`; an absent value is the empty string: the pipelines only test whether it is empty. */
  datatype Payload =
    | Song(customLyrics: string, lyricsPrompt: string, voiceUrl: string,
           lyrics: string, clonedVoice: string, fallbackUsed: bool)
    | Cover(sourceUrl: string, vocalStem: string, instrumentals: seq<string>)
    | Video(mode: VideoMode, audioUrl: string, sourceVideoUrl: string, referenceImageUrl: string)

  datatype Track = Track(url: string, deleted: bool)

  /** A call on the credit gate. */
  datatype GateCall = Capture | Release

  /**
   `submits` counts the queue submissions the provider accepted, `reports` the final reports
   delivered for them (each once; strays are not counted), `gate` lists the calls made on the
   credit gate, `assets` the urls of the video assets created.
   */
  datatype Job = Job(id: Uuid, user: Uuid, reserved: int, clientKey: Option<string>,
                     status: Status, currentStage: Option<Stage>, request: Option<string>,
                     model: string, captured: int, payload: Payload,
                     stages: map<Stage, Progress>, runtime: map<Stage, string>,
                     tracks: seq<Track>, assets: seq<string>, gate: seq<GateCall>, submits: nat, reports: nat)

  /** The answers of everything outside the database during one handler. */
  datatype Env = Env(
    lyrics: Option<string>,      // lyrics LLM; None is a provider error
    clone: Option<string>,       // voice clone id; None is a provider error
    submit: Option<string>,      // request id of the queue submission; None is a provider error
    model: string,               // fallback model that accepted it
    ffmpeg: bool,                // ffmpeg is on the PATH
    instrumental: string,        // instrumental built from the stems, "" when that failed
    tool: Tool)                  // the ffmpeg tool this handler runs

  datatype Tool = Raised | Produced(url: string)

  // ---- statements on the row ----

  function SetStatus(j: Job, s: Status): Job { j.(status := s) }

  function Record(j: Job, st: Stage, p: Progress): Job { j.(stages := j.stages[st := p]) }

  function SetCurrent(j: Job, st: Stage, request: string, model: string): Job {
    j.(currentStage := Some(st), request := Some(request), status := Status.Running,
       model := model, submits := j.submits + 1)
  }

  function Keep(j: Job, st: Stage, url: string): Job { j.(runtime := j.runtime[st := url]) }

  function RuntimeUrl(j: Job, st: Stage): string {
    if st in j.runtime then j.runtime[st] else ""
  }

  /** Release, then the failed status. */
  function MarkFailed(j: Job): Job {
    j.(gate := j.gate + [Release], status := Status.Failed)
  }

  function SkipMissing(j: Job, sts: seq<Stage>): Job
    decreases |sts|
  {
    if sts == [] then j
    else
      var k := if sts[0] in j.stages then j else Record(j, sts[0], Skipped);
      SkipMissing(k, sts[1..])
  }

  function CapturedUnits(j: Job): int { if j.reserved > 0 then j.reserved else 0 }

  function WithTrack(j: Job, url: string): Job {
    if j.tracks == [] then j.(tracks := [Track(url, false)]) else j
  }

  function MarkSucceeded(j: Job): Job {
    j.(status := Completed, captured := CapturedUnits(j))
  }

  /** Common tail of the song and cover finalisers once there is an output. */
  function Delivered(j: Job, url: string): Job {
    var k := Record(j.(gate := j.gate + [Capture]), Finalize, Progress.Running);
    Record(MarkSucceeded(WithTrack(k, url)), Finalize, Succeeded)
  }

  function NothingToDeliver(j: Job): Job { MarkFailed(Record(j, Finalize, Progress.Failed)) }

  /** The handler guard: a report for another stage than the current one is ignored. */
  predicate Stale(j: Job, completed: Stage) {
    j.currentStage.Some? && j.currentStage.value != completed
  }

  // ---- shapes of a row ----

  predicate Outstanding(j: Job) { j.reports < j.submits }

  predicate Terminal(j: Job) { j.status == Completed || j.status == Status.Failed }

  ghost predicate NoneRunning(j: Job) {
    forall st :: st in j.stages ==> j.stages[st] != Progress.Running
  }

  ghost predicate OnlyRunning(j: Job, st: Stage) {
    forall x :: x in j.stages && j.stages[x] == Progress.Running ==> x == st
  }

  /** A row as `create_job` inserts it. */
  ghost predicate Fresh(j: Job) {
    && j.status == Created && j.currentStage == None && j.request == None && j.captured == 0
    && j.stages == map[] && j.runtime == map[] && j.tracks == [] && j.assets == [] && j.gate == []
    && j.submits == 0 && j.reports == 0
    && (j.payload.Song? ==> j.payload.lyrics == "" && j.payload.clonedVoice == "" && !j.payload.fallbackUsed)
  }

  /** One accepted request is waiting for its report. */
  ghost predicate Waiting(j: Job) {
    && j.status == Status.Running && j.currentStage.Some? && j.request.Some?
    && j.submits == j.reports + 1
    && OnlyRunning(j, j.currentStage.value)
  }

  /** `k` is `before` run to its end: terminal, nothing left running, exactly one matching gate call. */
  ghost predicate Ended(k: Job, before: Job) {
    && Terminal(k) && NoneRunning(k) && SameJob(k, before)
    && k.submits == before.submits && k.reports == before.reports
    && k.gate == before.gate + [if k.status == Completed then Capture else Release]
    && (k.status == Completed ==> k.captured == CapturedUnits(before))
  }

  predicate SameKind(p: Payload, q: Payload) { p.Song? == q.Song? && p.Cover? == q.Cover? }

  ghost predicate SameJob(j: Job, k: Job) {
    && SameKind(j.payload, k.payload) && j.id == k.id && j.user == k.user
    && j.reserved == k.reserved && j.clientKey == k.clientKey
  }

  lemma {:induction false} SkipMissingOnlySkips(j: Job, sts: seq<Stage>)
    ensures SkipMissing(j, sts) == j.(stages := SkipMissing(j, sts).stages)
    ensures NoneRunning(j) ==> NoneRunning(SkipMissing(j, sts))
    decreases |sts|
  {
    if sts != [] {
      SkipMissingOnlySkips(if sts[0] in j.stages then j else Record(j, sts[0], Skipped), sts[1..]);
    }
  }

  /** Exactly the stages without a record are marked skipped; what is recorded stays. */
  lemma {:induction false} SkipMissingFillsLog(j: Job, sts: seq<Stage>, st: Stage)
    ensures var k := SkipMissing(j, sts);
            && (st in k.stages <==> st in j.stages || st in sts)
            && (st in k.stages ==> k.stages[st] == if st in j.stages then j.stages[st] else Skipped)
    decreases |sts|
  {
    if sts != [] {
      SkipMissingFillsLog(if sts[0] in j.stages then j else Record(j, sts[0], Skipped), sts[1..], st);
    }
  }

  /** `k` is `j` with another status and stage log, nothing newly running. */
  ghost predicate Relogged(k: Job, j: Job) {
    k == j.(status := k.status, stages := k.stages) && (NoneRunning(j) ==> NoneRunning(k))
  }

  lemma SkippingRelogs(j: Job, sts: seq<Stage>)
    ensures Relogged(SkipMissing(SetStatus(j, PostProcessing), sts), j)
  {
    SkipMissingOnlySkips(SetStatus(j, PostProcessing), sts);
  }

  lemma RecordRelogs(k: Job, j: Job, st: Stage, p: Progress)
    requires Relogged(k, j) && p != Progress.Running
    ensures Relogged(Record(k, st, p), j)
  {
  }

  function DeliveredIfAny(k: Job, url: string): Job {
    if url == "" then NothingToDeliver(k) else Delivered(k, url)
  }

  /** Capture and track, or release: the job has ended. */
  lemma DeliveryEnds(k: Job, j: Job, url: string)
    requires Relogged(k, j) && NoneRunning(j)
    ensures Ended(DeliveredIfAny(k, url), j)
  {
  }

  lemma DeliveryKeepsOneTrack(k: Job, j: Job, url: string)
    requires Relogged(k, j) && |j.tracks| <= 1
    ensures OneTrack(DeliveredIfAny(k, url)) && SameJob(DeliveredIfAny(k, url), j)
  {
  }

  ghost predicate DeliveredFile(k: Job, url: string) {
    && (k.status == Completed <==> url != "")
    && UploadCdn in k.stages && k.stages[UploadCdn] == Succeeded
    && Finalize in k.stages && k.stages[Finalize] == (if url != "" then Succeeded else Progress.Failed)
    && k.tracks == if url != "" then [Track(url, false)] else []
  }

  /** What the stage log says about a stage, if anything. */
  function LogAt(j: Job, st: Stage): Option<Progress> {
    if st in j.stages then Some(j.stages[st]) else None
  }

  lemma SkippingLog(j: Job, sts: seq<Stage>, st: Stage)
    ensures LogAt(SkipMissing(SetStatus(j, PostProcessing), sts), st) ==
            if LogAt(j, st) == None && st in sts then Some(Skipped) else LogAt(j, st)
  {
    SkipMissingFillsLog(SetStatus(j, PostProcessing), sts, st);
  }

  lemma DeliveryLog(k: Job, url: string, st: Stage)
    ensures var r := DeliveredIfAny(k, url);
            LogAt(r, st) == if st != Finalize then LogAt(k, st)
                            else Some(if url != "" then Succeeded else Progress.Failed)
  {
  }

  /** A job without a track gets one with the file, iff there is a file. */
  lemma DeliveryMakesTrack(k: Job, url: string)
    requires k.tracks == [] && k.status == PostProcessing && UploadCdn in k.stages && k.stages[UploadCdn] == Succeeded
    ensures DeliveredFile(DeliveredIfAny(k, url), url)
  {
  }

  /**
   What one handler call did to a job: nothing more than the given gate call, with the status that
   goes with it, or one more accepted submission. A track that exists, deleted or not, stays as it is.
   */
  ghost predicate Acts(k: Job, j: Job, call: Option<GateCall>) {
    && SameJob(k, j) && k.reports == j.reports
    && (j.tracks != [] ==> k.tracks == j.tracks)
    && match call
       case Some(g) =>
         k.gate == j.gate + [g] && k.submits == j.submits && k.status == StatusAfter(g)
       case None =>
         k.gate == j.gate && k.submits == j.submits + 1 && k.status == Status.Running && k.request.Some?
  }

  function StatusAfter(g: GateCall): Status { if g == Capture then Completed else Status.Failed }

  lemma DeliveryActs(k: Job, j: Job, url: string)
    requires Relogged(k, j)
    ensures Acts(DeliveredIfAny(k, url), j, Some(if url == "" then Release else Capture))
  {
  }

  /** The same call as seen from an earlier form of the row. */
  lemma ActsBefore(k: Job, b: Job, j: Job, call: Option<GateCall>)
    requires Acts(k, b, call)
    requires SameJob(b, j) && b.reports == j.reports && b.submits == j.submits && b.gate == j.gate
    requires b.tracks == j.tracks
    ensures Acts(k, j, call)
  {
  }

  /** What the end of a job says about it is the same for any earlier form of the row. */
  lemma EndedBefore(k: Job, b: Job, j: Job)
    requires Ended(k, b) && SameJob(b, j) && b.submits == j.submits && b.reports == j.reports && b.gate == j.gate
    ensures Ended(k, j)
  {
  }

  /** At most one track row, soft-deleted or not; a completed song or cover has it. */
  ghost predicate OneTrack(j: Job) {
    |j.tracks| <= 1 && (j.status == Completed && !j.payload.Video? ==> |j.tracks| == 1)
  }

  class JobTables {
    const id: Uuid
    const user: Uuid
    const reserved: int
    const clientKey: Option<string>
    var status: Status
    var currentStage: Option<Stage>
    var request: Option<string>
    var model: string
    var captured: int
    var payload: Payload
    var stages: map<Stage, Progress>
    var runtime: map<Stage, string>
    var tracks: seq<Track>
    var assets: seq<string>
    var gate: seq<GateCall>
    var submits: nat
    var reports: nat

    function View(): Job
      reads this
    {
      Job(id, user, reserved, clientKey, status, currentStage, request, model, captured, payload,
          stages, runtime, tracks, assets, gate, submits, reports)
    }

    constructor (j: Job)
      ensures View() == j
    {
      id, user, reserved, clientKey := j.id, j.user, j.reserved, j.clientKey;
      status, currentStage, request, model := j.status, j.currentStage, j.request, j.model;
      captured, payload, stages, runtime := j.captured, j.payload, j.stages, j.runtime;
      tracks, assets, gate, submits, reports := j.tracks, j.assets, j.gate, j.submits, j.reports;
    }

    method MarkStatus(s: Status)
      modifies this`status
      ensures View() == SetStatus(old(View()), s)
    {
      status := s;
    }

    /** Upsert of the one stage-log row per stage. */
    method RecordStage(st: Stage, p: Progress)
      modifies this`stages
      ensures View() == Record(old(View()), st, p)
    {
      stages := stages[st := p];
    }

    method SetCurrentStage(st: Stage, requestId: string, providerModel: string)
      modifies this`currentStage, this`request, this`status, this`model, this`submits
      ensures View() == SetCurrent(old(View()), st, requestId, providerModel)
    {
      submits := submits + 1;
      currentStage := Some(st);
      request := Some(requestId);
      status := Status.Running;
      model := providerModel;
    }

    method PersistRuntime(st: Stage, url: string)
      modifies this`runtime
      ensures View() == Keep(old(View()), st, url)
    {
      runtime := runtime[st := url];
    }

    /** Pipeline failure: give the reserve back, then mark the row. With no stage running the job has ended. */
    method FailJob()
      modifies this`gate, this`status
      ensures View() == MarkFailed(old(View()))
      ensures NoneRunning(old(View())) ==> Ended(View(), old(View())) && status != Completed
    {
      gate := gate + [Release];
      status := Status.Failed;
    }

    method SkipUnrecorded(sts: seq<Stage>)
      modifies this`stages
      ensures View() == SkipMissing(old(View()), sts)
    {
      var i := 0;
      while i < |sts|
        invariant 0 <= i <= |sts|
        invariant View() == old(View()).(stages := stages)
        invariant SkipMissing(View(), sts[i..]) == SkipMissing(old(View()), sts)
      {
        assert sts[i..][1..] == sts[i + 1..];
        if sts[i] !in stages {
          RecordStage(sts[i], Skipped);
        }
        i := i + 1;
      }
    }

    /** Capture, then track (once per job) and completed status in one transaction. */
    method DeliverTrack(url: string)
      modifies this`gate, this`stages, this`tracks, this`status, this`captured
      ensures View() == Delivered(old(View()), url)
    {
      gate := gate + [Capture];
      var units := if reserved > 0 then reserved else 0;
      RecordStage(Finalize, Progress.Running);
      if |tracks| == 0 {  // soft-deleted rows count as existing
        tracks := tracks + [Track(url, false)];
      }
      status := Completed;
      captured := units;
      RecordStage(Finalize, Succeeded);
    }
  }
}
