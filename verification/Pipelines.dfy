/**
 The runner: dispatch of starts and provider reports to the three pipelines, and what holds of
 whole runs of a job. A report is delivered by the webhook for the stage the job is in.
 */
module Pipelines {
  import opened Options
  import opened Jobs
  import S = SongPipeline
  import C = CoverPipeline
  import V = VideoPipeline

  datatype Report =
    | ReportCompleted(media: string, stems: C.Stems, env: Env)
    | ReportFailed(canceled: bool, env: Env)

  function StartPipeline(j: Job, env: Env): (Job, bool) {
    match j.payload
    case Song(_, _, _, _, _, _) => S.Start(j, env)
    case Cover(_, _, _) => C.Start(j, env)
    case Video(_, _, _, _) => V.Start(j, env)
  }

  /** `create_job` after the insert: a submission error releases the reserve and fails the row. */
  function Launched(j: Job, env: Env): Job {
    var (k, raised) := StartPipeline(j, env);
    if !raised then k
    else k.(gate := if k.reserved != 0 then k.gate + [Release] else k.gate, status := Status.Failed)
  }

  /** One handler call for any stage, in any state of the job. */
  function Handled(j: Job, stage: Stage, r: Report): Job {
    match (j.payload, r)
    case (Song(_, _, _, _, _, _), ReportCompleted(media, _, env)) => S.Advance(j, stage, media, env)
    case (Song(_, _, _, _, _, _), ReportFailed(canceled, env)) => S.Fail(j, stage, canceled, env)
    case (Cover(_, _, _), ReportCompleted(media, stems, env)) => C.Advance(j, stage, media, stems, env)
    case (Cover(_, _, _), ReportFailed(_, _)) => C.Fail(j, stage)
    case (Video(_, _, _, _), ReportCompleted(media, _, env)) => V.Advance(j, stage, media, env)
    case (Video(_, _, _, _), ReportFailed(_, _)) => V.Fail(j, stage)
  }

  function WebhookStage(j: Job): Stage {
    if j.currentStage.Some? then j.currentStage.value else MusicGeneration
  }

  function Counted(j: Job): Job { j.(reports := j.reports + 1) }

  /** The final report of the outstanding request. */
  function Delivered(j: Job, r: Report): Job {
    Handled(Counted(j), WebhookStage(j), r)
  }

  // ---- in place ----

  method Start(db: JobTables, env: Env) returns (raised: bool)
    modifies db
    ensures (db.View(), raised) == StartPipeline(old(db.View()), env)
  {
    match db.payload
    case Song(_, _, _, _, _, _) => raised := S.StartSong(db, env);
    case Cover(_, _, _) => raised := C.StartCover(db, env);
    case Video(_, _, _, _) => raised := V.StartVideo(db, env);
  }

  method Launch(db: JobTables, env: Env) returns (raised: bool)
    modifies db
    ensures db.View() == Launched(old(db.View()), env)
    ensures raised == StartPipeline(old(db.View()), env).1
  {
    raised := Start(db, env);
    if raised {
      if db.reserved != 0 {
        db.gate := db.gate + [Release];
      }
      db.status := Status.Failed;
    }
  }

  method AdvanceJob(db: JobTables, stage: Stage, media: string, stems: C.Stems, env: Env)
    modifies db
    ensures db.View() == Handled(old(db.View()), stage, ReportCompleted(media, stems, env))
  {
    match db.payload
    case Song(_, _, _, _, _, _) => S.AdvanceSong(db, stage, media, env);
    case Cover(_, _, _) => C.AdvanceCover(db, stage, media, stems, env);
    case Video(_, _, _, _) => V.AdvanceVideo(db, stage, media, env);
  }

  method FailJob(db: JobTables, stage: Stage, canceled: bool, env: Env)
    modifies db
    ensures db.View() == Handled(old(db.View()), stage, ReportFailed(canceled, env))
  {
    match db.payload
    case Song(_, _, _, _, _, _) => S.FailSong(db, stage, canceled, env);
    case Cover(_, _, _) => C.FailCover(db, stage);
    case Video(_, _, _, _) => V.FailVideo(db, stage);
  }

  method Deliver(db: JobTables, r: Report)
    modifies db
    ensures db.View() == Delivered(old(db.View()), r)
  {
    var stage := if db.currentStage.Some? then db.currentStage.value else MusicGeneration;
    CountReport(db);
    Handle(db, stage, r);
  }

  method CountReport(db: JobTables)
    modifies db`reports
    ensures db.View() == Counted(old(db.View()))
  {
    db.reports := db.reports + 1;
  }

  method Handle(db: JobTables, stage: Stage, r: Report)
    modifies db
    ensures db.View() == Handled(old(db.View()), stage, r)
  {
    if r.ReportCompleted? {
      AdvanceJob(db, stage, r.media, r.stems, r.env);
    } else {
      FailJob(db, stage, r.canceled, r.env);
    }
  }

  // ---- one step ----

  function MaxSubmits(p: Payload): nat {
    match p
    case Song(_, _, _, _, _, _) => 3
    case Cover(_, _, _) => 2
    case Video(_, _, _, _) => 1
  }

  /** Reports that may still come, the outstanding one included. */
  function Left(j: Job): nat {
    match j.payload
    case Song(_, _, _, _, _, _) => S.Left(j)
    case Cover(_, _, _) => C.Left(j)
    case Video(_, _, _, _) => 1
  }

  ghost predicate InProgress(j: Job) {
    match j.payload
    case Song(_, _, _, _, _, _) => S.InProgress(j)
    case Cover(_, _, _) => C.InProgress(j)
    case Video(_, _, _, _) => V.InProgress(j)
  }

  ghost predicate Proceeds(k: Job, j: Job) {
    InProgress(k) && SameJob(k, j) && k.gate == j.gate && k.submits == j.submits + 1 && Left(k) < Left(j)
  }

  lemma SongMovesOn(j: Job, r: Report)
    requires S.InProgress(j)
    ensures Proceeds(Delivered(j, r), j) || Ended(Delivered(j, r), Counted(j))
  {
    assert Counted(j) == j.(reports := j.submits);
    match r
    case ReportCompleted(media, _, env) => S.CompletedReportMovesOn(j, media, env);
    case ReportFailed(canceled, env) => S.FailedReportMovesOn(j, canceled, env);
  }

  lemma CoverMovesOn(j: Job, r: Report)
    requires C.InProgress(j)
    ensures Proceeds(Delivered(j, r), j) || Ended(Delivered(j, r), Counted(j))
  {
    assert Counted(j) == j.(reports := j.submits);
    match r
    case ReportCompleted(media, stems, env) => C.CompletedReportMovesOn(j, media, stems, env);
    case ReportFailed(_, _) => C.FailedReportEnds(j);
  }

  lemma VideoEnds(j: Job, r: Report)
    requires V.InProgress(j)
    ensures Ended(Delivered(j, r), Counted(j))
  {
    assert Counted(j) == j.(reports := j.submits);
    match r
    case ReportCompleted(media, _, env) => V.CompletedReportEnds(j, media, env);
    case ReportFailed(_, _) => V.FailedReportEnds(j);
  }

  /** A final report submits the next request or ends the job with exactly one gate call. */
  lemma ReportMovesOn(j: Job, r: Report)
    requires InProgress(j)
    ensures Proceeds(Delivered(j, r), j) || Ended(Delivered(j, r), Counted(j))
  {
    match j.payload
    case Song(_, _, _, _, _, _) => SongMovesOn(j, r);
    case Cover(_, _, _) => CoverMovesOn(j, r);
    case Video(_, _, _, _) => VideoEnds(j, r);
  }

  /** Where a priced job stands: waiting unsettled, completed with its capture, or failed with its release. */
  ghost predicate SettledOnce(j: Job) {
    && j.submits <= MaxSubmits(j.payload)
    && (if Terminal(j) then
          && NoneRunning(j) && j.submits == j.reports
          && (if j.status == Completed then j.gate == [Capture] && j.captured == j.reserved
              else j.gate == [Release])
        else
          InProgress(j) && j.gate == [] && j.submits + Left(j) <= MaxSubmits(j.payload) + 1)
  }

  /** A launched job, priced or free, waits for its first report or has failed with its reserve released. */
  lemma LaunchWaitsOrFails(j: Job, env: Env)
    requires Fresh(j)
    ensures var k := Launched(j, env);
            && SameJob(k, j) && k.reports == 0 && k.tracks == []
            && if Terminal(k) then
                 k.status == Status.Failed && NoneRunning(k) && k.submits == 0
                 && (k.gate == [Release] || (j.reserved == 0 && k.gate == []))
               else InProgress(k) && k.submits == 1 && k.gate == []
  {
    match j.payload
    case Song(_, _, _, _, _, _) => S.StartWaitsOrRaises(j, env);
    case Cover(_, _, _) => C.StartWaitsOrEnds(j, env);
    case Video(_, _, _, _) => V.StartWaitsOrEnds(j, env);
  }

  lemma ReportKeepsSettledOnce(j: Job, r: Report)
    requires SettledOnce(j) && Outstanding(j) && j.reserved > 0
    ensures SettledOnce(Delivered(j, r)) && SameJob(Delivered(j, r), j)
    ensures Terminal(Delivered(j, r)) || Left(Delivered(j, r)) < Left(j)
  {
    ReportMovesOn(j, r);
  }

  // ---- whole runs of one job ----

  /** Reports in the order they arrive, each accepted request being reported once. */
  function RunReports(j: Job, rs: seq<Report>): Job
    decreases |rs|
  {
    if rs == [] || !Outstanding(j) then j else RunReports(Delivered(j, rs[0]), rs[1..])
  }

  lemma {:induction false} RunKeepsSettledOnce(j: Job, rs: seq<Report>)
    requires SettledOnce(j) && j.reserved > 0
    ensures SettledOnce(RunReports(j, rs)) && SameJob(RunReports(j, rs), j)
    ensures InProgress(j) && |rs| >= Left(j) ==> Terminal(RunReports(j, rs))
    decreases |rs|
  {
    if rs != [] && Outstanding(j) {
      ReportKeepsSettledOnce(j, rs[0]);
      RunKeepsSettledOnce(Delivered(j, rs[0]), rs[1..]);
    }
  }

  /**
   Settlement and termination over every run of a priced job: completed means one capture of
   the whole reserve, failed means one release, active means neither; the provider accepts a
   bounded number of submissions; and that many reports make the job terminal, with no stage
   of the log left running.
   */
  lemma EveryRunSettlesOnce(j: Job, env: Env, rs: seq<Report>)
    requires Fresh(j) && j.reserved > 0
    ensures var k := RunReports(Launched(j, env), rs);
            var most := if j.payload.Song? then 3 else if j.payload.Cover? then 2 else 1;
            && k.submits <= most
            && (Terminal(k) ==> !Outstanding(k) && NoneRunning(k))
            && (!Terminal(k) ==> k.gate == [] && Outstanding(k) && k.status == Status.Running)
            && (k.status == Completed ==> k.gate == [Capture] && k.captured == j.reserved)
            && (k.status == Status.Failed ==> k.gate == [Release])
            && (|rs| >= most ==> Terminal(k))
  {
    LaunchWaitsOrFails(j, env);
    RunKeepsSettledOnce(Launched(j, env), rs);
  }

  // ---- reports beyond the one per request ----

  /** The stage guard: only completed reports are checked against the current stage. */
  predicate Ignored(j: Job, stage: Stage, r: Report) { r.ReportCompleted? && Stale(j, stage) }

  /** The gate call a handler makes, None when a submission is accepted instead. */
  function GateCallOf(j: Job, stage: Stage, r: Report): Option<GateCall> {
    match (j.payload, r)
    case (Song(_, _, _, _, _, _), ReportCompleted(media, _, env)) => S.CompletedCall(j, stage, media, env)
    case (Song(_, _, _, _, _, _), ReportFailed(canceled, env)) => S.FailedCall(j, stage, canceled, env)
    case (Cover(_, _, _), ReportCompleted(media, stems, env)) => C.CompletedCall(j, stage, media, stems, env)
    case (Video(_, _, _, _), ReportCompleted(media, _, env)) => V.CompletedCall(j, stage, media, env)
    case _ => Some(Release)
  }

  /** In any state, for any stage, a handler does nothing, makes that one call, or submits once. */
  lemma HandlerActs(j: Job, stage: Stage, r: Report)
    ensures if Ignored(j, stage, r) then Handled(j, stage, r) == j
            else Acts(Handled(j, stage, r), j, GateCallOf(j, stage, r))
  {
    match (j.payload, r)
    case (Song(_, _, _, _, _, _), ReportCompleted(media, _, env)) =>
      if !Stale(j, stage) { S.AdvanceActs(j, stage, media, env); }
    case (Song(_, _, _, _, _, _), ReportFailed(canceled, env)) => S.FailActs(j, stage, canceled, env);
    case (Cover(_, _, _), ReportCompleted(media, stems, env)) =>
      if !Stale(j, stage) { C.AdvanceActs(j, stage, media, stems, env); }
    case (Cover(_, _, _), ReportFailed(_, _)) => C.FailActs(j, stage);
    case (Video(_, _, _, _), ReportCompleted(media, _, env)) =>
      if !Stale(j, stage) { V.AdvanceActs(j, stage, media, env); }
    case (Video(_, _, _, _), ReportFailed(_, _)) => V.FailActs(j, stage);
  }

  /** The calls on the gate agree with the status; the same call twice is one call to the ledger. */
  predicate GateMatches(j: Job) {
    && (Capture in j.gate <==> j.status == Completed)
    && (Release in j.gate <==> j.status == Status.Failed)
  }

  function MatchingCall(j: Job): GateCall { if j.status == Completed then Capture else Release }

  /** A finished job is left alone, or settled the same way once more. */
  predicate Harmless(j: Job, stage: Stage, r: Report) {
    Ignored(j, stage, r) || !Terminal(j) || GateCallOf(j, stage, r) == Some(MatchingCall(j))
  }

  /** Any handler call, repeated, stale or misdirected, keeps the settlement exactly when it is harmless. */
  lemma CallKeepsSettlementIff(j: Job, stage: Stage, r: Report)
    requires GateMatches(j)
    ensures GateMatches(Handled(j, stage, r)) <==> Harmless(j, stage, r)
  {
    HandlerActs(j, stage, r);
  }

  /** A finished job ends up both captured and released exactly when the call is the other one. */
  lemma SettlesTwiceIff(j: Job, stage: Stage, r: Report)
    requires GateMatches(j) && Terminal(j)
    ensures (Capture in Handled(j, stage, r).gate && Release in Handled(j, stage, r).gate) <==>
            !Ignored(j, stage, r)
            && GateCallOf(j, stage, r) == Some(if j.status == Completed then Release else Capture)
  {
    HandlerActs(j, stage, r);
  }

  function RunHandlers(j: Job, hs: seq<(Stage, Report)>): Job {
    if hs == [] then j
    else Handled(RunHandlers(j, hs[..|hs| - 1]), hs[|hs| - 1].0, hs[|hs| - 1].1)
  }

  /** The settlement holds at the start and after every call. */
  predicate SettledThroughout(j: Job, hs: seq<(Stage, Report)>) {
    GateMatches(RunHandlers(j, hs)) && (hs == [] || SettledThroughout(j, hs[..|hs| - 1]))
  }

  /** Every call finds the job in a state in which it is harmless. */
  predicate AllHarmless(j: Job, hs: seq<(Stage, Report)>) {
    hs == [] ||
    (AllHarmless(j, hs[..|hs| - 1]) && Harmless(RunHandlers(j, hs[..|hs| - 1]), hs[|hs| - 1].0, hs[|hs| - 1].1))
  }

  /** Without any assumption on the reports: the settlement holds throughout iff every call was harmless. */
  lemma {:induction false} SettledThroughoutIff(j: Job, hs: seq<(Stage, Report)>)
    requires GateMatches(j)
    ensures SettledThroughout(j, hs) <==> AllHarmless(j, hs)
  {
    if hs != [] {
      var n := |hs| - 1;
      var k := RunHandlers(j, hs[..n]);
      SettledThroughoutIff(j, hs[..n]);
      if GateMatches(k) { CallKeepsSettlementIff(k, hs[n].0, hs[n].1); }
    }
  }

  /** The starting point: whatever once-only reports leave behind matches. */
  lemma OnceOnlyRunsMatch(j: Job, env: Env, rs: seq<Report>)
    requires Fresh(j) && j.reserved > 0
    ensures GateMatches(RunReports(Launched(j, env), rs))
  {
    EveryRunSettlesOnce(j, env, rs);
  }

  /** The condition read for a finished song, with or without vocals. */
  lemma FinishedSongSurvivesIff(j: Job, stage: Stage, r: Report)
    requires j.payload.Song? && Terminal(j) && GateMatches(j)
    ensures GateMatches(Handled(j, stage, r)) <==>
            match r
            case ReportCompleted(media, _, env) =>
              || (j.currentStage.Some? && j.currentStage != Some(stage))
              || (&& !(&& stage == MusicGeneration && j.payload.voiceUrl != "" && j.payload.lyrics != ""
                       && S.VocalsAccepted(j, env))
                  && (S.MusicUrl(j, stage, media) != "" <==> j.status == Completed))
            case ReportFailed(canceled, env) =>
              && j.status == Status.Failed
              && !(stage == MusicGeneration && !canceled && S.FallbackOpen(j) && env.submit.Some?)
  {
    CallKeepsSettlementIff(j, stage, r);
  }

  lemma FinishedCoverSurvivesIff(j: Job, stage: Stage, r: Report)
    requires j.payload.Cover? && Terminal(j) && GateMatches(j)
    ensures GateMatches(Handled(j, stage, r)) <==>
            match r
            case ReportCompleted(media, stems, env) =>
              || (j.currentStage.Some? && j.currentStage != Some(stage))
              || (&& !(stage == StemSeparation && C.ConversionAccepted(stems, env))
                  && (C.VocalsUrl(j, stage, media) != "" <==> j.status == Completed))
            case ReportFailed(_, _) => j.status == Status.Failed
  {
    CallKeepsSettlementIff(j, stage, r);
  }

  lemma FinishedVideoSurvivesIff(j: Job, stage: Stage, r: Report)
    requires j.payload.Video? && Terminal(j) && GateMatches(j)
    ensures GateMatches(Handled(j, stage, r)) <==>
            match r
            case ReportCompleted(media, _, env) =>
              || (j.currentStage.Some? && j.currentStage != Some(stage))
              || (var rendered := j.payload.audioUrl != "" && V.ToolDelivers(env);
                  (media != "" && (V.Renders(j, stage) ==> rendered)) <==> j.status == Completed)
            case ReportFailed(_, _) => j.status == Status.Failed
  {
    CallKeepsSettlementIff(j, stage, r);
  }

  /**
   The once-only assumption is needed: the handlers look at the stage, not at the status, so a
   second final report for a finished song captures and releases the same reserve.
   */
  lemma SecondReportSettlesTwice(j: Job, first: Report, second: Report)
    requires S.InProgress(j) && j.gate == [] && j.tracks == [] && j.currentStage == Some(MusicGeneration)
    requires j.payload.voiceUrl == "" && RuntimeUrl(j, VocalTts) == ""
    requires first.ReportCompleted? && first.media != "" && second.ReportFailed? && second.canceled
    ensures var k := Delivered(Delivered(j, first), second);
            k.gate == [Capture, Release] && k.status == Status.Failed && |k.tracks| == 1
  {
    FirstReportCompletes(j, first);
    CanceledReportReleases(Delivered(j, first), second);
  }

  lemma FirstReportCompletes(j: Job, r: Report)
    requires j.payload.Song? && j.payload.voiceUrl == "" && j.currentStage == Some(MusicGeneration)
    requires RuntimeUrl(j, VocalTts) == "" && |j.tracks| <= 1 && r.ReportCompleted? && r.media != ""
    ensures var k := Delivered(j, r);
            && k.gate == j.gate + [Capture] && k.status == Completed && |k.tracks| == 1
            && k.payload == j.payload && k.currentStage == j.currentStage
  {
    S.MusicAloneCompletes(Counted(j), r.media, r.env);
  }

  lemma CanceledReportReleases(j: Job, r: Report)
    requires j.payload.Song? && r.ReportFailed? && r.canceled
    ensures var k := Delivered(j, r);
            k.gate == j.gate + [Release] && k.status == Status.Failed && k.tracks == j.tracks
  {
  }

  // ---- one track per job, under any calls ----

  datatype Call =
    | Begin(env: Env)                        // start, with the failure path of `create_job`
    | Handler(stage: Stage, report: Report)  // repeated, reordered, stale or for another stage
    | Recovery                               // startup recovery marks the row failed
    | SoftDelete

  function Called(j: Job, c: Call): Job {
    match c
    case Begin(env) => Launched(j, env)
    case Handler(stage, r) => Handled(j, stage, r)
    case Recovery => SetStatus(j, Status.Failed)
    case SoftDelete => j.(tracks := Deleted(j.tracks))
  }

  function Deleted(ts: seq<Track>): seq<Track> {
    seq(|ts|, i requires 0 <= i < |ts| => ts[i].(deleted := true))
  }

  function RunCalls(j: Job, cs: seq<Call>): Job {
    if cs == [] then j else Called(RunCalls(j, cs[..|cs| - 1]), cs[|cs| - 1])
  }

  lemma CallKeepsOneTrack(j: Job, c: Call)
    requires OneTrack(j) && !j.payload.Video?
    ensures OneTrack(Called(j, c)) && SameJob(Called(j, c), j)
  {
    match c
    case SoftDelete =>
    case Recovery =>
    case Begin(env) =>
      if j.payload.Song? { S.StartKeepsTracks(j, env); } else { C.StartKeepsTracks(j, env); }
    case Handler(stage, r) =>
      match (j.payload, r)
      case (Song(_, _, _, _, _, _), ReportCompleted(media, _, env)) => S.AdvanceKeepsOneTrack(j, stage, media, env);
      case (Song(_, _, _, _, _, _), ReportFailed(canceled, env)) => S.FailKeepsOneTrack(j, stage, canceled, env);
      case (Cover(_, _, _), ReportCompleted(media, stems, env)) => C.HandlersKeepOneTrack(j, stage, media, stems, env);
      case (Cover(_, _, _), ReportFailed(_, env)) => C.HandlersKeepOneTrack(j, stage, "", [], env);
      case _ =>
  }

  /**
   No assumption on the reports: from a row in any stage of its life, under any sequence of
   starts, repeated, reordered or misdirected reports, recoveries and soft deletions, a song or
   cover has at most one track row, and is completed only with it.
   */
  lemma {:induction false} OneTrackUnderAnyCalls(j: Job, cs: seq<Call>)
    requires OneTrack(j) && !j.payload.Video?
    ensures OneTrack(RunCalls(j, cs)) && SameJob(RunCalls(j, cs), j)
  {
    if cs != [] {
      OneTrackUnderAnyCalls(j, cs[..|cs| - 1]);
      CallKeepsOneTrack(RunCalls(j, cs[..|cs| - 1]), cs[|cs| - 1]);
    }
  }

  /** In particular for every new job, whatever its start does. */
  lemma NewJobsHaveOneTrack(j: Job, env: Env, cs: seq<Call>)
    requires Fresh(j) && !j.payload.Video?
    ensures OneTrack(RunCalls(Launched(j, env), cs))
  {
    CallKeepsOneTrack(j, Begin(env));
    OneTrackUnderAnyCalls(Launched(j, env), cs);
  }

  // ---- a song from its start to its vocals ----

  /**
   A new song with a voice and lyrics, the client's own or the model's, all submissions accepted,
   waits for its vocals after the music report; without either it is finished by that report.
   */
  lemma SongSings(j: Job, start: Env, r: Report)
    requires Fresh(j) && j.payload.Song? && start.submit.Some?
    requires r.ReportCompleted? && r.media != "" && r.env.submit.Some? && r.env.clone.Some?
    ensures var k := Delivered(Launched(j, start), r);
            var p := j.payload;
            var written := p.lyricsPrompt != "" && start.lyrics.Some? && |start.lyrics.value| >= 3;
            if p.voiceUrl != "" && (p.customLyrics != "" || written)
            then
              && k.status == Status.Running && k.currentStage == Some(VocalTts) && k.request == r.env.submit
              && k.gate == [] && k.submits == 2
              && k.payload.clonedVoice == r.env.clone.value
              && k.payload.lyrics == (if p.customLyrics != "" then p.customLyrics else start.lyrics.value)
            else k.status == Completed && k.gate == [Capture] && k.tracks == [Track(r.media, false)] && k.submits == 1
  {
    S.StartedSong(j, start);
    S.StartWaitsOrRaises(j, start);
    var w := Counted(Launched(j, start));
    if w.payload.voiceUrl != "" && w.payload.lyrics != "" {
      S.SungSong(w, r.media, r.env);
    } else {
      PlainSong(w, r.media, r.env);
    }
  }

  lemma PlainSong(j: Job, media: string, env: Env)
    requires j.payload.Song? && j.currentStage == Some(MusicGeneration) && j.tracks == [] && j.gate == []
    requires j.payload.voiceUrl == "" || j.payload.lyrics == ""
    requires media != "" && j.runtime == map[]
    ensures var k := S.Advance(j, MusicGeneration, media, env);
            k.status == Completed && k.gate == [Capture] && k.tracks == [Track(media, false)] && k.submits == j.submits
  {
    var a := Keep(Record(j, MusicGeneration, Succeeded), MusicGeneration, media);
    S.DeliversMixElseMusic(a, env);
    S.FinalizedActs(a, env);
  }

  lemma StartKeepsJob(j: Job, env: Env)
    ensures SameJob(Launched(j, env), j)
  {
    match j.payload
    case Song(_, _, _, _, _, _) => S.StartKeepsTracks(j, env);
    case Cover(_, _, _) => C.StartKeepsTracks(j, env);
    case Video(_, _, _, _) => V.StartKeepsJob(j, env);
  }
}
