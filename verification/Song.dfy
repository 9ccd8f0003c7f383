/** Text-to-song pipeline: lyrics, music, optional vocals, one optional fallback model. */
module SongPipeline {
  import opened Options
  import opened Jobs

  const FALLBACK_MUSIC_MODEL := "fal-ai/stable-audio"
  const FALLBACK_VOCAL_MODEL := "fal-ai/ace-step"

  // ---- specification ----

  function ResolvedLyrics(j: Job, env: Env): Job
    requires j.payload.Song?
  {
    var p := j.payload;
    if p.customLyrics != "" then
      Record(j, Lyrics, Skipped).(payload := p.(lyrics := p.customLyrics))
    else if p.lyricsPrompt == "" then Record(j, Lyrics, Skipped)
    else if env.lyrics == None then Record(Record(j, Lyrics, Progress.Running), Lyrics, Progress.Failed)
    else if |env.lyrics.value| < 3 then Record(Record(j, Lyrics, Progress.Running), Lyrics, Skipped)
    else
      Record(Record(j, Lyrics, Progress.Running), Lyrics, Succeeded).(payload := p.(lyrics := env.lyrics.value))
  }

  /** The second component tells whether the submission error escapes to `create_job`. */
  function Start(j: Job, env: Env): (Job, bool)
    requires j.payload.Song?
  {
    var a := Record(SetStatus(j, Status.Running), PreparePrompt, Succeeded);
    var b := Record(ResolvedLyrics(a, env), MusicGeneration, Progress.Running);
    if env.submit.Some? then (SetCurrent(b, MusicGeneration, env.submit.value, b.model), false)
    else (Record(b, MusicGeneration, Progress.Failed), true)
  }

  function Advance(j: Job, completed: Stage, media: string, env: Env): Job
    requires j.payload.Song?
  {
    if Stale(j, completed) then j
    else
      var a := Keep(Record(j, completed, Succeeded), completed, media);
      if completed == MusicGeneration && a.payload.voiceUrl != "" && a.payload.lyrics != ""
      then SubmittedVocals(a, env)
      else Finalized(a, env)
  }

  function SubmittedVocals(j: Job, env: Env): Job
    requires j.payload.Song?
  {
    var a := Record(j, VocalTts, Progress.Running);
    var needClone := a.payload.clonedVoice == "";
    if needClone && env.clone == None then Finalized(Record(a, VocalTts, Progress.Failed), env)
    else
      var b := if needClone then a.(payload := a.payload.(clonedVoice := env.clone.value)) else a;
      if env.submit.Some? then SetCurrent(b, VocalTts, env.submit.value, b.model)
      else Finalized(Record(b, VocalTts, Progress.Failed), env)
  }

  predicate FallbackOpen(j: Job)
    requires j.payload.Song?
  {
    !j.payload.fallbackUsed && j.model != FALLBACK_MUSIC_MODEL && j.model != FALLBACK_VOCAL_MODEL
  }

  function FallbackModel(j: Job): string
    requires j.payload.Song?
  {
    if j.payload.lyrics != "" then FALLBACK_VOCAL_MODEL else FALLBACK_MUSIC_MODEL
  }

  function Fail(j: Job, stage: Stage, canceled: bool, env: Env): Job
    requires j.payload.Song?
  {
    if stage == MusicGeneration && !canceled && FallbackOpen(j) && env.submit.Some? then
      var a := j.(payload := j.payload.(fallbackUsed := true));
      Record(SetCurrent(a, MusicGeneration, env.submit.value, FallbackModel(j)), MusicGeneration, Progress.Running)
    else MarkFailed(Record(j, stage, Progress.Failed))
  }

  /** The mixing stage and the mixed file it leaves, "" when there is none. */
  function Mixed(j: Job, env: Env): (Job, string) {
    if RuntimeUrl(j, MusicGeneration) == "" || RuntimeUrl(j, VocalTts) == "" || !env.ffmpeg then
      (Record(j, MixMaster, Skipped), "")
    else
      var a := Record(j, MixMaster, Progress.Running);
      if env.tool.Raised? || env.tool.url == "" then (Record(a, MixMaster, Progress.Failed), "")
      else (Record(a, MixMaster, Succeeded), env.tool.url)
  }

  /** The row and the file at the delivery: the mix, else the music alone. */
  function ReadyToDeliver(j: Job, env: Env): (Job, string) {
    var a := SkipMissing(SetStatus(j, PostProcessing), [MusicGeneration, VocalTts]);
    var (b, mix) := Mixed(a, env);
    var c := Record(b, UploadCdn, Succeeded);
    (c, if mix != "" then mix else RuntimeUrl(c, MusicGeneration))
  }

  function Finalized(j: Job, env: Env): Job {
    var (k, url) := ReadyToDeliver(j, env);
    DeliveredIfAny(k, url)
  }

  // ---- in place ----

  method StartSong(db: JobTables, env: Env) returns (raised: bool)
    requires db.payload.Song?
    modifies db
    ensures (db.View(), raised) == Start(old(db.View()), env)
  {
    db.MarkStatus(Status.Running);
    db.RecordStage(PreparePrompt, Succeeded);
    ResolveLyrics(db, env);
    db.RecordStage(MusicGeneration, Progress.Running);
    match env.submit
    case None =>
      db.RecordStage(MusicGeneration, Progress.Failed);
      raised := true;
    case Some(request) =>
      db.SetCurrentStage(MusicGeneration, request, db.model);
      raised := false;
  }

  method ResolveLyrics(db: JobTables, env: Env)
    requires db.payload.Song?
    modifies db`payload, db`stages
    ensures db.View() == ResolvedLyrics(old(db.View()), env)
  {
    if db.payload.customLyrics != "" {
      db.RecordStage(Lyrics, Skipped);
      db.payload := db.payload.(lyrics := db.payload.customLyrics);
      return;
    }
    if db.payload.lyricsPrompt == "" {
      db.RecordStage(Lyrics, Skipped);
      return;
    }
    db.RecordStage(Lyrics, Progress.Running);
    match env.lyrics
    case None => db.RecordStage(Lyrics, Progress.Failed);
    case Some(text) =>
      if |text| < 3 {
        db.RecordStage(Lyrics, Skipped);
      } else {
        db.payload := db.payload.(lyrics := text);
        db.RecordStage(Lyrics, Succeeded);
      }
  }

  method AdvanceSong(db: JobTables, completed: Stage, media: string, env: Env)
    requires db.payload.Song?
    modifies db
    ensures db.View() == Advance(old(db.View()), completed, media, env)
  {
    if db.currentStage.Some? && db.currentStage.value != completed {
      return;
    }
    db.RecordStage(completed, Succeeded);
    db.PersistRuntime(completed, media);
    if completed == MusicGeneration && db.payload.voiceUrl != "" && db.payload.lyrics != "" {
      SubmitVocalTts(db, env);
      return;
    }
    FinalizeSong(db, env);
  }

  method SubmitVocalTts(db: JobTables, env: Env)
    requires db.payload.Song?
    modifies db
    ensures db.View() == SubmittedVocals(old(db.View()), env)
  {
    db.RecordStage(VocalTts, Progress.Running);
    if db.payload.clonedVoice == "" {
      match env.clone
      case None =>
        db.RecordStage(VocalTts, Progress.Failed);
        FinalizeSong(db, env);
        return;
      case Some(voice) =>
        db.payload := db.payload.(clonedVoice := voice);
    }
    match env.submit
    case None =>
      db.RecordStage(VocalTts, Progress.Failed);
      FinalizeSong(db, env);
    case Some(request) =>
      db.SetCurrentStage(VocalTts, request, db.model);
  }

  method FailSong(db: JobTables, stage: Stage, canceled: bool, env: Env)
    requires db.payload.Song?
    modifies db
    ensures db.View() == Fail(old(db.View()), stage, canceled, env)
  {
    if stage == MusicGeneration && !canceled {
      var taken := TryMusicFallback(db, env);
      if taken {
        return;
      }
    }
    db.RecordStage(stage, Progress.Failed);
    db.FailJob();
  }

  method TryMusicFallback(db: JobTables, env: Env) returns (taken: bool)
    requires db.payload.Song?
    modifies db
    ensures taken == (FallbackOpen(old(db.View())) && env.submit.Some?)
    ensures taken ==> db.View() == Fail(old(db.View()), MusicGeneration, false, env)
    ensures !taken ==> db.View() == old(db.View())
  {
    if db.payload.fallbackUsed {
      return false;
    }
    if db.model == FALLBACK_MUSIC_MODEL || db.model == FALLBACK_VOCAL_MODEL {
      return false;
    }
    var model := FALLBACK_MUSIC_MODEL;
    if db.payload.lyrics != "" {
      model := FALLBACK_VOCAL_MODEL;
    }
    if env.submit == None {
      return false;
    }
    db.payload := db.payload.(fallbackUsed := true);
    db.SetCurrentStage(MusicGeneration, env.submit.value, model);
    db.RecordStage(MusicGeneration, Progress.Running);
    return true;
  }

  method FinalizeSong(db: JobTables, env: Env)
    modifies db
    ensures db.View() == Finalized(old(db.View()), env)
  {
    db.MarkStatus(PostProcessing);
    db.SkipUnrecorded([MusicGeneration, VocalTts]);
    var url := MaybeMix(db, env);
    db.RecordStage(UploadCdn, Succeeded);
    if url == "" {
      url := RuntimeUrl(db.View(), MusicGeneration);
    }
    if url == "" {
      db.RecordStage(Finalize, Progress.Failed);
      db.FailJob();
      return;
    }
    db.DeliverTrack(url);
  }

  method MaybeMix(db: JobTables, env: Env) returns (url: string)
    modifies db`stages
    ensures (db.View(), url) == Mixed(old(db.View()), env)
  {
    url := "";
    var music := RuntimeUrl(db.View(), MusicGeneration);
    var vocal := RuntimeUrl(db.View(), VocalTts);
    if music == "" || vocal == "" {
      db.RecordStage(MixMaster, Skipped);
      return;
    }
    if !env.ffmpeg {
      db.RecordStage(MixMaster, Skipped);
      return;
    }
    db.RecordStage(MixMaster, Progress.Running);
    match env.tool
    case Raised => db.RecordStage(MixMaster, Progress.Failed);
    case Produced(file) =>
      if file == "" {
        db.RecordStage(MixMaster, Progress.Failed);
      } else {
        db.RecordStage(MixMaster, Succeeded);
        url := file;
      }
  }

  // ---- one report moves the job on ----

  /** Reports the provider may still send, counting the outstanding one. */
  function Left(j: Job): nat
    requires j.payload.Song?
  {
    if j.currentStage == Some(VocalTts) then 1
    else if j.payload.fallbackUsed then 2 else 3
  }

  ghost predicate InProgress(j: Job) {
    && Waiting(j) && j.payload.Song?
    && (j.currentStage == Some(MusicGeneration) || j.currentStage == Some(VocalTts))
    && j.submits + Left(j) <= 4
  }

  lemma MixedRelogs(k: Job, j: Job, env: Env)
    requires Relogged(k, j)
    ensures Relogged(Mixed(k, env).0, j)
  {
  }

  /** Up to the delivery only the status and the stage log change. */
  lemma ReadyToDeliverRelogs(j: Job, env: Env)
    ensures Relogged(ReadyToDeliver(j, env).0, j)
  {
    var a := SkipMissing(SetStatus(j, PostProcessing), [MusicGeneration, VocalTts]);
    SkippingRelogs(j, [MusicGeneration, VocalTts]);
    MixedRelogs(a, j, env);
    RecordRelogs(Mixed(a, env).0, j, UploadCdn, Succeeded);
  }

  lemma FinalizedEnds(j: Job, env: Env)
    requires NoneRunning(j)
    ensures Ended(Finalized(j, env), j)
  {
    ReadyToDeliverRelogs(j, env);
    var (k, url) := ReadyToDeliver(j, env);
    DeliveryEnds(k, j, url);
  }

  lemma FinalizedKeepsOneTrack(j: Job, env: Env)
    requires |j.tracks| <= 1
    ensures OneTrack(Finalized(j, env)) && SameJob(Finalized(j, env), j)
  {
    ReadyToDeliverRelogs(j, env);
    var (k, url) := ReadyToDeliver(j, env);
    DeliveryKeepsOneTrack(k, j, url);
  }

  predicate Mixes(j: Job, env: Env) {
    && RuntimeUrl(j, MusicGeneration) != "" && RuntimeUrl(j, VocalTts) != "" && env.ffmpeg
    && env.tool.Produced? && env.tool.url != ""
  }

  /** The song completes iff there is music, and the track carries the mix when it succeeds, else the music. */
  lemma DeliversMixElseMusic(j: Job, env: Env)
    requires j.tracks == []
    ensures DeliveredFile(Finalized(j, env), if Mixes(j, env) then env.tool.url else RuntimeUrl(j, MusicGeneration))
  {
    SkipMissingOnlySkips(SetStatus(j, PostProcessing), [MusicGeneration, VocalTts]);
    ReadyToDeliverRelogs(j, env);
    var (k, url) := ReadyToDeliver(j, env);
    DeliveryMakesTrack(k, url);
  }

  /** A started job waits for its first report, or it has failed with its error passed to the caller. */
  lemma StartWaitsOrRaises(j: Job, env: Env)
    requires Fresh(j) && j.payload.Song?
    ensures var (k, raised) := Start(j, env);
            && SameJob(k, j) && k.gate == [] && k.tracks == [] && k.reports == 0
            && (!raised ==> InProgress(k) && k.submits == 1)
            && (raised ==> NoneRunning(k) && k.submits == 0)
  {
  }

  /** The vocals get their request: a voice is at hand or cloned, and the speech queue accepts. */
  predicate VocalsAccepted(j: Job, env: Env)
    requires j.payload.Song?
  {
    env.submit.Some? && (j.payload.clonedVoice != "" || env.clone.Some?)
  }

  predicate WantsVocals(j: Job)
    requires j.payload.Song?
  {
    j.currentStage == Some(MusicGeneration) && j.payload.voiceUrl != "" && j.payload.lyrics != ""
  }

  lemma VocalsWait(j: Job, env: Env)
    requires NoneRunning(j) && j.payload.Song? && j.submits == j.reports && j.submits <= 2
    requires VocalsAccepted(j, env)
    ensures var k := SubmittedVocals(j, env);
            SameJob(k, j) && InProgress(k) && k.submits == j.submits + 1 && k.gate == j.gate && Left(k) == 1
  {
  }

  lemma VocalsEnd(j: Job, env: Env)
    requires NoneRunning(j) && j.payload.Song? && !VocalsAccepted(j, env)
    ensures Ended(SubmittedVocals(j, env), j)
  {
    var a := Record(j, VocalTts, Progress.Running);
    var needClone := a.payload.clonedVoice == "" && env.clone.Some?;
    var b := if needClone then a.(payload := a.payload.(clonedVoice := env.clone.value)) else a;
    var c := Record(b, VocalTts, Progress.Failed);
    FinalizedEnds(c, env);
    EndedBefore(Finalized(c, env), c, j);
  }

  /** The row after the report is recorded, before the branch. */
  function Heard(j: Job, media: string): Job
    requires j.currentStage.Some?
  {
    Keep(Record(j, j.currentStage.value, Succeeded), j.currentStage.value, media)
  }

  lemma HeardIsIdle(j: Job, media: string)
    requires InProgress(j)
    ensures var a := Heard(j.(reports := j.submits), media);
            && NoneRunning(a) && SameJob(a, j) && a.payload == j.payload && a.gate == j.gate
            && a.submits == a.reports == j.submits
  {
  }

  lemma AdvanceBranches(j: Job, media: string, env: Env)
    requires j.payload.Song? && j.currentStage.Some?
    ensures Advance(j, j.currentStage.value, media, env) ==
            if WantsVocals(j) then SubmittedVocals(Heard(j, media), env) else Finalized(Heard(j, media), env)
  {
  }

  /** The completed report of the outstanding request starts the vocals or ends the job. */
  lemma CompletedReportMovesOn(j: Job, media: string, env: Env)
    requires InProgress(j)
    ensures var told := j.(reports := j.submits);
            var k := Advance(told, j.currentStage.value, media, env);
            if WantsVocals(j) && VocalsAccepted(j, env)
            then SameJob(k, j) && InProgress(k) && k.submits == j.submits + 1 && k.gate == j.gate && Left(k) < Left(j)
            else Ended(k, told)
  {
    var told := j.(reports := j.submits);
    var a := Heard(told, media);
    HeardIsIdle(j, media);
    AdvanceBranches(told, media, env);
    if !WantsVocals(j) {
      FinalizedEnds(a, env);
      EndedBefore(Finalized(a, env), a, told);
    } else if VocalsAccepted(j, env) {
      VocalsWait(a, env);
    } else {
      VocalsEnd(a, env);
      EndedBefore(SubmittedVocals(a, env), a, told);
    }
  }

  /** A failed or canceled report releases the reserve, unless the one fallback accepts the music. */
  lemma FailedReportMovesOn(j: Job, canceled: bool, env: Env)
    requires InProgress(j)
    ensures var k := Fail(j.(reports := j.submits), j.currentStage.value, canceled, env);
            && SameJob(k, j)
            && if !canceled && j.currentStage == Some(MusicGeneration) && FallbackOpen(j) && env.submit.Some?
               then InProgress(k) && k.submits == j.submits + 1 && k.gate == j.gate && Left(k) < Left(j)
                    && !FallbackOpen(k)
               else Ended(k, j.(reports := j.submits)) && k.status == Status.Failed
  {
  }

  lemma VocalsKeepOneTrack(j: Job, env: Env)
    requires |j.tracks| <= 1 && j.payload.Song?
    ensures OneTrack(SubmittedVocals(j, env)) && SameJob(SubmittedVocals(j, env), j)
  {
    var a := Record(j, VocalTts, Progress.Running);
    if !VocalsAccepted(j, env) {
      if a.payload.clonedVoice == "" && env.clone.Some? {
        var cloned := a.(payload := a.payload.(clonedVoice := env.clone.value));
        FinalizedKeepsOneTrack(Record(cloned, VocalTts, Progress.Failed), env);
      } else {
        FinalizedKeepsOneTrack(Record(a, VocalTts, Progress.Failed), env);
      }
    }
  }

  /** Any report for any stage, delivered any number of times, leaves at most one track row. */
  lemma AdvanceKeepsOneTrack(j: Job, stage: Stage, media: string, env: Env)
    requires OneTrack(j) && j.payload.Song?
    ensures OneTrack(Advance(j, stage, media, env)) && SameJob(Advance(j, stage, media, env), j)
  {
    var a := Keep(Record(j, stage, Succeeded), stage, media);
    if Stale(j, stage) {
    } else if stage == MusicGeneration && a.payload.voiceUrl != "" && a.payload.lyrics != "" {
      VocalsKeepOneTrack(a, env);
    } else {
      FinalizedKeepsOneTrack(a, env);
    }
  }

  // ---- the gate call of any handler call ----

  /** The music url the finaliser will find. */
  function MusicUrl(j: Job, stage: Stage, media: string): string {
    if stage == MusicGeneration then media else RuntimeUrl(j, MusicGeneration)
  }

  /** What a completed report for that stage makes the handler call, unless it is stale. */
  function CompletedCall(j: Job, stage: Stage, media: string, env: Env): Option<GateCall>
    requires j.payload.Song?
  {
    if stage == MusicGeneration && j.payload.voiceUrl != "" && j.payload.lyrics != "" && VocalsAccepted(j, env)
    then None
    else Some(if MusicUrl(j, stage, media) != "" then Capture else Release)
  }

  function FailedCall(j: Job, stage: Stage, canceled: bool, env: Env): Option<GateCall>
    requires j.payload.Song?
  {
    if stage == MusicGeneration && !canceled && FallbackOpen(j) && env.submit.Some? then None else Some(Release)
  }

  lemma FinalizedActs(j: Job, env: Env)
    ensures Acts(Finalized(j, env), j, Some(if RuntimeUrl(j, MusicGeneration) != "" then Capture else Release))
  {
    ReadyToDeliverRelogs(j, env);
    var (k, url) := ReadyToDeliver(j, env);
    SkipMissingOnlySkips(SetStatus(j, PostProcessing), [MusicGeneration, VocalTts]);
    DeliveryActs(k, j, url);
  }

  lemma VocalsAct(j: Job, env: Env)
    requires j.payload.Song?
    ensures Acts(SubmittedVocals(j, env), j,
                 if VocalsAccepted(j, env) then None
                 else Some(if RuntimeUrl(j, MusicGeneration) != "" then Capture else Release))
  {
    if !VocalsAccepted(j, env) {
      var a := Record(j, VocalTts, Progress.Running);
      var needClone := a.payload.clonedVoice == "" && env.clone.Some?;
      var b := if needClone then a.(payload := a.payload.(clonedVoice := env.clone.value)) else a;
      var c := Record(b, VocalTts, Progress.Failed);
      FinalizedActs(c, env);
      ActsBefore(Finalized(c, env), c, j, Some(if RuntimeUrl(j, MusicGeneration) != "" then Capture else Release));
    }
  }

  lemma AdvanceActs(j: Job, stage: Stage, media: string, env: Env)
    requires j.payload.Song? && !Stale(j, stage)
    ensures Acts(Advance(j, stage, media, env), j, CompletedCall(j, stage, media, env))
  {
    var a := Keep(Record(j, stage, Succeeded), stage, media);
    assert RuntimeUrl(a, MusicGeneration) == MusicUrl(j, stage, media);
    if stage == MusicGeneration && j.payload.voiceUrl != "" && j.payload.lyrics != "" {
      VocalsAct(a, env);
      ActsBefore(SubmittedVocals(a, env), a, j, CompletedCall(j, stage, media, env));
    } else {
      FinalizedActs(a, env);
      ActsBefore(Finalized(a, env), a, j, CompletedCall(j, stage, media, env));
    }
  }

  lemma FailActs(j: Job, stage: Stage, canceled: bool, env: Env)
    requires j.payload.Song?
    ensures Acts(Fail(j, stage, canceled, env), j, FailedCall(j, stage, canceled, env))
  {
  }

  lemma StartKeepsTracks(j: Job, env: Env)
    requires j.payload.Song?
    ensures var k := Start(j, env).0; k.tracks == j.tracks && SameJob(k, j) && k.status != Completed
  {
  }

  lemma FailKeepsOneTrack(j: Job, stage: Stage, canceled: bool, env: Env)
    requires OneTrack(j) && j.payload.Song?
    ensures OneTrack(Fail(j, stage, canceled, env)) && SameJob(Fail(j, stage, canceled, env), j)
  {
  }

  /** A song without a voice completes on its music report. */
  lemma MusicAloneCompletes(j: Job, media: string, env: Env)
    requires j.payload.Song? && j.payload.voiceUrl == "" && j.currentStage == Some(MusicGeneration)
    requires media != "" && RuntimeUrl(j, VocalTts) == "" && |j.tracks| <= 1
    ensures var k := Advance(j, MusicGeneration, media, env);
            k.status == Completed && k.gate == j.gate + [Capture] && |k.tracks| == 1
            && k.currentStage == j.currentStage && k.payload == j.payload
  {
    var a := Keep(Record(j, MusicGeneration, Succeeded), MusicGeneration, media);
    SkipMissingOnlySkips(SetStatus(a, PostProcessing), [MusicGeneration, VocalTts]);
  }

  // ---- what the row shows ----

  /**
   After the start of a new song: the lyrics it will sing are the client's own if there are any,
   else what the model wrote if it wrote at least three characters, else none.
   */
  lemma StartedSong(j: Job, env: Env)
    requires Fresh(j) && j.payload.Song?
    ensures var (k, raised) := Start(j, env);
            var p := j.payload;
            && k.payload == p.(lyrics :=
                 if p.customLyrics != "" then p.customLyrics
                 else if p.lyricsPrompt != "" && env.lyrics.Some? && |env.lyrics.value| >= 3 then env.lyrics.value
                 else "")
            && k.stages == map[
                 PreparePrompt := Succeeded,
                 Lyrics := if p.customLyrics != "" || p.lyricsPrompt == "" then Skipped
                           else if env.lyrics == None then Progress.Failed
                           else if |env.lyrics.value| < 3 then Skipped else Succeeded,
                 MusicGeneration := if env.submit.Some? then Progress.Running else Progress.Failed]
            && (raised <==> env.submit == None)
            && k.status == Status.Running && k.model == j.model
            && k.request == env.submit
            && k.currentStage == (if env.submit.Some? then Some(MusicGeneration) else None)
  {
  }

  /** The music report of a song with voice and lyrics. */
  lemma SungSong(j: Job, media: string, env: Env)
    requires j.payload.Song? && j.currentStage == Some(MusicGeneration)
    requires j.payload.voiceUrl != "" && j.payload.lyrics != ""
    requires env.submit.Some? && (j.payload.clonedVoice != "" || env.clone.Some?)
    ensures var k := Advance(j, MusicGeneration, media, env);
            && k.currentStage == Some(VocalTts) && k.request == env.submit && k.model == j.model
            && k.status == Status.Running && k.submits == j.submits + 1 && k.gate == j.gate && k.tracks == j.tracks
            && k.stages == j.stages[MusicGeneration := Succeeded][VocalTts := Progress.Running]
            && k.runtime == j.runtime[MusicGeneration := media]
            && k.payload == j.payload.(clonedVoice :=
                 if j.payload.clonedVoice != "" then j.payload.clonedVoice else env.clone.value)
  {
  }

  /** A failed music report: the fallback sings when there are lyrics and plays when there are none. */
  lemma FallbackSong(j: Job, canceled: bool, env: Env)
    requires j.payload.Song?
    ensures var k := Fail(j, MusicGeneration, canceled, env);
            if !canceled && !j.payload.fallbackUsed && env.submit.Some?
               && j.model != "fal-ai/stable-audio" && j.model != "fal-ai/ace-step"
            then
              && k.model == (if j.payload.lyrics != "" then "fal-ai/ace-step" else "fal-ai/stable-audio")
              && k.payload == j.payload.(fallbackUsed := true)
              && k.request == env.submit && k.currentStage == Some(MusicGeneration) && k.status == Status.Running
              && k.stages == j.stages[MusicGeneration := Progress.Running] && k.gate == j.gate
            else
              && k == j.(status := Status.Failed, gate := j.gate + [Release],
                         stages := j.stages[MusicGeneration := Progress.Failed])
  {
  }

  lemma FailedVocals(j: Job, stage: Stage, canceled: bool, env: Env)
    requires j.payload.Song? && stage != MusicGeneration
    ensures Fail(j, stage, canceled, env) ==
            j.(status := Status.Failed, gate := j.gate + [Release], stages := j.stages[stage := Progress.Failed])
  {
  }

  lemma MixedLog(j: Job, env: Env, st: Stage)
    ensures LogAt(Mixed(j, env).0, st) ==
            if st != MixMaster then LogAt(j, st)
            else if RuntimeUrl(j, MusicGeneration) == "" || RuntimeUrl(j, VocalTts) == "" || !env.ffmpeg
            then Some(Skipped)
            else if env.tool.Produced? && env.tool.url != "" then Some(Succeeded) else Some(Progress.Failed)
  {
  }

  /** The stage log of a finished song: what was there stays, and what was missing is filled in. */
  lemma FinishedSongLog(j: Job, env: Env, st: Stage)
    ensures var music, vocal := RuntimeUrl(j, MusicGeneration), RuntimeUrl(j, VocalTts);
            LogAt(Finalized(j, env), st) ==
            match st
            case MixMaster =>
              if music == "" || vocal == "" || !env.ffmpeg then Some(Skipped)
              else if env.tool.Produced? && env.tool.url != "" then Some(Succeeded) else Some(Progress.Failed)
            case UploadCdn => Some(Succeeded)
            case Finalize => Some(if music != "" then Succeeded else Progress.Failed)
            case MusicGeneration => if st in j.stages then Some(j.stages[st]) else Some(Skipped)
            case VocalTts => if st in j.stages then Some(j.stages[st]) else Some(Skipped)
            case _ => LogAt(j, st)
  {
    var a := SkipMissing(SetStatus(j, PostProcessing), [MusicGeneration, VocalTts]);
    SkippingLog(j, [MusicGeneration, VocalTts], st);
    SkipMissingOnlySkips(SetStatus(j, PostProcessing), [MusicGeneration, VocalTts]);
    MixedLog(a, env, st);
    var (k, url) := ReadyToDeliver(j, env);
    DeliveryLog(k, url, st);
  }
}
