/** Music video pipeline in its three modes: avatar, visual clip and lyrics video. */
module VideoPipeline {
  import opened Options
  import opened Jobs

  // ---- specification ----

  /** The stage whose request the mode submits. */
  function AsyncStage(mode: VideoMode): Stage { if mode == Avatar then Lipsync else VisualGen }

  function Submitted(j: Job, st: Stage, env: Env): (Job, bool) {
    var a := Record(j, st, Progress.Running);
    if env.submit.Some? then (SetCurrent(a, st, env.submit.value, a.model), false)
    else (Record(a, st, Progress.Failed), true)
  }

  function InvalidInput(j: Job, st: Stage): (Job, bool) {
    (MarkFailed(Record(j, st, Progress.Failed)), false)
  }

  function Start(j: Job, env: Env): (Job, bool)
    requires j.payload.Video?
  {
    var a := SetStatus(j, Status.Running);
    var p := a.payload;
    var b := Record(a, PreparePrompt, Succeeded);
    if p.mode == UnknownMode then InvalidInput(a, PreparePrompt)
    else if p.audioUrl == "" then InvalidInput(a, SourcePrep)
    else
      match p.mode
      case Avatar =>
        if p.sourceVideoUrl == "" && p.referenceImageUrl == "" then InvalidInput(b, SourcePrep)
        else Submitted(Record(b, SourcePrep, Succeeded), Lipsync, env)
      case VisualClip => Submitted(b, VisualGen, env)
      case _ => Submitted(Record(b, SourcePrep, Succeeded), VisualGen, env)
  }

  function Advance(j: Job, completed: Stage, media: string, env: Env): Job
    requires j.payload.Video?
  {
    if Stale(j, completed) then j
    else
      var a := Record(j, completed, Succeeded);
      if media == "" then NothingToDeliver(a)
      else WithMedia(a, completed, media, env)
  }

  /** What follows the recorded stage when the provider made a file. */
  function WithMedia(j: Job, stage: Stage, media: string, env: Env): Job
    requires j.payload.Video?
  {
    if stage != VisualGen then Finalized(j, media)
    else if j.payload.mode == LyricsVideo then Rendered(j, env)
    else
      var (b, url) := Muxed(j, media, env);
      Finalized(b, url)
  }

  /** Lyrics mode cannot do without ffmpeg: every fault fails the job. */
  function Rendered(j: Job, env: Env): Job
    requires j.payload.Video?
  {
    if j.payload.audioUrl == "" then MarkFailed(Record(j, LyricsRender, Progress.Failed))
    else if !env.ffmpeg then MarkFailed(Record(j, LyricsRender, Skipped))
    else
      var a := Record(j, LyricsRender, Progress.Running);
      if env.tool.Raised? || env.tool.url == "" then MarkFailed(Record(a, LyricsRender, Progress.Failed))
      else Finalized(Record(a, LyricsRender, Succeeded), env.tool.url)
  }

  /** Clip mode degrades: a fault leaves the muted clip. */
  function Muxed(j: Job, media: string, env: Env): (Job, string)
    requires j.payload.Video?
  {
    if j.payload.audioUrl == "" then (j, media)
    else if !env.ffmpeg then (Record(j, MuxAudio, Skipped), media)
    else
      var a := Record(j, MuxAudio, Progress.Running);
      if env.tool.Raised? || env.tool.url == "" then (Record(a, MuxAudio, Progress.Failed), media)
      else (Record(a, MuxAudio, Succeeded), env.tool.url)
  }

  function WithAsset(j: Job, url: string): Job { j.(assets := j.assets + [url]) }

  function Finalized(j: Job, url: string): Job {
    var a := Record(SetStatus(j, PostProcessing), UploadCdn, Succeeded);
    var b := Record(a.(gate := a.gate + [Capture]), Finalize, Progress.Running);
    Record(MarkSucceeded(WithAsset(b, url)), Finalize, Succeeded)
  }

  function Fail(j: Job, stage: Stage): Job {
    MarkFailed(Record(j, stage, Progress.Failed))
  }

  // ---- in place ----

  method StartVideo(db: JobTables, env: Env) returns (raised: bool)
    requires db.payload.Video?
    modifies db
    ensures (db.View(), raised) == Start(old(db.View()), env)
  {
    raised := false;
    db.MarkStatus(Status.Running);
    if db.payload.mode == UnknownMode {
      db.RecordStage(PreparePrompt, Progress.Failed);
      db.FailJob();
      return;
    }
    if db.payload.audioUrl == "" {
      db.RecordStage(SourcePrep, Progress.Failed);
      db.FailJob();
      return;
    }
    db.RecordStage(PreparePrompt, Succeeded);
    if db.payload.mode == Avatar {
      if db.payload.sourceVideoUrl == "" && db.payload.referenceImageUrl == "" {
        db.RecordStage(SourcePrep, Progress.Failed);
        db.FailJob();
        return;
      }
      db.RecordStage(SourcePrep, Succeeded);
      raised := Submit(db, Lipsync, env);
    } else if db.payload.mode == VisualClip {
      raised := Submit(db, VisualGen, env);
    } else {
      db.RecordStage(SourcePrep, Succeeded);
      raised := Submit(db, VisualGen, env);
    }
  }

  method Submit(db: JobTables, st: Stage, env: Env) returns (raised: bool)
    modifies db
    ensures (db.View(), raised) == Submitted(old(db.View()), st, env)
  {
    db.RecordStage(st, Progress.Running);
    match env.submit
    case None =>
      db.RecordStage(st, Progress.Failed);
      raised := true;
    case Some(request) =>
      db.SetCurrentStage(st, request, db.model);
      raised := false;
  }

  method AdvanceVideo(db: JobTables, completed: Stage, media: string, env: Env)
    requires db.payload.Video?
    modifies db
    ensures db.View() == Advance(old(db.View()), completed, media, env)
  {
    if db.currentStage.Some? && db.currentStage.value != completed {
      return;
    }
    db.RecordStage(completed, Succeeded);
    if media == "" {
      db.RecordStage(Finalize, Progress.Failed);
      db.FailJob();
      return;
    }
    UseMedia(db, completed, media, env);
  }

  method UseMedia(db: JobTables, stage: Stage, media: string, env: Env)
    requires db.payload.Video?
    modifies db
    ensures db.View() == WithMedia(old(db.View()), stage, media, env)
  {
    var url := media;
    if stage == VisualGen {
      if db.payload.mode == LyricsVideo {
        RenderLyrics(db, env);
        return;
      }
      url := MuxAudioTrack(db, media, env);
    }
    FinalizeVideo(db, url);
  }

  method RenderLyrics(db: JobTables, env: Env)
    requires db.payload.Video?
    modifies db
    ensures db.View() == Rendered(old(db.View()), env)
  {
    if db.payload.audioUrl == "" {
      db.RecordStage(LyricsRender, Progress.Failed);
      db.FailJob();
      return;
    }
    if !env.ffmpeg {
      db.RecordStage(LyricsRender, Skipped);
      db.FailJob();
      return;
    }
    db.RecordStage(LyricsRender, Progress.Running);
    var produced := env.tool.Produced? && env.tool.url != "";
    if !produced {
      db.RecordStage(LyricsRender, Progress.Failed);
      db.FailJob();
      return;
    }
    db.RecordStage(LyricsRender, Succeeded);
    FinalizeVideo(db, env.tool.url);
  }

  method MuxAudioTrack(db: JobTables, media: string, env: Env) returns (url: string)
    requires db.payload.Video?
    modifies db`stages
    ensures (db.View(), url) == Muxed(old(db.View()), media, env)
  {
    url := media;
    if db.payload.audioUrl == "" {
      return;
    }
    if !env.ffmpeg {
      db.RecordStage(MuxAudio, Skipped);
      return;
    }
    db.RecordStage(MuxAudio, Progress.Running);
    var produced := env.tool.Produced? && env.tool.url != "";
    if produced {
      url := env.tool.url;
      db.RecordStage(MuxAudio, Succeeded);
    } else {
      db.RecordStage(MuxAudio, Progress.Failed);
    }
  }

  method FinalizeVideo(db: JobTables, url: string)
    modifies db
    ensures db.View() == Finalized(old(db.View()), url)
  {
    db.MarkStatus(PostProcessing);
    db.RecordStage(UploadCdn, Succeeded);
    db.gate := db.gate + [Capture];
    var units := CapturedUnits(db.View());
    db.RecordStage(Finalize, Progress.Running);
    db.assets := db.assets + [url];
    db.status := Completed;
    db.captured := units;
    db.RecordStage(Finalize, Succeeded);
  }

  method FailVideo(db: JobTables, stage: Stage)
    modifies db
    ensures db.View() == Fail(old(db.View()), stage)
    ensures OnlyRunning(old(db.View()), stage) ==> Ended(db.View(), old(db.View())) && db.status != Completed
  {
    db.RecordStage(stage, Progress.Failed);
    db.FailJob();
  }

  // ---- one report ends the job ----

  ghost predicate InProgress(j: Job) {
    && Waiting(j) && j.payload.Video?
    && (j.currentStage == Some(Lipsync) || j.currentStage == Some(VisualGen))
    && j.submits == 1
  }

  predicate ValidInput(p: Payload)
    requires p.Video?
  {
    && p.mode != UnknownMode && p.audioUrl != ""
    && (p.mode == Avatar ==> p.sourceVideoUrl != "" || p.referenceImageUrl != "")
  }

  lemma StartWaitsOrEnds(j: Job, env: Env)
    requires Fresh(j) && j.payload.Video?
    ensures var (k, raised) := Start(j, env);
            && SameJob(k, j) && k.tracks == [] && k.reports == 0
            && if !ValidInput(j.payload) then !raised && Ended(k, j) && k.status == Status.Failed
               else k.gate == []
                    && (!raised ==> InProgress(k) && k.currentStage == Some(AsyncStage(j.payload.mode)))
                    && (raised ==> NoneRunning(k) && k.submits == 0)
  {
  }

  lemma FinalizedEnds(j: Job, url: string)
    requires NoneRunning(j)
    ensures Ended(Finalized(j, url), j) && Finalized(j, url).status == Completed
  {
  }

  lemma RenderedEnds(j: Job, env: Env)
    requires NoneRunning(j) && j.payload.Video?
    ensures Ended(Rendered(j, env), j)
    ensures Rendered(j, env).status == Completed <==>
            j.payload.audioUrl != "" && env.ffmpeg && env.tool.Produced? && env.tool.url != ""
  {
    var a := Record(Record(j, LyricsRender, Progress.Running), LyricsRender, Succeeded);
    if env.tool.Produced? { FinalizedEnds(a, env.tool.url); }
  }

  lemma MuxedRelogs(j: Job, media: string, env: Env)
    requires j.payload.Video?
    ensures Relogged(Muxed(j, media, env).0, j)
  {
  }

  lemma WithMediaEnds(j: Job, stage: Stage, media: string, env: Env)
    requires NoneRunning(j) && j.payload.Video?
    ensures var k := WithMedia(j, stage, media, env);
            && Ended(k, j)
            && (k.status == Completed <==>
                  (stage == VisualGen && j.payload.mode == LyricsVideo ==>
                    j.payload.audioUrl != "" && env.ffmpeg && env.tool.Produced? && env.tool.url != ""))
  {
    if stage != VisualGen {
      FinalizedEnds(j, media);
    } else if j.payload.mode == LyricsVideo {
      RenderedEnds(j, env);
    } else {
      var (b, url) := Muxed(j, media, env);
      MuxedRelogs(j, media, env);
      FinalizedEnds(b, url);
      EndedBefore(Finalized(b, url), b, j);
    }
  }

  lemma CompletedReportEnds(j: Job, media: string, env: Env)
    requires InProgress(j)
    ensures var told := j.(reports := j.submits);
            var k := Advance(told, j.currentStage.value, media, env);
            && Ended(k, told)
            && (k.status == Completed <==>
                  media != "" && (j.currentStage == Some(VisualGen) && j.payload.mode == LyricsVideo ==>
                    j.payload.audioUrl != "" && env.ffmpeg && env.tool.Produced? && env.tool.url != ""))
  {
    var told := j.(reports := j.submits);
    var a := Record(told, j.currentStage.value, Succeeded);
    if media != "" {
      WithMediaEnds(a, j.currentStage.value, media, env);
      EndedBefore(WithMedia(a, j.currentStage.value, media, env), a, told);
    }
  }

  lemma FailedReportEnds(j: Job)
    requires InProgress(j)
    ensures var told := j.(reports := j.submits);
            var k := Fail(told, j.currentStage.value);
            Ended(k, told) && k.status == Status.Failed
  {
  }

  // ---- the gate call of any handler call ----

  predicate ToolDelivers(env: Env) { env.ffmpeg && env.tool.Produced? && env.tool.url != "" }

  predicate Renders(j: Job, stage: Stage)
    requires j.payload.Video?
  {
    stage == VisualGen && j.payload.mode == LyricsVideo
  }

  /** What a completed report for that stage makes the handler call, unless it is stale. */
  function CompletedCall(j: Job, stage: Stage, media: string, env: Env): Option<GateCall>
    requires j.payload.Video?
  {
    var rendered := j.payload.audioUrl != "" && ToolDelivers(env);
    Some(if media != "" && (Renders(j, stage) ==> rendered) then Capture else Release)
  }

  /** The delivered file: the render or the muxed clip when the tool delivers, else what the provider made. */
  function AssetUrl(j: Job, stage: Stage, media: string, env: Env): string
    requires j.payload.Video?
  {
    if stage == VisualGen && j.payload.audioUrl != "" && ToolDelivers(env) then env.tool.url else media
  }

  predicate Delivers(k: Job, j: Job, url: string) { k.assets == j.assets + [url] }

  lemma FinalizedActs(k: Job, j: Job, url: string)
    requires Relogged(k, j)
    ensures Acts(Finalized(k, url), j, Some(Capture)) && Delivers(Finalized(k, url), j, url)
  {
  }

  lemma RenderedActs(j: Job, env: Env)
    requires j.payload.Video?
    ensures var done := j.payload.audioUrl != "" && ToolDelivers(env);
            && Acts(Rendered(j, env), j, Some(if done then Capture else Release))
            && if done then Delivers(Rendered(j, env), j, env.tool.url) else Rendered(j, env).assets == j.assets
  {
  }

  /** A completed report creates one asset with the delivered file exactly when it captures. */
  lemma AdvanceActs(j: Job, stage: Stage, media: string, env: Env)
    requires j.payload.Video? && !Stale(j, stage)
    ensures var k := Advance(j, stage, media, env);
            && Acts(k, j, CompletedCall(j, stage, media, env))
            && (if CompletedCall(j, stage, media, env) == Some(Capture)
                then Delivers(k, j, AssetUrl(j, stage, media, env)) else k.assets == j.assets)
  {
    var a := Record(j, stage, Succeeded);
    if media != "" {
      if Renders(j, stage) {
        RenderedActs(a, env);
        ActsBefore(Rendered(a, env), a, j, CompletedCall(j, stage, media, env));
      } else {
        var (b, url) := if stage == VisualGen then Muxed(a, media, env) else (a, media);
        if stage == VisualGen { MuxedRelogs(a, media, env); }
        FinalizedActs(b, a, url);
        ActsBefore(Finalized(b, url), a, j, Some(Capture));
      }
    }
  }

  lemma FailActs(j: Job, stage: Stage)
    requires j.payload.Video?
    ensures Acts(Fail(j, stage), j, Some(Release)) && Fail(j, stage).assets == j.assets
  {
  }

  // ---- what the row shows ----

  /** A start that its input refuses, with the stage that is blamed. */
  lemma RefusedVideo(j: Job, env: Env)
    requires Fresh(j) && j.payload.Video?
    requires j.payload.mode == UnknownMode || j.payload.audioUrl == ""
             || (j.payload.mode == Avatar && j.payload.sourceVideoUrl == "" && j.payload.referenceImageUrl == "")
    ensures var (k, raised) := Start(j, env);
            && !raised && k.status == Status.Failed && k.gate == [Release] && k.submits == 0 && k.payload == j.payload
            && k.stages ==
               if j.payload.mode == UnknownMode then map[PreparePrompt := Progress.Failed]
               else if j.payload.audioUrl == "" then map[SourcePrep := Progress.Failed]
               else map[PreparePrompt := Succeeded, SourcePrep := Progress.Failed]
  {
  }

  /** A valid start submits the stage of its mode: lip sync for an avatar, the visual for a clip or lyrics. */
  lemma StartedVideo(j: Job, env: Env)
    requires Fresh(j) && j.payload.Video? && j.payload.mode != UnknownMode && j.payload.audioUrl != ""
    requires j.payload.mode == Avatar ==> j.payload.sourceVideoUrl != "" || j.payload.referenceImageUrl != ""
    ensures var (k, raised) := Start(j, env);
            var stage := if j.payload.mode == Avatar then Lipsync else VisualGen;
            var progress := if env.submit.Some? then Progress.Running else Progress.Failed;
            && (raised <==> env.submit == None) && k.gate == [] && k.payload == j.payload && k.model == j.model
            && k.status == Status.Running && k.request == env.submit
            && k.currentStage == (if env.submit.Some? then Some(stage) else None)
            && k.stages ==
               if j.payload.mode == VisualClip then map[PreparePrompt := Succeeded, stage := progress]
               else map[PreparePrompt := Succeeded, SourcePrep := Succeeded, stage := progress]
  {
  }

  lemma FinalizedLog(j: Job, url: string, st: Stage)
    ensures LogAt(Finalized(j, url), st) == if st == UploadCdn || st == Finalize then Some(Succeeded) else LogAt(j, st)
    ensures Finalized(j, url).payload == j.payload
  {
  }

  lemma MuxedLog(j: Job, media: string, env: Env, st: Stage)
    requires j.payload.Video?
    ensures LogAt(Muxed(j, media, env).0, st) ==
            if st != MuxAudio || j.payload.audioUrl == "" then LogAt(j, st)
            else if !env.ffmpeg then Some(Skipped)
            else if env.tool.Produced? && env.tool.url != "" then Some(Succeeded) else Some(Progress.Failed)
    ensures Muxed(j, media, env).0.payload == j.payload
  {
  }

  /** Lyrics mode: the render is skipped without ffmpeg and failed without audio or output. */
  lemma RenderedLog(j: Job, env: Env, st: Stage)
    requires j.payload.Video?
    ensures var done := j.payload.audioUrl != "" && env.ffmpeg && env.tool.Produced? && env.tool.url != "";
            LogAt(Rendered(j, env), st) ==
            if st == LyricsRender then
              if done then Some(Succeeded)
              else if j.payload.audioUrl != "" && !env.ffmpeg then Some(Skipped) else Some(Progress.Failed)
            else if done && (st == UploadCdn || st == Finalize) then Some(Succeeded) else LogAt(j, st)
    ensures Rendered(j, env).payload == j.payload
  {
    var a := Record(Record(j, LyricsRender, Progress.Running), LyricsRender, Succeeded);
    if env.tool.Produced? { FinalizedLog(a, env.tool.url, st); }
  }

  /** Clip and avatar mode: the stage log once the file is there. */
  lemma ClipLog(j: Job, stage: Stage, media: string, env: Env, st: Stage)
    requires j.payload.Video? && !Renders(j, stage)
    ensures LogAt(WithMedia(j, stage, media, env), st) ==
            match st
            case MuxAudio =>
              if stage != VisualGen || j.payload.audioUrl == "" then LogAt(j, st)
              else if !env.ffmpeg then Some(Skipped)
              else if env.tool.Produced? && env.tool.url != "" then Some(Succeeded) else Some(Progress.Failed)
            case UploadCdn => Some(Succeeded)
            case Finalize => Some(Succeeded)
            case _ => LogAt(j, st)
    ensures WithMedia(j, stage, media, env).payload == j.payload
  {
    var (b, url) := if stage == VisualGen then Muxed(j, media, env) else (j, media);
    if stage == VisualGen { MuxedLog(j, media, env, st); }
    FinalizedLog(b, url, st);
  }

  /** A completed report keeps the row's input; without a file the job fails at its last stage. */
  lemma HeardVideo(j: Job, stage: Stage, media: string, env: Env)
    requires j.payload.Video? && j.currentStage == Some(stage)
    ensures var heard := j.(stages := j.stages[stage := Succeeded]);
            Advance(j, stage, media, env) ==
            if media == "" then
              heard.(status := Status.Failed, gate := j.gate + [Release],
                     stages := heard.stages[Finalize := Progress.Failed])
            else WithMedia(heard, stage, media, env)
  {
  }

  lemma FailedVideo(j: Job, stage: Stage)
    ensures Fail(j, stage) ==
            j.(status := Status.Failed, gate := j.gate + [Release], stages := j.stages[stage := Progress.Failed])
  {
  }

  lemma StartKeepsJob(j: Job, env: Env)
    requires j.payload.Video?
    ensures SameJob(Start(j, env).0, j)
  {
  }
}
