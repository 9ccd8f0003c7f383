/** AI cover pipeline: stem separation, voice conversion, mix with the instrumental. */
module CoverPipeline {
  import opened Options
  import opened Jobs

  /** One entry of the provider's stems object: a plain url, an object with a url, or anything else. */
  datatype Stem = Plain(text: string) | Object(url: string) | Other

  /** The stems object in its own order; `[]` for an absent one. */
  type Stems = seq<(string, Stem)>

  // ---- specification ----

  function StemUrl(v: Stem): string {
    match v
    case Plain(text) => text
    case Object(url) => url
    case Other => ""
  }

  /** `dict.get`: the value of the first entry with that key, "" when it has no usable url. */
  function UrlOf(stems: Stems, key: string): string {
    if stems == [] then ""
    else if stems[0].0 == key then StemUrl(stems[0].1)
    else UrlOf(stems[1..], key)
  }

  /** The vocal stem: under `vocals` first, under `vocal` otherwise. */
  function VocalStem(stems: Stems): string {
    if UrlOf(stems, "vocals") != "" then UrlOf(stems, "vocals") else UrlOf(stems, "vocal")
  }

  predicate IsVocalKey(k: string) { k == "vocals" || k == "vocal" }

  function Instrumentals(stems: Stems): seq<string> {
    if stems == [] then []
    else
      var rest := Instrumentals(stems[..|stems| - 1]);
      var (k, v) := stems[|stems| - 1];
      if !IsVocalKey(k) && StemUrl(v) != "" then rest + [StemUrl(v)] else rest
  }

  function Start(j: Job, env: Env): (Job, bool)
    requires j.payload.Cover?
  {
    var a := Record(SetStatus(j, Status.Running), PreparePrompt, Succeeded);
    if a.payload.sourceUrl == "" then (MarkFailed(Record(a, StemSeparation, Progress.Failed)), false)
    else
      var b := Record(a, StemSeparation, Progress.Running);
      if env.submit.Some? then (SetCurrent(b, StemSeparation, env.submit.value, b.model), false)
      else (Record(b, StemSeparation, Progress.Failed), true)
  }

  function Advance(j: Job, completed: Stage, media: string, stems: Stems, env: Env): Job
    requires j.payload.Cover?
  {
    if Stale(j, completed) then j
    else
      var a := Keep(Record(j, completed, Succeeded), completed, media);
      if completed != StemSeparation then Finalized(a, env) else Separated(a, stems, env)
  }

  function KeptStems(j: Job, stems: Stems): Job
    requires j.payload.Cover?
  {
    j.(payload := j.payload.(vocalStem := VocalStem(stems), instrumentals := Instrumentals(stems)))
  }

  /** The stems are stored; without a vocal there is nothing to convert. */
  function Separated(j: Job, stems: Stems, env: Env): Job
    requires j.payload.Cover?
  {
    var a := KeptStems(j, stems);
    if VocalStem(stems) == "" then Finalized(Record(a, VoiceConversion, Skipped), env)
    else SubmittedConversion(a, env)
  }

  function SubmittedConversion(j: Job, env: Env): Job
    requires j.payload.Cover?
  {
    var a := Record(j, VoiceConversion, Progress.Running);
    if env.submit.Some? then SetCurrent(a, VoiceConversion, env.submit.value, a.model)
    else Finalized(Record(a, VoiceConversion, Progress.Failed), env)
  }

  function Fail(j: Job, stage: Stage): Job {
    MarkFailed(Record(j, stage, Progress.Failed))
  }

  /** The mixing stage and the file to deliver; without converted vocals there is nothing. */
  function Mixed(j: Job, env: Env): (Job, string)
    requires j.payload.Cover?
  {
    var vocal := RuntimeUrl(j, VoiceConversion);
    if vocal == "" then (j, "")
    else if j.payload.instrumentals == [] || !env.ffmpeg || env.instrumental == "" then
      (Record(j, MixMaster, Skipped), vocal)
    else
      var a := Record(j, MixMaster, Progress.Running);
      if env.tool.Raised? || env.tool.url == "" then (Record(a, MixMaster, Progress.Failed), vocal)
      else (Record(a, MixMaster, Succeeded), env.tool.url)
  }

  /** The row and the file at the delivery. */
  function ReadyToDeliver(j: Job, env: Env): (Job, string)
    requires j.payload.Cover?
  {
    var a := SkipMissing(SetStatus(j, PostProcessing), [StemSeparation, VoiceConversion]);
    KeepsPayload(SetStatus(j, PostProcessing), [StemSeparation, VoiceConversion]);
    var (b, url) := Mixed(a, env);
    (Record(b, UploadCdn, Succeeded), url)
  }

  function Finalized(j: Job, env: Env): Job
    requires j.payload.Cover?
  {
    var (k, url) := ReadyToDeliver(j, env);
    DeliveredIfAny(k, url)
  }

  lemma {:induction false} KeepsPayload(j: Job, sts: seq<Stage>)
    ensures SkipMissing(j, sts).payload == j.payload
    decreases |sts|
  {
    if sts != [] {
      KeepsPayload(if sts[0] in j.stages then j else Record(j, sts[0], Skipped), sts[1..]);
    }
  }

  // ---- in place ----

  method StartCover(db: JobTables, env: Env) returns (raised: bool)
    requires db.payload.Cover?
    modifies db
    ensures (db.View(), raised) == Start(old(db.View()), env)
  {
    raised := false;
    db.MarkStatus(Status.Running);
    db.RecordStage(PreparePrompt, Succeeded);
    if db.payload.sourceUrl == "" {
      db.RecordStage(StemSeparation, Progress.Failed);
      db.FailJob();
      return;
    }
    db.RecordStage(StemSeparation, Progress.Running);
    match env.submit
    case None =>
      db.RecordStage(StemSeparation, Progress.Failed);
      raised := true;
    case Some(request) =>
      db.SetCurrentStage(StemSeparation, request, db.model);
  }

  method PickStem(stems: Stems, key: string) returns (url: string)
    ensures url == UrlOf(stems, key)
  {
    var i := 0;
    while i < |stems|
      invariant 0 <= i <= |stems|
      invariant UrlOf(stems[i..], key) == UrlOf(stems, key)
    {
      assert stems[i..][1..] == stems[i + 1..];
      if stems[i].0 == key {
        return StemUrl(stems[i].1);
      }
      i := i + 1;
    }
    url := "";
  }

  method CollectInstrumentalUrls(stems: Stems) returns (urls: seq<string>)
    ensures urls == Instrumentals(stems)
  {
    urls := [];
    var i := 0;
    while i < |stems|
      invariant 0 <= i <= |stems|
      invariant urls == Instrumentals(stems[..i])
    {
      assert stems[..i + 1][..i] == stems[..i];
      var (k, v) := stems[i];
      if !IsVocalKey(k) && StemUrl(v) != "" {
        urls := urls + [StemUrl(v)];
      }
      i := i + 1;
    }
    assert stems[..i] == stems;
  }

  method AdvanceCover(db: JobTables, completed: Stage, media: string, stems: Stems, env: Env)
    requires db.payload.Cover?
    modifies db
    ensures db.View() == Advance(old(db.View()), completed, media, stems, env)
  {
    if db.currentStage.Some? && db.currentStage.value != completed {
      return;
    }
    db.RecordStage(completed, Succeeded);
    db.PersistRuntime(completed, media);
    if completed != StemSeparation {
      FinalizeCover(db, env);
      return;
    }
    StoreStems(db, stems, env);
  }

  method StoreStems(db: JobTables, stems: Stems, env: Env)
    requires db.payload.Cover?
    modifies db
    ensures db.View() == Separated(old(db.View()), stems, env)
  {
    var vocal := PickStem(stems, "vocals");
    if vocal == "" {
      vocal := PickStem(stems, "vocal");
    }
    var instrumentals := CollectInstrumentalUrls(stems);
    db.payload := db.payload.(vocalStem := vocal, instrumentals := instrumentals);
    if vocal == "" {
      db.RecordStage(VoiceConversion, Skipped);
      FinalizeCover(db, env);
      return;
    }
    SubmitVoiceConversion(db, env);
  }

  method SubmitVoiceConversion(db: JobTables, env: Env)
    requires db.payload.Cover?
    modifies db
    ensures db.View() == SubmittedConversion(old(db.View()), env)
  {
    db.RecordStage(VoiceConversion, Progress.Running);
    match env.submit
    case None =>
      db.RecordStage(VoiceConversion, Progress.Failed);
      FinalizeCover(db, env);
    case Some(request) =>
      db.SetCurrentStage(VoiceConversion, request, db.model);
  }

  method FailCover(db: JobTables, stage: Stage)
    modifies db
    ensures db.View() == Fail(old(db.View()), stage)
    ensures OnlyRunning(old(db.View()), stage) ==> Ended(db.View(), old(db.View())) && db.status != Completed
  {
    db.RecordStage(stage, Progress.Failed);
    db.FailJob();
  }

  method FinalizeCover(db: JobTables, env: Env)
    requires db.payload.Cover?
    modifies db
    ensures db.View() == Finalized(old(db.View()), env)
  {
    db.MarkStatus(PostProcessing);
    ghost var before := db.View();
    db.SkipUnrecorded([StemSeparation, VoiceConversion]);
    KeepsPayload(before, [StemSeparation, VoiceConversion]);
    var url := Mix(db, env);
    db.RecordStage(UploadCdn, Succeeded);
    if url == "" {
      db.RecordStage(Finalize, Progress.Failed);
      db.FailJob();
      return;
    }
    db.DeliverTrack(url);
  }

  method Mix(db: JobTables, env: Env) returns (url: string)
    requires db.payload.Cover?
    modifies db`stages
    ensures (db.View(), url) == Mixed(old(db.View()), env)
  {
    url := RuntimeUrl(db.View(), VoiceConversion);
    if url == "" {
      return;
    }
    var instrumental := "";
    if db.payload.instrumentals != [] && env.ffmpeg {
      instrumental := env.instrumental;
    }
    if instrumental == "" || !env.ffmpeg {
      db.RecordStage(MixMaster, Skipped);
      return;
    }
    db.RecordStage(MixMaster, Progress.Running);
    match env.tool
    case Raised => db.RecordStage(MixMaster, Progress.Failed);
    case Produced(file) =>
      if file == "" {
        db.RecordStage(MixMaster, Progress.Failed);
      } else {
        db.RecordStage(MixMaster, Succeeded);
        url := file;
      }
  }

  // ---- the stems ----

  /** The instrumental is built from every usable stem that is not the vocal, and from nothing else. */
  lemma {:induction false} InstrumentalsAreTheOtherStems(stems: Stems, url: string)
    ensures url in Instrumentals(stems) <==>
            url != "" && exists i :: 0 <= i < |stems| && !IsVocalKey(stems[i].0) && StemUrl(stems[i].1) == url
  {
    if stems != [] {
      var n := |stems| - 1;
      InstrumentalsAreTheOtherStems(stems[..n], url);
      assert forall i :: 0 <= i < n ==> stems[..n][i] == stems[i];
    }
  }

  // ---- one report moves the job on ----

  function Left(j: Job): nat { if j.currentStage == Some(VoiceConversion) then 1 else 2 }

  ghost predicate InProgress(j: Job) {
    && Waiting(j) && j.payload.Cover?
    && (j.currentStage == Some(StemSeparation) || j.currentStage == Some(VoiceConversion))
    && j.submits + Left(j) <= 3
  }

  lemma MixedRelogs(k: Job, j: Job, env: Env)
    requires Relogged(k, j) && k.payload.Cover?
    ensures Relogged(Mixed(k, env).0, j)
  {
  }

  /** Up to the delivery only the status and the stage log change. */
  lemma ReadyToDeliverRelogs(j: Job, env: Env)
    requires j.payload.Cover?
    ensures Relogged(ReadyToDeliver(j, env).0, j)
  {
    var a := SkipMissing(SetStatus(j, PostProcessing), [StemSeparation, VoiceConversion]);
    SkippingRelogs(j, [StemSeparation, VoiceConversion]);
    MixedRelogs(a, j, env);
    RecordRelogs(Mixed(a, env).0, j, UploadCdn, Succeeded);
  }

  lemma FinalizedEnds(j: Job, env: Env)
    requires NoneRunning(j) && j.payload.Cover?
    ensures Ended(Finalized(j, env), j)
  {
    ReadyToDeliverRelogs(j, env);
    var (k, url) := ReadyToDeliver(j, env);
    DeliveryEnds(k, j, url);
  }

  lemma FinalizedKeepsOneTrack(j: Job, env: Env)
    requires |j.tracks| <= 1 && j.payload.Cover?
    ensures OneTrack(Finalized(j, env)) && SameJob(Finalized(j, env), j)
  {
    ReadyToDeliverRelogs(j, env);
    var (k, url) := ReadyToDeliver(j, env);
    DeliveryKeepsOneTrack(k, j, url);
  }

  predicate Mixes(j: Job, env: Env)
    requires j.payload.Cover?
  {
    && RuntimeUrl(j, VoiceConversion) != "" && j.payload.instrumentals != []
    && env.ffmpeg && env.instrumental != "" && env.tool.Produced? && env.tool.url != ""
  }

  /**
   The cover completes iff there are converted vocals, and the track carries the mix when it
   succeeds, else the vocals.
   */
  lemma DeliversMixElseVocals(j: Job, env: Env)
    requires j.tracks == [] && j.payload.Cover?
    ensures DeliveredFile(Finalized(j, env), if Mixes(j, env) then env.tool.url else RuntimeUrl(j, VoiceConversion))
  {
    SkipMissingOnlySkips(SetStatus(j, PostProcessing), [StemSeparation, VoiceConversion]);
    ReadyToDeliverRelogs(j, env);
    var (k, url) := ReadyToDeliver(j, env);
    DeliveryMakesTrack(k, url);
  }

  lemma StartWaitsOrEnds(j: Job, env: Env)
    requires Fresh(j) && j.payload.Cover?
    ensures var (k, raised) := Start(j, env);
            && SameJob(k, j) && k.tracks == [] && k.reports == 0
            && if j.payload.sourceUrl == "" then !raised && Ended(k, j) && k.status == Status.Failed
               else k.gate == []
                    && (!raised ==> InProgress(k) && k.submits == 1)
                    && (raised ==> NoneRunning(k) && k.submits == 0)
  {
  }

  predicate ConversionAccepted(stems: Stems, env: Env) { VocalStem(stems) != "" && env.submit.Some? }

  lemma ConversionWaits(j: Job, stems: Stems, env: Env)
    requires NoneRunning(j) && j.payload.Cover? && j.submits == j.reports && j.submits <= 1
    requires ConversionAccepted(stems, env)
    ensures var k := Separated(j, stems, env);
            SameJob(k, j) && InProgress(k) && k.submits == j.submits + 1 && k.gate == j.gate && Left(k) == 1
  {
  }

  /** The row a separation without conversion finalises. */
  function Unconverted(j: Job, stems: Stems): Job
    requires j.payload.Cover?
  {
    var a := KeptStems(j, stems);
    if VocalStem(stems) == "" then Record(a, VoiceConversion, Skipped)
    else Record(Record(a, VoiceConversion, Progress.Running), VoiceConversion, Progress.Failed)
  }

  lemma ConversionRefused(j: Job, stems: Stems, env: Env)
    requires j.payload.Cover? && !ConversionAccepted(stems, env)
    ensures Separated(j, stems, env) == Finalized(Unconverted(j, stems), env)
  {
  }

  lemma SeparationEnds(j: Job, stems: Stems, env: Env)
    requires NoneRunning(j) && j.payload.Cover? && !ConversionAccepted(stems, env)
    ensures Ended(Separated(j, stems, env), j)
  {
    var b := Unconverted(j, stems);
    ConversionRefused(j, stems, env);
    FinalizedEnds(b, env);
    EndedBefore(Finalized(b, env), b, j);
  }

  lemma SeparationKeepsOneTrack(j: Job, stems: Stems, env: Env)
    requires |j.tracks| <= 1 && j.payload.Cover?
    ensures OneTrack(Separated(j, stems, env)) && SameJob(Separated(j, stems, env), j)
  {
    if !ConversionAccepted(stems, env) {
      ConversionRefused(j, stems, env);
      FinalizedKeepsOneTrack(Unconverted(j, stems), env);
    }
  }

  /** The completed report of the outstanding request submits the conversion or ends the job. */
  lemma CompletedReportMovesOn(j: Job, media: string, stems: Stems, env: Env)
    requires InProgress(j)
    ensures var told := j.(reports := j.submits);
            var k := Advance(told, j.currentStage.value, media, stems, env);
            if j.currentStage == Some(StemSeparation) && ConversionAccepted(stems, env)
            then SameJob(k, j) && InProgress(k) && k.submits == j.submits + 1 && k.gate == j.gate && Left(k) < Left(j)
            else Ended(k, told)
  {
    var st := j.currentStage.value;
    var told := j.(reports := j.submits);
    var a := Keep(Record(told, st, Succeeded), st, media);
    if st != StemSeparation {
      FinalizedEnds(a, env);
      EndedBefore(Finalized(a, env), a, told);
    } else if ConversionAccepted(stems, env) {
      ConversionWaits(a, stems, env);
    } else {
      SeparationEnds(a, stems, env);
      EndedBefore(Separated(a, stems, env), a, told);
    }
  }

  lemma FailedReportEnds(j: Job)
    requires InProgress(j)
    ensures var told := j.(reports := j.submits);
            var k := Fail(told, j.currentStage.value);
            Ended(k, told) && k.status == Status.Failed
  {
  }

  /** Any report for any stage, delivered any number of times, leaves at most one track row. */
  lemma HandlersKeepOneTrack(j: Job, stage: Stage, media: string, stems: Stems, env: Env)
    requires OneTrack(j) && j.payload.Cover?
    ensures OneTrack(Advance(j, stage, media, stems, env)) && SameJob(Advance(j, stage, media, stems, env), j)
    ensures OneTrack(Fail(j, stage)) && SameJob(Fail(j, stage), j)
  {
    var a := Keep(Record(j, stage, Succeeded), stage, media);
    if Stale(j, stage) {
    } else if stage != StemSeparation {
      FinalizedKeepsOneTrack(a, env);
    } else {
      SeparationKeepsOneTrack(a, stems, env);
    }
  }

  // ---- the gate call of any handler call ----

  /** The converted vocals the finaliser will find. */
  function VocalsUrl(j: Job, stage: Stage, media: string): string {
    if stage == VoiceConversion then media else RuntimeUrl(j, VoiceConversion)
  }

  /** What a completed report for that stage makes the handler call, unless it is stale. */
  function CompletedCall(j: Job, stage: Stage, media: string, stems: Stems, env: Env): Option<GateCall> {
    if stage == StemSeparation && ConversionAccepted(stems, env) then None
    else Some(if VocalsUrl(j, stage, media) != "" then Capture else Release)
  }

  lemma FinalizedActs(j: Job, env: Env)
    requires j.payload.Cover?
    ensures Acts(Finalized(j, env), j, Some(if RuntimeUrl(j, VoiceConversion) != "" then Capture else Release))
  {
    ReadyToDeliverRelogs(j, env);
    var (k, url) := ReadyToDeliver(j, env);
    SkipMissingOnlySkips(SetStatus(j, PostProcessing), [StemSeparation, VoiceConversion]);
    DeliveryActs(k, j, url);
  }

  lemma SeparatedActs(j: Job, stems: Stems, env: Env)
    requires j.payload.Cover?
    ensures Acts(Separated(j, stems, env), j,
                 if ConversionAccepted(stems, env) then None
                 else Some(if RuntimeUrl(j, VoiceConversion) != "" then Capture else Release))
  {
    if !ConversionAccepted(stems, env) {
      var b := Unconverted(j, stems);
      ConversionRefused(j, stems, env);
      FinalizedActs(b, env);
      ActsBefore(Finalized(b, env), b, j, Some(if RuntimeUrl(j, VoiceConversion) != "" then Capture else Release));
    }
  }

  lemma AdvanceActs(j: Job, stage: Stage, media: string, stems: Stems, env: Env)
    requires j.payload.Cover? && !Stale(j, stage)
    ensures Acts(Advance(j, stage, media, stems, env), j, CompletedCall(j, stage, media, stems, env))
  {
    var a := Keep(Record(j, stage, Succeeded), stage, media);
    if stage == StemSeparation {
      SeparatedActs(a, stems, env);
      ActsBefore(Separated(a, stems, env), a, j, CompletedCall(j, stage, media, stems, env));
    } else {
      FinalizedActs(a, env);
      ActsBefore(Finalized(a, env), a, j, CompletedCall(j, stage, media, stems, env));
    }
  }

  lemma FailActs(j: Job, stage: Stage)
    requires j.payload.Cover?
    ensures Acts(Fail(j, stage), j, Some(Release))
  {
  }

  lemma StartKeepsTracks(j: Job, env: Env)
    requires j.payload.Cover?
    ensures var k := Start(j, env).0; k.tracks == j.tracks && SameJob(k, j) && k.status != Completed
  {
  }

  // ---- what the row shows ----

  lemma StartedCover(j: Job, env: Env)
    requires Fresh(j) && j.payload.Cover?
    ensures var (k, raised) := Start(j, env);
            && k.payload == j.payload && k.model == j.model
            && (if j.payload.sourceUrl == "" then
                  && !raised && k.status == Status.Failed && k.gate == [Release] && k.currentStage == None
                  && k.stages == map[PreparePrompt := Succeeded, StemSeparation := Progress.Failed]
                else
                  && (raised <==> env.submit == None) && k.gate == [] && k.request == env.submit
                  && k.status == Status.Running
                  && k.currentStage == (if env.submit.Some? then Some(StemSeparation) else None)
                  && k.stages == map[PreparePrompt := Succeeded,
                       StemSeparation := if env.submit.Some? then Progress.Running else Progress.Failed])
  {
  }

  /** The stems report offers a usable url under a key, as a text or as an object. */
  predicate Offers(stems: Stems, key: string, url: string) {
    url != "" && ((key, Plain(url)) in stems || (key, Object(url)) in stems)
  }

  /** Keys of the provider's object. */
  ghost predicate DistinctStems(stems: Stems) {
    forall i, j :: 0 <= i < j < |stems| ==> stems[i].0 != stems[j].0
  }

  lemma {:induction false} UrlOfIff(stems: Stems, key: string, url: string)
    requires DistinctStems(stems) && url != ""
    ensures UrlOf(stems, key) == url <==> Offers(stems, key, url)
    decreases |stems|
  {
    if stems != [] {
      UrlOfIff(stems[1..], key, url);
      assert stems == [stems[0]] + stems[1..];
      assert forall i :: 1 <= i < |stems| ==> stems[i].0 != stems[0].0;
    }
  }

  /** The vocal is what `vocals` offers, else what `vocal` offers. */
  lemma VocalStemIff(stems: Stems, url: string)
    requires DistinctStems(stems) && url != ""
    ensures VocalStem(stems) == url <==>
            Offers(stems, "vocals", url)
            || ((forall v :: !Offers(stems, "vocals", v)) && Offers(stems, "vocal", url))
  {
    UrlOfIff(stems, "vocals", url);
    UrlOfIff(stems, "vocal", url);
    if UrlOf(stems, "vocals") != "" {
      UrlOfIff(stems, "vocals", UrlOf(stems, "vocals"));
    } else {
      forall v ensures !Offers(stems, "vocals", v) {
        if v != "" { UrlOfIff(stems, "vocals", v); }
      }
    }
  }

  /** The instrumental is built from what every other key offers, in the order of the report. */
  lemma {:induction false} InstrumentalIff(stems: Stems, url: string)
    ensures url in Instrumentals(stems) <==>
            exists i :: 0 <= i < |stems| && url != "" && stems[i].0 != "vocals" && stems[i].0 != "vocal"
                        && (stems[i].1 == Plain(url) || stems[i].1 == Object(url))
  {
    if stems != [] {
      var n := |stems| - 1;
      InstrumentalIff(stems[..n], url);
      assert forall i :: 0 <= i < n ==> stems[..n][i] == stems[i];
    }
  }

  lemma {:induction false} InstrumentalsInOrder(a: Stems, b: Stems)
    ensures Instrumentals(a + b) == Instrumentals(a) + Instrumentals(b)
    decreases |b|
  {
    if b == [] {
      assert a + b == a;
    } else {
      var n := |b| - 1;
      InstrumentalsInOrder(a, b[..n]);
      assert (a + b)[..|a + b| - 1] == a + b[..n];
    }
  }

  /** After the separation: the stems are kept on the row, and the conversion waits, is skipped or has failed. */
  lemma SeparatedCover(j: Job, stems: Stems, media: string, env: Env)
    requires j.payload.Cover? && j.currentStage == Some(StemSeparation)
    ensures var k := Advance(j, StemSeparation, media, stems, env);
            && k.payload == j.payload.(vocalStem := VocalStem(stems), instrumentals := Instrumentals(stems))
            && k.runtime == j.runtime[StemSeparation := media]
            && LogAt(k, StemSeparation) == Some(Succeeded)
            && (if VocalStem(stems) == "" then LogAt(k, VoiceConversion) == Some(Skipped)
                else if env.submit == None then LogAt(k, VoiceConversion) == Some(Progress.Failed)
                else
                  && LogAt(k, VoiceConversion) == Some(Progress.Running) && k.currentStage == Some(VoiceConversion)
                  && k.request == env.submit && k.model == j.model && k.submits == j.submits + 1)
  {
    var a := Keep(Record(j, StemSeparation, Succeeded), StemSeparation, media);
    if !ConversionAccepted(stems, env) {
      var b := Unconverted(a, stems);
      ConversionRefused(a, stems, env);
      FinishedCoverLog(b, env, StemSeparation);
      FinishedCoverLog(b, env, VoiceConversion);
      FinalizedKeepsInput(b, env);
    }
  }

  lemma FinalizedKeepsInput(j: Job, env: Env)
    requires j.payload.Cover?
    ensures Finalized(j, env).payload == j.payload && Finalized(j, env).runtime == j.runtime
  {
    ReadyToDeliverRelogs(j, env);
  }

  lemma MixedLog(j: Job, env: Env, st: Stage)
    requires j.payload.Cover?
    ensures LogAt(Mixed(j, env).0, st) ==
            if st != MixMaster || RuntimeUrl(j, VoiceConversion) == "" then LogAt(j, st)
            else if j.payload.instrumentals == [] || !env.ffmpeg || env.instrumental == "" then Some(Skipped)
            else if env.tool.Produced? && env.tool.url != "" then Some(Succeeded) else Some(Progress.Failed)
  {
  }

  /** The stage log of a finished cover. Without converted vocals the mixing stage is not touched. */
  lemma FinishedCoverLog(j: Job, env: Env, st: Stage)
    requires j.payload.Cover?
    ensures var vocals := RuntimeUrl(j, VoiceConversion);
            LogAt(Finalized(j, env), st) ==
            match st
            case MixMaster =>
              if vocals == "" then LogAt(j, st)
              else if j.payload.instrumentals == [] || !env.ffmpeg || env.instrumental == "" then Some(Skipped)
              else if env.tool.Produced? && env.tool.url != "" then Some(Succeeded) else Some(Progress.Failed)
            case UploadCdn => Some(Succeeded)
            case Finalize => Some(if vocals != "" then Succeeded else Progress.Failed)
            case StemSeparation => if st in j.stages then Some(j.stages[st]) else Some(Skipped)
            case VoiceConversion => if st in j.stages then Some(j.stages[st]) else Some(Skipped)
            case _ => LogAt(j, st)
  {
    var a := SkipMissing(SetStatus(j, PostProcessing), [StemSeparation, VoiceConversion]);
    SkippingLog(j, [StemSeparation, VoiceConversion], st);
    SkipMissingOnlySkips(SetStatus(j, PostProcessing), [StemSeparation, VoiceConversion]);
    MixedLog(a, env, st);
    var (k, url) := ReadyToDeliver(j, env);
    DeliveryLog(k, url, st);
  }

  lemma FailedCover(j: Job, stage: Stage)
    ensures Fail(j, stage) ==
            j.(status := Status.Failed, gate := j.gate + [Release], stages := j.stages[stage := Progress.Failed])
  {
  }
}
