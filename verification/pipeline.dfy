/** `process_audio` in `app.py`: the background run that takes an uploaded
    song through transcription, chorus extraction, both emotion detectors,
    prompt generation, one Veo job per prompt with a download from Cloud
    Storage, and the final stitch, reporting each step in the status record.

    Nothing in `process_audio` catches an exception raised by a stage: it
    ends the run where it happens and leaves the record as it was. Only
    three failures are handled, each by a log line and a final message.
 */
module Pipeline {
  import opened Results
  import opened PyText
  import opened PyPath
  import opened RunStatus
  import ChorusExtractor
  import EmotionAudio
  import PromptGen
  import VideoGen
  import Postprocess

  const TranscribingMessage := "🔤 Transcribing audio…"
  const ChorusMessage := "🎼 Extracting chorus…"
  const AudioEmotionMessage := "🎧 Detecting emotions from audio…"
  const LyricEmotionMessage := "🧠 Detecting emotions from lyrics…"
  const PromptsMessage := "🎬 Generating visual prompts…"
  const VideoFailedMessage := "❌ Video generation failed"
  const DownloadFailedMessage := "❌ Failed to download video"
  const InvalidUrlMessage := "❌ Invalid video URL"
  const StitchingMessage := "🧵 Stitching final video…"
  const DoneMessage := "✅ Done!"
  const VideosFolder := "static/videos"
  const StitchedFolder := "static/processed_videos"
  const ChorusUrlPrefix := "/static/uploads/"
  const DownloadPrefix := "/download?path="
  const GsScheme := "gs://"
  const UnpackError := "not enough values to unpack (expected 2, got 1)"

  /** The message shown while video `number` of `total` is generated. */
  function VideoMessage(number: nat, total: nat): string {
    "📽️ Generating video " + DecimalText(number) + " of " + DecimalText(total) + "…"
  }

  /** Everything `process_audio` calls but does not define. `veo(i)` is the
      Veo service as the `i`-th job sees it; `openBlob` stands for creating
      the storage client and the blob handle, and `download` for
      `blob.download_to_filename`. */
  datatype World = World(
    transcribe: string -> Result<string>,
    detectChorus: ChorusExtractor.Detector,
    music2emo: EmotionAudio.Service,
    detectLyricEmotion: string -> Result<LyricEmotion>,
    env: map<string, string>,
    chat: PromptGen.Chat<EmotionAudio.AudioEmotion>,
    veo: nat -> VideoGen.VeoService,
    openBlob: (string, string) -> Result<()>,
    download: (string, string, string) -> Result<()>,
    media: Postprocess.Media)

  /** The system's own modules as `process_audio` calls them:
      `extract(audio_path)`, `predict(chorus_path)`,
      `generate(lyrics_emotions, audio_emotions, lyrics, model_name)` and
      `stitch_multiple(video_paths, chorus_path, "static/processed_videos")`.
      The run is defined for any such binding; `Library` binds them to the
      functions this model defines. */
  datatype Stages = Stages(
    extract: string -> Result<ChorusExtractor.Clip>,
    predict: string -> Result<EmotionAudio.AudioEmotion>,
    generate: (string, EmotionAudio.AudioEmotion, LyricEmotion, string)
              -> Result<PromptGen.Storyboard<EmotionAudio.AudioEmotion>>,
    stitch: (seq<string>, string) -> Postprocess.Report)

  /** The stages of the system itself in the world `w`. The lyric-emotion
      dictionary reaches `generate` with its `label` entry. */
  function Library(w: World): Stages {
    Stages(
      a => ChorusExtractor.Extract(a, ChorusExtractor.DefaultOutputDir, w.detectChorus),
      c => EmotionAudio.Predict(c, w.music2emo),
      (lyrics: string, ae: EmotionAudio.AudioEmotion, le: LyricEmotion, model: string) =>
        PromptGen.Generate(PromptGen.Mapping(Some(le.name)), ae, lyrics, model, w.env, w.chat),
      (videos, audio) => Postprocess.StitchMultiple(videos, audio, StitchedFolder, w.media))
  }

  // ---------------------------------------------------------------------
  // Cloud Storage URIs and download paths

  /** `rest.split("/", 1)` unpacked into bucket and blob: with no `/` there is
      only one value and the unpacking raises. */
  function SplitBucket(rest: string): (r: Result<(string, string)>)
    ensures r.Ok? <==> !Excludes(rest, '/')
    ensures r.Ok? ==> rest == r.value.0 + "/" + r.value.1 && Excludes(r.value.0, '/')
    ensures r.Raised? ==> r.error == UnpackError
  {
    match FirstIndex(rest, '/')
    case None => Raised(UnpackError)
    case Some(k) =>
      assert rest == rest[..k] + "/" + rest[k + 1..];
      Ok((rest[..k], rest[k + 1..]))
  }

  /** Splitting gives back the bucket and blob a URI was made of. */
  lemma SplitBucketRoundTrip(bucket: string, blob: string)
    requires Excludes(bucket, '/')
    ensures SplitBucket(bucket + "/" + blob) == Ok((bucket, blob))
  {
    FirstIndexAfter(bucket, '/', blob);
    var s := bucket + "/" + blob;
    assert s[..|bucket|] == bucket && s[|bucket| + 1..] == blob;
  }

  /** `os.path.join("static/videos", f"{i}_{basename(uri)}")` */
  function VideoOutputPath(i: nat, uri: string): string {
    Join(VideosFolder, DecimalText(i) + "_" + Basename(uri))
  }

  lemma DigitsExclude(s: string, c: char)
    requires AllDigits(s) && !IsDigit(c)
    ensures Excludes(s, c)
  {
    forall k | 0 <= k < |s| ensures s[k] != c {
      assert IsDigit(s[k]);
    }
  }

  /** The downloaded file keeps the video's file name behind its index. */
  lemma VideoOutputName(i: nat, uri: string)
    ensures Basename(VideoOutputPath(i, uri)) == DecimalText(i) + "_" + Basename(uri)
  {
    DigitsExclude(DecimalText(i), '/');
    ExcludesConcat(DecimalText(i), "_", '/');
    ExcludesConcat(DecimalText(i) + "_", Basename(uri), '/');
    BasenameOfJoin(VideosFolder, DecimalText(i) + "_" + Basename(uri));
  }

  /** The index in front of the first `_` of a file name determines it. */
  lemma IndexPrefixInjective(i: nat, j: nat, x: string, y: string)
    requires DecimalText(i) + "_" + x == DecimalText(j) + "_" + y
    ensures i == j
  {
    var a, b := DecimalText(i), DecimalText(j);
    DigitsExclude(a, '_');
    DigitsExclude(b, '_');
    FirstIndexAfter(a, '_', x);
    FirstIndexAfter(b, '_', y);
    assert |a| == |b|;
    assert a == (a + "_" + x)[..|a|] == (b + "_" + y)[..|b|] == b;
    DecimalInjective(i, j);
  }

  /** Two jobs of one run never download to the same file, whatever URIs
      they return, because the file name starts with the job's index. */
  lemma VideoOutputPathsDistinct(i: nat, j: nat, u: string, v: string)
    requires i != j
    ensures VideoOutputPath(i, u) != VideoOutputPath(j, v)
  {
    if VideoOutputPath(i, u) == VideoOutputPath(j, v) {
      VideoOutputName(i, u);
      VideoOutputName(j, v);
      IndexPrefixInjective(i, j, Basename(u), Basename(v));
    }
  }

  // ---------------------------------------------------------------------
  // The run

  /** How a stretch of the run ended: it went on, it hit a handled failure
      and finishes with `message`, or an exception escaped. */
  datatype Outcome = Continued | Stopped(message: string) | Crashed(error: string)

  /** The stages before the video loop: the writes they made, and the chorus
      clip and prompts when they got that far. */
  datatype Prelude = Prelude(log: seq<Effect>, chorus: Option<ChorusExtractor.Clip>, prompts: seq<string>, outcome: Outcome)

  /** The video loop from index `i` on: its writes, the jobs it ran, the
      files it downloaded, how it ended. */
  datatype Loop = Loop(log: seq<Effect>, jobs: seq<VideoGen.Job>, videos: seq<string>, outcome: Outcome)

  /** How a whole run ended: by `PROCESS_STATUS.update({"message": m, "done": True})`,
      or by an exception that escaped `process_audio`. */
  datatype Ending = Finished(message: string) | Escaped(error: string)

  /** One whole run: the writes between the reset and the end, how it ended,
      the prompts, the Veo jobs, the downloaded files and the stitch if reached. */
  datatype Trace = Trace(log: seq<Effect>, ending: Ending, prompts: seq<string>, jobs: seq<VideoGen.Job>,
                         videos: seq<string>, stitched: Option<Postprocess.Report>)

  /** Every statement of the run that writes the status record, in order. */
  function Mutations(t: Trace): seq<Mutation> {
    [Reset] + Writes(t.log) + match t.ending case Finished(m) => [Finish(m)] case Escaped(_) => []
  }

  predicate Succeeded(job: VideoGen.Job) {
    job.outcome.Ok? && job.outcome.value.Success?
  }

  /** Where the chorus link sits in the log: after the two writes before
      transcription and the three after it. */
  const ChorusLinkEntry := 5

  /** Transcription to prompt generation (lines 47-84 of `app.py`). */
  function RunPrelude(audioPath: string, modelName: string, w: World, lib: Stages): (p: Prelude)
    ensures !p.outcome.Stopped?
    ensures p.chorus.Some? <==> w.transcribe(audioPath).Ok? && lib.extract(audioPath).Ok?
    ensures p.chorus.Some? ==>
      && p.chorus.value == lib.extract(audioPath).value
      && |p.log| > ChorusLinkEntry
      && p.log[ChorusLinkEntry] == Put(ChorusAudioUrl(ChorusUrlPrefix + Basename(p.chorus.value.path)))
    ensures p.outcome.Continued? <==>
      && p.chorus.Some?
      && lib.predict(p.chorus.value.path).Ok?
      && w.detectLyricEmotion(w.transcribe(audioPath).value).Ok?
      && lib.generate(w.transcribe(audioPath).value, lib.predict(p.chorus.value.path).value,
                      w.detectLyricEmotion(w.transcribe(audioPath).value).value, modelName).Ok?
    ensures p.outcome.Continued? ==>
      p.prompts == lib.generate(w.transcribe(audioPath).value, lib.predict(p.chorus.value.path).value,
                                w.detectLyricEmotion(w.transcribe(audioPath).value).value, modelName).value.parts
  {
    var start := [Append(UsingModel(modelName)), SetMessage(TranscribingMessage)];
    match w.transcribe(audioPath)
    case Raised(e) => Prelude(start, None, [], Crashed(e))
    case Ok(lyrics) =>
      var s1 := start + [Put(Lyrics(lyrics)), Append(Transcribed(WordCount(lyrics))), SetMessage(ChorusMessage)];
      match lib.extract(audioPath)
      case Raised(e) => Prelude(s1, None, [], Crashed(e))
      case Ok(clip) =>
        var link := Put(ChorusAudioUrl(ChorusUrlPrefix + Basename(clip.path)));
        var s2 := s1 + [link, Append(ChorusSpan(clip.start, clip.end)), SetMessage(AudioEmotionMessage)];
        assert |s1| == ChorusLinkEntry && s2[|s1|] == link;
        match lib.predict(clip.path)
        case Raised(e) => Prelude(s2, Some(clip), [], Crashed(e))
        case Ok(ae) =>
          var s3 := s2 + [Put(AudioEmotions(ae)), Append(AudioEmotionOk), SetMessage(LyricEmotionMessage)];
          assert s3[|s1|] == link;
          match w.detectLyricEmotion(lyrics)
          case Raised(e) => Prelude(s3, Some(clip), [], Crashed(e))
          case Ok(le) =>
            var s4 := s3 + [Put(LyricEmotions(le)), Append(LyricEmotionIs(le.name, le.confidence)),
                            SetMessage(PromptsMessage)];
            assert s4[|s1|] == link;
            match lib.generate(lyrics, ae, le, modelName)
            case Raised(e) => Prelude(s4, Some(clip), [], Crashed(e))
            case Ok(board) =>
              var s5 := s4 + [Put(Prompts(board.parts)), Append(GeneratedPrompts(|board.parts|))];
              assert s5[|s1|] == link;
              Prelude(s5, Some(clip), board.parts, Continued)
  }

  /** How one pass of the loop ended: with the downloaded file, or not. */
  datatype StepEnd = Fetched(path: string) | Halted(outcome: Outcome)

  /** One pass of the `for` loop, for prompt `i` (lines 89-119 of `app.py`):
      its writes, its Veo job and how it ended. */
  datatype Step = Step(log: seq<Effect>, job: VideoGen.Job, end: StepEnd)

  function VideoStep(prompts: seq<string>, i: nat, w: World, name: (nat, string) -> string): (st: Step)
    requires i < |prompts|
    ensures st.job == VideoGen.VideoJob(prompts[i], VideoGen.DefaultAspectRatio, w.env, w.veo(i))
    ensures st.end.Fetched? ==> Succeeded(st.job) && st.end.path == name(i, st.job.outcome.value.uri)
    ensures st.end.Halted? ==> !st.end.outcome.Continued?
    ensures st.end.Halted? && st.end.outcome.Stopped? ==>
      st.end.outcome.message in {VideoFailedMessage, DownloadFailedMessage, InvalidUrlMessage}
    ensures st.end.Halted? && st.end.outcome.Stopped? && st.end.outcome.message == VideoFailedMessage ==>
      st.job.outcome.Ok? && st.job.outcome.value.Failed?
    ensures st.job.outcome.Raised? ==> st.end == Halted(Crashed(st.job.outcome.error))
    ensures st.job.outcome.Ok? && st.job.outcome.value.Failed? ==> st.end == Halted(Stopped(VideoFailedMessage))
    ensures Succeeded(st.job) && !IsPrefix(GsScheme, st.job.outcome.value.uri) ==>
      st.end == Halted(Stopped(InvalidUrlMessage))
    ensures Succeeded(st.job) && IsPrefix(GsScheme, st.job.outcome.value.uri)
            && Excludes(st.job.outcome.value.uri[|GsScheme|..], '/') ==>
      st.end == Halted(Crashed(UnpackError))
    ensures st.end.Fetched? ==>
      var names := SplitBucket(st.job.outcome.value.uri[|GsScheme|..]);
      && IsPrefix(GsScheme, st.job.outcome.value.uri) && names.Ok?
      && w.openBlob(names.value.0, names.value.1).Ok?
      && w.download(names.value.0, names.value.1, st.end.path).Ok?
    ensures Succeeded(st.job) && IsPrefix(GsScheme, st.job.outcome.value.uri) ==>
      var uri := st.job.outcome.value.uri;
      var names := SplitBucket(uri[|GsScheme|..]);
      names.Ok? ==>
        var blob := w.openBlob(names.value.0, names.value.1);
        var fetch := w.download(names.value.0, names.value.1, name(i, uri));
        && (blob.Raised? ==> st.end == Halted(Crashed(blob.error)))
        && (blob.Ok? && fetch.Raised? ==> st.end == Halted(Stopped(DownloadFailedMessage)))
        && (blob.Ok? && fetch.Ok? ==> st.end == Fetched(name(i, uri)))
  {
    var number := i + 1;
    var job := VideoGen.VideoJob(prompts[i], VideoGen.DefaultAspectRatio, w.env, w.veo(i));
    var head := [SetMessage(VideoMessage(number, |prompts|))];
    match job.outcome
    case Raised(e) => Step(head, job, Halted(Crashed(e)))
    case Ok(Failed(err)) => Step(head + [Append(VideoFailed(number, err))], job, Halted(Stopped(VideoFailedMessage)))
    case Ok(Success(uri, id)) =>
      var ready := head + [Append(VideoReady(number, id))];
      var out := name(i, uri);
      if !IsPrefix(GsScheme, uri) then
        Step(ready + [Append(InvalidUri(number))], job, Halted(Stopped(InvalidUrlMessage)))
      else
        match SplitBucket(uri[|GsScheme|..])
        case Raised(e) => Step(ready, job, Halted(Crashed(e)))
        case Ok(names) =>
          match w.openBlob(names.0, names.1)
          case Raised(e) => Step(ready, job, Halted(Crashed(e)))
          case Ok(_) =>
            match w.download(names.0, names.1, out)
            case Raised(e) =>
              Step(ready + [Append(DownloadFailed(number, e))], job, Halted(Stopped(DownloadFailedMessage)))
            case Ok(_) => Step(ready + [Append(Downloaded(number, out))], job, Fetched(out))
  }

  /** `jobs` are the Veo jobs for the prompts from index `i` on, in order. */
  predicate Submitted(prompts: seq<string>, i: nat, jobs: seq<VideoGen.Job>, w: World)
    decreases |jobs|
  {
    jobs == [] ||
      (i < |prompts|
       && jobs[0] == VideoGen.VideoJob(prompts[i], VideoGen.DefaultAspectRatio, w.env, w.veo(i))
       && Submitted(prompts, i + 1, jobs[1..], w))
  }

  /** `videos` are where the first of `jobs` (numbered from `i`) saved their
      videos, each job having succeeded and its video being stored under
      `name(number, uri)`. */
  predicate Saved(i: nat, jobs: seq<VideoGen.Job>, videos: seq<string>, name: (nat, string) -> string)
    decreases |videos|
  {
    videos == [] ||
      (jobs != []
       && Succeeded(jobs[0])
       && videos[0] == name(i, jobs[0].outcome.value.uri)
       && Saved(i + 1, jobs[1..], videos[1..], name))
  }

  /** The `for` loop from prompt `i` on (lines 86-119 of `app.py`). */
  function VideoLoop(prompts: seq<string>, i: nat, w: World, name: (nat, string) -> string): (l: Loop)
    requires i <= |prompts|
    ensures |l.videos| <= |l.jobs| <= |prompts| - i
    ensures i < |prompts| ==> |l.jobs| >= 1
    ensures Submitted(prompts, i, l.jobs, w)
    ensures Saved(i, l.jobs, l.videos, name)
    ensures l.outcome.Continued? ==> |l.jobs| == |prompts| - i && |l.videos| == |l.jobs|
    ensures !l.outcome.Continued? ==> |l.jobs| == |l.videos| + 1
    ensures l.outcome.Stopped? ==> l.outcome.message in {VideoFailedMessage, DownloadFailedMessage, InvalidUrlMessage}
    ensures l.outcome.Stopped? && l.outcome.message == VideoFailedMessage ==>
      l.jobs[|l.jobs| - 1].outcome.Ok? && l.jobs[|l.jobs| - 1].outcome.value.Failed?
    decreases |prompts| - i
  {
    if i == |prompts| then Loop([], [], [], Continued)
    else
      var st := VideoStep(prompts, i, w, name);
      match st.end
      case Halted(outcome) => Loop(st.log, [st.job], [], outcome)
      case Fetched(out) =>
        var rest := VideoLoop(prompts, i + 1, w, name);
        var jobs := [st.job] + rest.jobs;
        var videos := [out] + rest.videos;
        assert jobs[1..] == rest.jobs && videos[1..] == rest.videos;
        assert rest.jobs != [] ==> jobs[|jobs| - 1] == rest.jobs[|rest.jobs| - 1];
        Loop(st.log + rest.log, jobs, videos, rest.outcome)
  }

  /** A pass that downloaded its video hands the loop on to the next prompt. */
  lemma LoopAfterFetch(prompts: seq<string>, i: nat, w: World, name: (nat, string) -> string)
    requires i < |prompts|
    requires VideoStep(prompts, i, w, name).end.Fetched?
    ensures VideoLoop(prompts, i, w, name).outcome == VideoLoop(prompts, i + 1, w, name).outcome
    ensures |VideoLoop(prompts, i, w, name).jobs| == |VideoLoop(prompts, i + 1, w, name).jobs| + 1
  {
    var st := VideoStep(prompts, i, w, name);
    var rest := VideoLoop(prompts, i + 1, w, name);
    assert VideoLoop(prompts, i, w, name)
      == Loop(st.log + rest.log, [st.job] + rest.jobs, [st.end.path] + rest.videos, rest.outcome);
  }

  /** A pass that did not download its video ends the loop with its job. */
  lemma LoopAtHalt(prompts: seq<string>, i: nat, w: World, name: (nat, string) -> string)
    requires i < |prompts|
    requires VideoStep(prompts, i, w, name).end.Halted?
    ensures VideoLoop(prompts, i, w, name).outcome == VideoStep(prompts, i, w, name).end.outcome
    ensures |VideoLoop(prompts, i, w, name).jobs| == 1
  {
    var st := VideoStep(prompts, i, w, name);
    assert VideoLoop(prompts, i, w, name) == Loop(st.log, [st.job], [], st.end.outcome);
  }

  /** The loop from prompt `i` goes on past every pass that downloaded its
      video and ends the way the first pass that did not ends. */
  lemma {:induction false} LoopEndsAt(prompts: seq<string>, i: nat, w: World, name: (nat, string) -> string, k: nat)
    requires i + k < |prompts|
    requires forall j :: i <= j < i + k ==> VideoStep(prompts, j, w, name).end.Fetched?
    requires VideoStep(prompts, i + k, w, name).end.Halted?
    ensures VideoLoop(prompts, i, w, name).outcome == VideoStep(prompts, i + k, w, name).end.outcome
    ensures |VideoLoop(prompts, i, w, name).jobs| == k + 1
    decreases k
  {
    if k == 0 {
      LoopAtHalt(prompts, i, w, name);
    } else {
      assert VideoStep(prompts, i, w, name).end.Fetched?;
      LoopEndsAt(prompts, i + 1, w, name, k - 1);
      LoopAfterFetch(prompts, i, w, name);
    }
  }

  lemma {:induction false} SubmittedAt(prompts: seq<string>, i: nat, jobs: seq<VideoGen.Job>, w: World, k: nat)
    requires Submitted(prompts, i, jobs, w) && k < |jobs|
    ensures i + k < |prompts|
    ensures jobs[k] == VideoGen.VideoJob(prompts[i + k], VideoGen.DefaultAspectRatio, w.env, w.veo(i + k))
    decreases k
  {
    if k > 0 {
      SubmittedAt(prompts, i + 1, jobs[1..], w, k - 1);
    }
  }

  lemma {:induction false} SavedAt(i: nat, jobs: seq<VideoGen.Job>, videos: seq<string>, name: (nat, string) -> string, k: nat)
    requires Saved(i, jobs, videos, name) && k < |videos|
    ensures k < |jobs| && Succeeded(jobs[k]) && videos[k] == name(i + k, jobs[k].outcome.value.uri)
    decreases k
  {
    if k > 0 {
      SavedAt(i + 1, jobs[1..], videos[1..], name, k - 1);
    }
  }

  /** A naming scheme that gives different video numbers different names. */
  ghost predicate Numbered(name: (nat, string) -> string) {
    forall a, b, u, v :: a != b ==> name(a, u) != name(b, v)
  }

  lemma OutputPathsNumbered()
    ensures Numbered(VideoOutputPath)
  {
    forall a, b, u, v | a != b ensures VideoOutputPath(a, u) != VideoOutputPath(b, v) {
      VideoOutputPathsDistinct(a, b, u, v);
    }
  }

  /** Every saved video comes from a successful job and, under a numbered
      naming scheme, has a file of its own. */
  lemma {:induction false} SavedFiles(i: nat, jobs: seq<VideoGen.Job>, videos: seq<string>, name: (nat, string) -> string)
    requires Saved(i, jobs, videos, name) && Numbered(name)
    ensures |videos| <= |jobs|
    ensures forall k :: 0 <= k < |videos| ==> Succeeded(jobs[k])
    ensures forall j, k :: 0 <= j < k < |videos| ==> videos[j] != videos[k]
  {
    if videos != [] {
      SavedAt(i, jobs, videos, name, |videos| - 1);
    }
    forall k | 0 <= k < |videos| ensures Succeeded(jobs[k]) {
      SavedAt(i, jobs, videos, name, k);
    }
    forall j, k | 0 <= j < k < |videos| ensures videos[j] != videos[k] {
      SavedAt(i, jobs, videos, name, j);
      SavedAt(i, jobs, videos, name, k);
      assert name(i + j, jobs[j].outcome.value.uri) != name(i + k, jobs[k].outcome.value.uri);
    }
  }

  /** `process_audio(audio_path, model_name)` in the world `w`. */
  function Run(audioPath: string, modelName: string, w: World, lib: Stages): (t: Trace)
    ensures t.ending.Finished? ==>
      t.ending.message in {DoneMessage, VideoFailedMessage, DownloadFailedMessage, InvalidUrlMessage}
    ensures t.stitched.Some? <==> t.ending == Finished(DoneMessage)
    ensures |t.videos| <= |t.jobs| <= |t.prompts|
    ensures Submitted(t.prompts, 0, t.jobs, w)
    ensures Saved(0, t.jobs, t.videos, VideoOutputPath)
    ensures t.jobs != [] ==> |t.jobs| - 1 <= |t.videos|
    ensures RunPrelude(audioPath, modelName, w, lib).log <= t.log
  {
    var pre := RunPrelude(audioPath, modelName, w, lib);
    match pre.outcome
    case Crashed(e) => Trace(pre.log, Escaped(e), [], [], [], None)
    case Stopped(_) => assert false; Trace(pre.log, Escaped(""), [], [], [], None)
    case Continued =>
      var loop := VideoLoop(pre.prompts, 0, w, VideoOutputPath);
      var looped := pre.log + loop.log;
      assert pre.log <= looped;
      match loop.outcome
      case Crashed(e) => Trace(looped, Escaped(e), pre.prompts, loop.jobs, loop.videos, None)
      case Stopped(msg) => Trace(looped, Finished(msg), pre.prompts, loop.jobs, loop.videos, None)
      case Continued =>
        var stitching := looped + [SetMessage(StitchingMessage)];
        match w.media.makeDirs(StitchedFolder)
        case Raised(e) => Trace(stitching, Escaped(e), pre.prompts, loop.jobs, loop.videos, None)
        case Ok(_) =>
          var report := lib.stitch(loop.videos, pre.chorus.value.path);
          var log := stitching + [SetVideoPath(DownloadPrefix + report.result), Append(FinalReady)];
          Trace(log, Finished(DoneMessage), pre.prompts, loop.jobs, loop.videos, Some(report))
  }

  /** The prompts of a run are those of a prelude that went on, and the
      loop asks for at least one video. */
  lemma RunPrompts(audioPath: string, modelName: string, w: World, lib: Stages)
    requires Run(audioPath, modelName, w, lib).prompts != []
    ensures var pre := RunPrelude(audioPath, modelName, w, lib);
      var t := Run(audioPath, modelName, w, lib);
      && pre.outcome.Continued? && t.prompts == pre.prompts && t.jobs != []
  {
  }

  /** A run that reaches the stitch has a video for every prompt, stitches
      exactly those videos onto the chorus clip, and ends its log with the
      download link and the final line. */
  lemma RunStitch(audioPath: string, modelName: string, w: World, lib: Stages)
    requires Run(audioPath, modelName, w, lib).stitched.Some?
    ensures var pre := RunPrelude(audioPath, modelName, w, lib);
      var t := Run(audioPath, modelName, w, lib);
      && |t.videos| == |t.prompts|
      && pre.chorus.Some?
      && t.stitched.value == lib.stitch(t.videos, pre.chorus.value.path)
      && |t.log| >= 2
      && t.log[|t.log| - 2] == SetVideoPath(DownloadPrefix + t.stitched.value.result)
      && t.log[|t.log| - 1] == Append(FinalReady)
  {
    var pre := RunPrelude(audioPath, modelName, w, lib);
    assert pre.outcome.Continued?;
    var loop := VideoLoop(pre.prompts, 0, w, VideoOutputPath);
    assert loop.outcome.Continued? && w.media.makeDirs(StitchedFolder).Ok?;
  }

  /** The prelude opens with the model line and the transcription message,
      whatever happens after. */
  lemma PreludeOpens(audioPath: string, modelName: string, w: World, lib: Stages)
    ensures var p := RunPrelude(audioPath, modelName, w, lib);
      |p.log| >= 2 && p.log[..2] == [Append(UsingModel(modelName)), SetMessage(TranscribingMessage)]
  {
  }

  /** A run first resets the record and then adds the model line: until the
      transcription message is shown, a reader sees `done` false, no video
      path, no data and the one line `🤖 Using model: m`. */
  lemma RunOpens(prior: Status, audioPath: string, modelName: string, w: World, lib: Stages)
    ensures var ms := Mutations(Run(audioPath, modelName, w, lib));
      && |ms| >= 3
      && Replay(prior, ms[..2]) == Status(StartingMessage, false, "", NoData, [UsingModel(modelName)])
      && Replay(prior, ms[..3]).message == TranscribingMessage
  {
    var t := Run(audioPath, modelName, w, lib);
    PreludeOpens(audioPath, modelName, w, lib);
    assert t.log[..2] == [Append(UsingModel(modelName)), SetMessage(TranscribingMessage)];
    TraceOpens(prior, t, modelName);
  }

  /** Any trace whose log opens with the model line and the transcription
      message shows the record that way after its first writes. */
  lemma TraceOpens(prior: Status, t: Trace, modelName: string)
    requires |t.log| >= 2 && t.log[..2] == [Append(UsingModel(modelName)), SetMessage(TranscribingMessage)]
    ensures var ms := Mutations(t);
      && |ms| >= 3
      && Replay(prior, ms[..2]) == Status(StartingMessage, false, "", NoData, [UsingModel(modelName)])
      && Replay(prior, ms[..3]).message == TranscribingMessage
  {
    var ms := Mutations(t);
    assert ms[..3] == [Reset, Write(Append(UsingModel(modelName))), Write(SetMessage(TranscribingMessage))];
    OpeningReplay(prior, ms, modelName);
  }

  /** Replaying a reset, the model line and the transcription message. */
  lemma OpeningReplay(prior: Status, ms: seq<Mutation>, modelName: string)
    requires |ms| >= 3
    requires ms[..3] == [Reset, Write(Append(UsingModel(modelName))), Write(SetMessage(TranscribingMessage))]
    ensures Replay(prior, ms[..2]) == Status(StartingMessage, false, "", NoData, [UsingModel(modelName)])
    ensures Replay(prior, ms[..3]).message == TranscribingMessage
  {
    var m0, m1 := Write(Append(UsingModel(modelName))), Write(SetMessage(TranscribingMessage));
    var first := Apply(Started, m0);
    assert first == Status(StartingMessage, false, "", NoData, [UsingModel(modelName)]);
    assert ms[..2] == [Reset, m0] && ms[..3] == [Reset, m0, m1];
    assert [Reset, m0][1..] == [m0] && [m0][1..] == [];
    assert Replay(prior, [Reset, m0]) == Replay(Started, [m0]) == Replay(first, []);
    assert [Reset, m0, m1][1..] == [m0, m1] && [m0, m1][1..] == [m1] && [m1][1..] == [];
    assert Replay(prior, [Reset, m0, m1]) == Replay(Started, [m0, m1]) == Replay(first, [m1])
      == Replay(Apply(first, m1), []);
  }

  /** The status record a reader sees once the run has ended, whatever it
      held before. */
  function FinalStatus(prior: Status, audioPath: string, modelName: string, w: World, lib: Stages): Status {
    Replay(prior, Mutations(Run(audioPath, modelName, w, lib)))
  }

  // ---------------------------------------------------------------------
  // What a reader of the status record can rely on

  /** The record after the reset and the writes of a run, before its end. */
  lemma {:induction false} AfterWrites(prior: Status, t: Trace)
    ensures Replay(prior, [Reset] + Writes(t.log)) == Replay(Started, Writes(t.log))
    ensures Replay(prior, Mutations(t)) == match t.ending
      case Finished(m) => Replay(Started, Writes(t.log)).(message := m, done := true)
      case Escaped(_) => Replay(Started, Writes(t.log))
  {
    var body := Writes(t.log);
    ReplayConcat(prior, [Reset], body);
    match t.ending
    case Finished(m) =>
      assert Mutations(t) == ([Reset] + body) + [Finish(m)];
      ReplayConcat(prior, [Reset] + body, [Finish(m)]);
    case Escaped(_) =>
      assert Mutations(t) == [Reset] + body;
  }

  /** `done` ends up true exactly when no exception escaped: every handled
      failure and the normal end set it, and an escaping exception leaves the
      `False` the run started with. */
  lemma DoneIffNoException(prior: Status, audioPath: string, modelName: string, w: World, lib: Stages)
    ensures FinalStatus(prior, audioPath, modelName, w, lib).done <==> Run(audioPath, modelName, w, lib).ending.Finished?
  {
    var t := Run(audioPath, modelName, w, lib);
    AfterWrites(prior, t);
    ReplayWrites(Started, t.log);
  }

  /** A run that ends without an exception shows one of four final messages,
      and shows `✅ Done!` exactly when it went on to stitch. */
  lemma FinalMessage(prior: Status, audioPath: string, modelName: string, w: World, lib: Stages)
    requires Run(audioPath, modelName, w, lib).ending.Finished?
    ensures var s := FinalStatus(prior, audioPath, modelName, w, lib);
      && s.message in {DoneMessage, VideoFailedMessage, DownloadFailedMessage, InvalidUrlMessage}
      && (s.message == DoneMessage <==> Run(audioPath, modelName, w, lib).stitched.Some?)
  {
    AfterWrites(prior, Run(audioPath, modelName, w, lib));
  }

  /** From the reset on, the statements of any run only add lines: each
      view of the log is a prefix of every later one. */
  lemma TraceLogOnlyGrows(prior: Status, t: Trace, k: nat)
    requires 1 <= k <= |Mutations(t)|
    ensures Replay(prior, Mutations(t)[..k]).updates <= Replay(prior, Mutations(t)).updates
  {
    var ms := Mutations(t);
    var rest := ms[1..];
    assert forall j :: 0 <= j < |rest| ==> !rest[j].Reset?;
    assert ms == [Reset] + rest;
    ReplayConcat(prior, [Reset], rest);
    assert ms[..k] == [Reset] + rest[..k - 1];
    ReplayConcat(prior, [Reset], rest[..k - 1]);
    LogOnlyGrows(Started, rest, k - 1);
  }

  /** Polling `/status` during a run never shows a line disappear. */
  lemma StatusLogOnlyGrows(prior: Status, audioPath: string, modelName: string, w: World, lib: Stages, k: nat)
    requires 1 <= k <= |Mutations(Run(audioPath, modelName, w, lib))|
    ensures var ms := Mutations(Run(audioPath, modelName, w, lib));
      Replay(prior, ms[..k]).updates <= Replay(prior, ms).updates
  {
    TraceLogOnlyGrows(prior, Run(audioPath, modelName, w, lib), k);
  }

  /** Veo is asked for the prompts in order, one job per prompt, and the run
      stops submitting after the first job that does not end in a download:
      every job but the last one produced a downloaded file. */
  lemma JobsFollowPrompts(audioPath: string, modelName: string, w: World, lib: Stages)
    ensures var t := Run(audioPath, modelName, w, lib);
      && |t.jobs| <= |t.prompts|
      && (forall k :: 0 <= k < |t.jobs| ==> t.jobs[k].request.prompt == t.prompts[k])
      && (forall k :: 0 <= k < |t.jobs| - 1 ==> Succeeded(t.jobs[k]) && k < |t.videos|)
  {
    var t := Run(audioPath, modelName, w, lib);
    JobsInOrder(t.prompts, t.jobs, t.videos, w, VideoOutputPath);
  }

  /** Jobs submitted for the prompts in order, all but the last of which
      saved a video, follow the prompts one by one. */
  lemma JobsInOrder(prompts: seq<string>, jobs: seq<VideoGen.Job>, videos: seq<string>, w: World,
                    name: (nat, string) -> string)
    requires Submitted(prompts, 0, jobs, w) && Saved(0, jobs, videos, name)
    requires jobs != [] ==> |jobs| - 1 <= |videos|
    ensures forall k :: 0 <= k < |jobs| ==> k < |prompts| && jobs[k].request.prompt == prompts[k]
    ensures forall k :: 0 <= k < |jobs| - 1 ==> Succeeded(jobs[k]) && k < |videos|
  {
    forall k | 0 <= k < |jobs| ensures k < |prompts| && jobs[k].request.prompt == prompts[k] {
      SubmittedAt(prompts, 0, jobs, w, k);
    }
    forall k | 0 <= k < |jobs| - 1 ensures Succeeded(jobs[k]) && k < |videos| {
      SavedAt(0, jobs, videos, name, k);
    }
  }


  /** The stitched video is made of every prompt's video in prompt order,
      each downloaded to a file of its own, with the chorus clip as audio. */
  lemma StitchedInPromptOrder(audioPath: string, modelName: string, w: World, lib: Stages)
    requires Run(audioPath, modelName, w, lib).stitched.Some?
    ensures var t := Run(audioPath, modelName, w, lib);
      && |t.videos| == |t.prompts| == |t.jobs|
      && (forall k :: 0 <= k < |t.videos| ==> Succeeded(t.jobs[k]) && t.jobs[k].request.prompt == t.prompts[k])
      && (forall j, k :: 0 <= j < k < |t.videos| ==> t.videos[j] != t.videos[k])
  {
    var t := Run(audioPath, modelName, w, lib);
    RunStitch(audioPath, modelName, w, lib);
    OutputPathsNumbered();
    SavedFiles(0, t.jobs, t.videos, VideoOutputPath);
    JobsFollowPrompts(audioPath, modelName, w, lib);
  }

  /** A stitch that fails returns `""`, and the run still finishes with
      `✅ Done!` and a download link with an empty path. */
  lemma FailedStitchStillReportsDone(prior: Status, audioPath: string, modelName: string, w: World, lib: Stages)
    requires Run(audioPath, modelName, w, lib).stitched.Some?
    requires Run(audioPath, modelName, w, lib).stitched.value.result == ""
    ensures var s := FinalStatus(prior, audioPath, modelName, w, lib);
      s.done && s.message == DoneMessage && s.videoPath == DownloadPrefix
  {
    var t := Run(audioPath, modelName, w, lib);
    RunStitch(audioPath, modelName, w, lib);
    assert DownloadPrefix + t.stitched.value.result == DownloadPrefix;
    DoneTraceStatus(prior, t, DownloadPrefix);
  }

  /** After a prelude that went on, the run ends as the video loop does:
      a handled stop finishes it, a crash escapes it. */
  lemma RunLoopEnding(audioPath: string, modelName: string, w: World, lib: Stages)
    requires RunPrelude(audioPath, modelName, w, lib).outcome.Continued?
    ensures var loop := VideoLoop(RunPrelude(audioPath, modelName, w, lib).prompts, 0, w, VideoOutputPath);
      var t := Run(audioPath, modelName, w, lib);
      && t.jobs == loop.jobs
      && (loop.outcome.Stopped? ==> t.ending == Finished(loop.outcome.message))
      && (loop.outcome.Crashed? ==> t.ending == Escaped(loop.outcome.error))
  {
  }

  /** When the pass for prompt `k` stops on a handled failure after every
      earlier pass downloaded its video, the run makes `k + 1` jobs and
      finishes with that failure's message. */
  lemma RunStopsAtVideo(audioPath: string, modelName: string, w: World, lib: Stages, k: nat)
    requires RunPrelude(audioPath, modelName, w, lib).outcome.Continued?
    requires var ps := RunPrelude(audioPath, modelName, w, lib).prompts;
      && k < |ps|
      && (forall j :: 0 <= j < k ==> VideoStep(ps, j, w, VideoOutputPath).end.Fetched?)
      && VideoStep(ps, k, w, VideoOutputPath).end.Halted?
      && VideoStep(ps, k, w, VideoOutputPath).end.outcome.Stopped?
    ensures var ps := RunPrelude(audioPath, modelName, w, lib).prompts;
      var t := Run(audioPath, modelName, w, lib);
      t.ending == Finished(VideoStep(ps, k, w, VideoOutputPath).end.outcome.message) && |t.jobs| == k + 1
  {
    var pre := RunPrelude(audioPath, modelName, w, lib);
    LoopEndsAt(pre.prompts, 0, w, VideoOutputPath, k);
    RunLoopEnding(audioPath, modelName, w, lib);
  }

  /** Veo reporting a failure for prompt `k`, after every earlier video was
      downloaded, ends the run with `done` and `❌ Video generation failed`. */
  lemma FailedVideoEndsRun(prior: Status, audioPath: string, modelName: string, w: World, lib: Stages, k: nat)
    requires RunPrelude(audioPath, modelName, w, lib).outcome.Continued?
    requires var ps := RunPrelude(audioPath, modelName, w, lib).prompts;
      && k < |ps|
      && (forall j :: 0 <= j < k ==> VideoStep(ps, j, w, VideoOutputPath).end.Fetched?)
      && var job := VideoGen.VideoJob(ps[k], VideoGen.DefaultAspectRatio, w.env, w.veo(k));
         job.outcome.Ok? && job.outcome.value.Failed?
    ensures var s := FinalStatus(prior, audioPath, modelName, w, lib);
      s.done && s.message == VideoFailedMessage
  {
    var ps := RunPrelude(audioPath, modelName, w, lib).prompts;
    assert VideoStep(ps, k, w, VideoOutputPath).end == Halted(Stopped(VideoFailedMessage));
    RunStopsAtVideo(audioPath, modelName, w, lib, k);
    FinishedTraceStatus(prior, Run(audioPath, modelName, w, lib));
  }

  /** A download of video `k` that raises, after every earlier video was
      downloaded, ends the run with `done` and `❌ Failed to download video`. */
  lemma FailedDownloadEndsRun(prior: Status, audioPath: string, modelName: string, w: World, lib: Stages, k: nat)
    requires RunPrelude(audioPath, modelName, w, lib).outcome.Continued?
    requires var ps := RunPrelude(audioPath, modelName, w, lib).prompts;
      && k < |ps|
      && (forall j :: 0 <= j < k ==> VideoStep(ps, j, w, VideoOutputPath).end.Fetched?)
      && var job := VideoGen.VideoJob(ps[k], VideoGen.DefaultAspectRatio, w.env, w.veo(k));
         && Succeeded(job) && IsPrefix(GsScheme, job.outcome.value.uri)
         && var names := SplitBucket(job.outcome.value.uri[|GsScheme|..]);
            && names.Ok? && w.openBlob(names.value.0, names.value.1).Ok?
            && w.download(names.value.0, names.value.1, VideoOutputPath(k, job.outcome.value.uri)).Raised?
    ensures var s := FinalStatus(prior, audioPath, modelName, w, lib);
      s.done && s.message == DownloadFailedMessage
  {
    var ps := RunPrelude(audioPath, modelName, w, lib).prompts;
    assert VideoStep(ps, k, w, VideoOutputPath).end == Halted(Stopped(DownloadFailedMessage));
    RunStopsAtVideo(audioPath, modelName, w, lib, k);
    FinishedTraceStatus(prior, Run(audioPath, modelName, w, lib));
  }

  /** A trace that finishes with a message leaves `done` set and that
      message shown. */
  lemma FinishedTraceStatus(prior: Status, t: Trace)
    requires t.ending.Finished?
    ensures var s := Replay(prior, Mutations(t));
      s.done && s.message == t.ending.message
  {
    AfterWrites(prior, t);
  }

  /** A trace that ends in an exception leaves `done` false. */
  lemma EscapedTraceStatus(prior: Status, t: Trace)
    requires t.ending.Escaped?
    ensures !Replay(prior, Mutations(t)).done
  {
    AfterWrites(prior, t);
    ReplayWrites(Started, t.log);
  }

  /** The exception that stops the prelude is that of the first stage that
      raises: transcription, chorus extraction, audio emotion, lyric emotion,
      prompt generation. */
  lemma PreludeCrashError(audioPath: string, modelName: string, w: World, lib: Stages)
    ensures var p := RunPrelude(audioPath, modelName, w, lib);
      var lyrics := w.transcribe(audioPath);
      var clip := lib.extract(audioPath);
      && (lyrics.Raised? ==> p.outcome == Crashed(lyrics.error))
      && (lyrics.Ok? && clip.Raised? ==> p.outcome == Crashed(clip.error))
      && (lyrics.Ok? && clip.Ok? ==>
           var ae := lib.predict(clip.value.path);
           var le := w.detectLyricEmotion(lyrics.value);
           && (ae.Raised? ==> p.outcome == Crashed(ae.error))
           && (ae.Ok? && le.Raised? ==> p.outcome == Crashed(le.error))
           && (ae.Ok? && le.Ok? && lib.generate(lyrics.value, ae.value, le.value, modelName).Raised? ==>
                p.outcome == Crashed(lib.generate(lyrics.value, ae.value, le.value, modelName).error)))
  {
  }

  /** An exception before the video loop escapes `process_audio`: the run
      ends with it and `done` stays false. */
  lemma PreludeCrashEscapes(prior: Status, audioPath: string, modelName: string, w: World, lib: Stages)
    requires !RunPrelude(audioPath, modelName, w, lib).outcome.Continued?
    ensures Run(audioPath, modelName, w, lib).ending == Escaped(RunPrelude(audioPath, modelName, w, lib).outcome.error)
    ensures !FinalStatus(prior, audioPath, modelName, w, lib).done
  {
    DoneIffNoException(prior, audioPath, modelName, w, lib);
  }

  /** When the pass for prompt `k` raises outside the `try` (the Veo job,
      the `gs://` unpacking or opening the blob) after every earlier pass
      downloaded its video, that exception escapes the run. */
  lemma RunCrashesAtVideo(audioPath: string, modelName: string, w: World, lib: Stages, k: nat)
    requires RunPrelude(audioPath, modelName, w, lib).outcome.Continued?
    requires var ps := RunPrelude(audioPath, modelName, w, lib).prompts;
      && k < |ps|
      && (forall j :: 0 <= j < k ==> VideoStep(ps, j, w, VideoOutputPath).end.Fetched?)
      && VideoStep(ps, k, w, VideoOutputPath).end.Halted?
      && VideoStep(ps, k, w, VideoOutputPath).end.outcome.Crashed?
    ensures var ps := RunPrelude(audioPath, modelName, w, lib).prompts;
      Run(audioPath, modelName, w, lib).ending == Escaped(VideoStep(ps, k, w, VideoOutputPath).end.outcome.error)
  {
    var pre := RunPrelude(audioPath, modelName, w, lib);
    LoopEndsAt(pre.prompts, 0, w, VideoOutputPath, k);
    RunLoopEnding(audioPath, modelName, w, lib);
  }

  /** A crash in the pass for prompt `k` leaves `done` false. */
  lemma VideoCrashLeavesNotDone(prior: Status, audioPath: string, modelName: string, w: World, lib: Stages, k: nat)
    requires RunPrelude(audioPath, modelName, w, lib).outcome.Continued?
    requires var ps := RunPrelude(audioPath, modelName, w, lib).prompts;
      && k < |ps|
      && (forall j :: 0 <= j < k ==> VideoStep(ps, j, w, VideoOutputPath).end.Fetched?)
      && VideoStep(ps, k, w, VideoOutputPath).end.Halted?
      && VideoStep(ps, k, w, VideoOutputPath).end.outcome.Crashed?
    ensures !FinalStatus(prior, audioPath, modelName, w, lib).done
  {
    RunCrashesAtVideo(audioPath, modelName, w, lib, k);
    EscapedTraceStatus(prior, Run(audioPath, modelName, w, lib));
  }

  /** A `gs://` URI without a `/` after the bucket makes the unpacking at
      line 104 of `app.py` raise, outside the `try`: the run escapes with
      that `ValueError`. */
  lemma UnpackErrorEscapes(audioPath: string, modelName: string, w: World, lib: Stages, k: nat)
    requires RunPrelude(audioPath, modelName, w, lib).outcome.Continued?
    requires var ps := RunPrelude(audioPath, modelName, w, lib).prompts;
      && k < |ps|
      && (forall j :: 0 <= j < k ==> VideoStep(ps, j, w, VideoOutputPath).end.Fetched?)
      && var job := VideoGen.VideoJob(ps[k], VideoGen.DefaultAspectRatio, w.env, w.veo(k));
         && Succeeded(job) && IsPrefix(GsScheme, job.outcome.value.uri)
         && Excludes(job.outcome.value.uri[|GsScheme|..], '/')
    ensures Run(audioPath, modelName, w, lib).ending == Escaped(UnpackError)
  {
    var ps := RunPrelude(audioPath, modelName, w, lib).prompts;
    assert VideoStep(ps, k, w, VideoOutputPath).end == Halted(Crashed(UnpackError));
    RunCrashesAtVideo(audioPath, modelName, w, lib, k);
  }

  /** Every pass from prompt `i` on downloads its video. */
  predicate AllFetched(prompts: seq<string>, i: nat, w: World, name: (nat, string) -> string)
    requires i <= |prompts|
    decreases |prompts| - i
  {
    i == |prompts| || (VideoStep(prompts, i, w, name).end.Fetched? && AllFetched(prompts, i + 1, w, name))
  }

  lemma {:induction false} AllFetchedEach(prompts: seq<string>, i: nat, w: World, name: (nat, string) -> string)
    requires i <= |prompts|
    requires forall j :: i <= j < |prompts| ==> VideoStep(prompts, j, w, name).end.Fetched?
    ensures AllFetched(prompts, i, w, name)
    decreases |prompts| - i
  {
    if i < |prompts| {
      AllFetchedEach(prompts, i + 1, w, name);
    }
  }

  /** The loop from prompt `i` goes on to the stitch when every pass
      downloads its video. */
  lemma {:induction false} LoopPassesAll(prompts: seq<string>, i: nat, w: World, name: (nat, string) -> string)
    requires i <= |prompts|
    requires forall j :: i <= j < |prompts| ==> VideoStep(prompts, j, w, name).end.Fetched?
    ensures VideoLoop(prompts, i, w, name).outcome.Continued?
  {
    AllFetchedEach(prompts, i, w, name);
    LoopPassesFetched(prompts, i, w, name);
  }

  lemma {:induction false} LoopPassesFetched(prompts: seq<string>, i: nat, w: World, name: (nat, string) -> string)
    requires i <= |prompts|
    requires AllFetched(prompts, i, w, name)
    ensures VideoLoop(prompts, i, w, name).outcome.Continued?
    decreases |prompts| - i
  {
    if i < |prompts| {
      LoopAfterFetch(prompts, i, w, name);
      LoopPassesFetched(prompts, i + 1, w, name);
    }
  }

  /** When every video was downloaded but creating the output folder
      (line 124 of `app.py`) raises, that exception escapes the run. */
  lemma MakeDirsCrashEscapes(audioPath: string, modelName: string, w: World, lib: Stages)
    requires RunPrelude(audioPath, modelName, w, lib).outcome.Continued?
    requires var ps := RunPrelude(audioPath, modelName, w, lib).prompts;
      forall j :: 0 <= j < |ps| ==> VideoStep(ps, j, w, VideoOutputPath).end.Fetched?
    requires w.media.makeDirs(StitchedFolder).Raised?
    ensures Run(audioPath, modelName, w, lib).ending == Escaped(w.media.makeDirs(StitchedFolder).error)
  {
    var pre := RunPrelude(audioPath, modelName, w, lib);
    LoopPassesAll(pre.prompts, 0, w, VideoOutputPath);
  }

  /** A failing `os.makedirs` before the stitch leaves `done` false. */
  lemma MakeDirsCrashLeavesNotDone(prior: Status, audioPath: string, modelName: string, w: World, lib: Stages)
    requires RunPrelude(audioPath, modelName, w, lib).outcome.Continued?
    requires var ps := RunPrelude(audioPath, modelName, w, lib).prompts;
      forall j :: 0 <= j < |ps| ==> VideoStep(ps, j, w, VideoOutputPath).end.Fetched?
    requires w.media.makeDirs(StitchedFolder).Raised?
    ensures !FinalStatus(prior, audioPath, modelName, w, lib).done
  {
    MakeDirsCrashEscapes(audioPath, modelName, w, lib);
    EscapedTraceStatus(prior, Run(audioPath, modelName, w, lib));
  }

  /** A trace that finishes with `✅ Done!` after setting the video path and
      adding the final line leaves that path in the record. */
  lemma DoneTraceStatus(prior: Status, t: Trace, path: string)
    requires t.ending == Finished(DoneMessage)
    requires |t.log| >= 2 && t.log[|t.log| - 2] == SetVideoPath(path) && t.log[|t.log| - 1] == Append(FinalReady)
    ensures var s := Replay(prior, Mutations(t));
      s.done && s.message == DoneMessage && s.videoPath == path
  {
    var front := t.log[..|t.log| - 2];
    assert t.log == front + [SetVideoPath(path), Append(FinalReady)];
    VideoPathOfLastWrites(Started, front, path, FinalReady);
    AfterWrites(prior, t);
  }


  /** Once transcription and extraction succeed, the chorus link
      `/static/uploads/` + the clip's file name is written, and it stays in
      the log to the end of the run. */
  lemma ChorusLinkWritten(audioPath: string, modelName: string, w: World, lib: Stages)
    requires w.transcribe(audioPath).Ok? && lib.extract(audioPath).Ok?
    ensures var t := Run(audioPath, modelName, w, lib);
      |t.log| > ChorusLinkEntry
      && t.log[ChorusLinkEntry] == Put(ChorusAudioUrl(ChorusUrlPrefix + Basename(lib.extract(audioPath).value.path)))
  {
    var pre := RunPrelude(audioPath, modelName, w, lib);
    var t := Run(audioPath, modelName, w, lib);
    var link := Put(ChorusAudioUrl(ChorusUrlPrefix + Basename(pre.chorus.value.path)));
    assert t.log[ChorusLinkEntry] == link;
  }

  /** A prelude that goes on hands its prompts to the loop unchanged. */
  lemma PreludePrompts(audioPath: string, modelName: string, w: World, lib: Stages)
    requires RunPrelude(audioPath, modelName, w, lib).outcome.Continued?
    ensures Run(audioPath, modelName, w, lib).prompts == RunPrelude(audioPath, modelName, w, lib).prompts
  {
    var pre := RunPrelude(audioPath, modelName, w, lib);
    var loop := VideoLoop(pre.prompts, 0, w, VideoOutputPath);
    assert loop.outcome.Continued? ==> Run(audioPath, modelName, w, lib).prompts == pre.prompts;
  }

  /** A run with a single prompt makes a single Veo job, for that prompt. */
  lemma OnePromptOneJob(audioPath: string, modelName: string, w: World, lib: Stages)
    requires |Run(audioPath, modelName, w, lib).prompts| == 1
    ensures var t := Run(audioPath, modelName, w, lib);
      |t.jobs| == 1 && t.jobs[0].request.prompt == t.prompts[0]
  {
    var t := Run(audioPath, modelName, w, lib);
    RunPrompts(audioPath, modelName, w, lib);
    SubmittedAt(t.prompts, 0, t.jobs, w, 0);
  }

  // ---------------------------------------------------------------------
  // With the system's own stages

  /** The chorus link points at `/static/uploads/` + `chorus_clip_{stem}.wav`,
      where the stem is the song's file name up to its first dot. */
  lemma ChorusLink(audioPath: string, modelName: string, w: World)
    requires w.transcribe(audioPath).Ok?
    requires ChorusExtractor.Extract(audioPath, ChorusExtractor.DefaultOutputDir, w.detectChorus).Ok?
    ensures var t := Run(audioPath, modelName, w, Library(w));
      |t.log| > ChorusLinkEntry
      && t.log[ChorusLinkEntry] == Put(ChorusAudioUrl(ChorusUrlPrefix + ChorusExtractor.ClipFileName(audioPath)))
  {
    var clip := ChorusExtractor.Extract(audioPath, ChorusExtractor.DefaultOutputDir, w.detectChorus).value;
    assert Library(w).extract(audioPath) == Ok(clip);
    ChorusLinkWritten(audioPath, modelName, w, Library(w));
    ChorusExtractor.ClipName(audioPath, ChorusExtractor.DefaultOutputDir);
  }
  /** When the language model fails on Part 1, the run does not stop: the
      error line itself becomes the only prompt and is sent to Veo. */
  lemma Part1ErrorIsSentToVeo(audioPath: string, modelName: string, w: World)
    requires RunPrelude(audioPath, modelName, w, Library(w)).outcome.Continued?
    requires var p := RunPrelude(audioPath, modelName, w, Library(w));
      var lyrics := w.transcribe(audioPath).value;
      && EmotionAudio.Predict(p.chorus.value.path, w.music2emo).Ok?
      && w.detectLyricEmotion(lyrics).Ok?
      && var g := PromptGen.Generate(PromptGen.Mapping(Some(w.detectLyricEmotion(lyrics).value.name)),
                                     EmotionAudio.Predict(p.chorus.value.path, w.music2emo).value,
                                     lyrics, modelName, w.env, w.chat);
         g.Ok? && w.chat(g.value.client, g.value.requests[0]).Raised?
    ensures var p := RunPrelude(audioPath, modelName, w, Library(w));
      var lyrics := w.transcribe(audioPath).value;
      var g := PromptGen.Generate(PromptGen.Mapping(Some(w.detectLyricEmotion(lyrics).value.name)),
                                  EmotionAudio.Predict(p.chorus.value.path, w.music2emo).value,
                                  lyrics, modelName, w.env, w.chat).value;
      var t := Run(audioPath, modelName, w, Library(w));
      && |t.prompts| == 1 && |t.jobs| == 1
      && t.jobs[0].request.prompt == PromptGen.Part1ErrorPrefix + w.chat(g.client, g.requests[0]).error
  {
    var lib := Library(w);
    var pre := RunPrelude(audioPath, modelName, w, lib);
    var lyrics := w.transcribe(audioPath).value;
    var le := w.detectLyricEmotion(lyrics).value;
    var ae := EmotionAudio.Predict(pre.chorus.value.path, w.music2emo).value;
    assert lib.predict(pre.chorus.value.path) == EmotionAudio.Predict(pre.chorus.value.path, w.music2emo);
    assert lib.generate(lyrics, ae, le, modelName)
      == PromptGen.Generate(PromptGen.Mapping(Some(le.name)), ae, lyrics, modelName, w.env, w.chat);
    PromptGen.Part1FailureShape(PromptGen.Mapping(Some(le.name)), ae, lyrics, modelName, w.env, w.chat);
    PreludePrompts(audioPath, modelName, w, lib);
    OnePromptOneJob(audioPath, modelName, w, lib);
  }
}
