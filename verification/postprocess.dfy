/** `utils/postprocess.py`: attaching the chorus audio to one video
    (`stitch`) or to the concatenation of several (`stitch_multiple`).

    moviepy is a collaborator: opening a video or audio file gives its
    duration or raises, and concatenating, trimming the audio (`subclip`),
    attaching it (`set_audio`), creating the output folder, encoding and
    closing a clip may each raise. Each function catches every exception and
    then returns `""`.
 */
module Postprocess {
  import opened Results
  import opened PyText
  import opened PyPath

  const DefaultOutputFolder := "static/videos"
  const OutputSuffix := "_stitched.mp4"

  /** An open moviepy clip. */
  datatype Handle = VideoClip(path: string) | AudioClip(path: string) | FinalClip

  /** What is handed to the encoder: the output path, the videos in the order
      they are concatenated, their total duration, and the audio track cut
      from time 0 to `audioEnd`. */
  datatype Render = Render(output: string, videos: seq<string>, duration: real, audio: string, audioEnd: real)

  datatype Media = Media(
    videoDuration: string -> Result<real>,
    audioDuration: string -> Result<real>,
    concatenate: seq<string> -> Result<()>,
    trim: (string, real) -> Result<()>,
    attach: (seq<string>, string, real) -> Result<()>,
    makeDirs: string -> Result<()>,
    encode: Render -> Result<()>,
    close: Handle -> Result<()>)

  /** The returned path, the clips opened and closed, and the encoding
      attempted, if any. */
  datatype Report = Report(result: string, clipsOpened: seq<Handle>, closed: seq<Handle>, render: Option<Render>)

  function Min(a: real, b: real): real {
    if a <= b then a else b
  }

  /** `if audio.duration > video.duration: audio = audio.subclip(0, video.duration)`:
      the end of the attached audio, which starts at time 0. */
  function AudioEnd(audio: real, video: real): (e: real)
    ensures e == Min(audio, video)
    ensures e <= audio
  {
    if audio > video then video else audio
  }

  /** `"_".join(splitext(basename(p))[0] for p in paths)` */
  function JoinedStems(paths: seq<string>): (r: string)
    ensures Excludes(r, '/')
  {
    if paths == [] then ""
    else if |paths| == 1 then Stem(paths[0])
    else
      var init := JoinedStems(paths[..|paths| - 1]);
      ExcludesConcat(init, "_", '/');
      ExcludesConcat(init + "_", Stem(paths[|paths| - 1]), '/');
      init + "_" + Stem(paths[|paths| - 1])
  }

  function OutputPath(folder: string, base: string): (p: string)
    ensures |p| > 0
  {
    Join(folder, base + OutputSuffix)
  }

  function Total(durations: seq<real>): real {
    if durations == [] then 0.0 else Total(durations[..|durations| - 1]) + durations[|durations| - 1]
  }

  /** `[mp.VideoFileClip(p) for p in video_paths]`: the durations, or the
      clips opened before the first one that raised, and that exception. */
  datatype Loaded = Loaded(durations: seq<real>) | LoadFailed(loaded: seq<string>, error: string)

  function LoadVideos(paths: seq<string>, m: Media): (r: Loaded)
    ensures r.Loaded? ==>
      && |r.durations| == |paths|
      && forall i :: 0 <= i < |paths| ==> m.videoDuration(paths[i]) == Ok(r.durations[i])
    ensures r.LoadFailed? ==>
      && |r.loaded| < |paths|
      && r.loaded == paths[..|r.loaded|]
      && m.videoDuration(paths[|r.loaded|]) == Raised(r.error)
  {
    if paths == [] then Loaded([])
    else match LoadVideos(paths[..|paths| - 1], m)
      case LoadFailed(loaded, e) => LoadFailed(loaded, e)
      case Loaded(ds) =>
        match m.videoDuration(paths[|paths| - 1])
        case Raised(e) => LoadFailed(paths[..|paths| - 1], e)
        case Ok(d) => Loaded(ds + [d])
  }

  /** Loading stops at the first video that does not open: every earlier one
      opened. */
  lemma {:induction false} LoadStopsAtFirstFailure(paths: seq<string>, m: Media)
    requires LoadVideos(paths, m).LoadFailed?
    ensures var r := LoadVideos(paths, m);
      && (forall j :: 0 <= j < |r.loaded| ==> m.videoDuration(paths[j]).Ok?)
      && m.videoDuration(paths[|r.loaded|]).Raised?
    decreases |paths|
  {
    var init := paths[..|paths| - 1];
    match LoadVideos(init, m)
    case LoadFailed(_, _) =>
      LoadStopsAtFirstFailure(init, m);
    case Loaded(_) =>
  }

  function VideoHandles(paths: seq<string>): (hs: seq<Handle>)
    ensures |hs| == |paths| && forall i :: 0 <= i < |paths| ==> hs[i] == VideoClip(paths[i])
  {
    if paths == [] then [] else [VideoClip(paths[0])] + VideoHandles(paths[1..])
  }

  /** Every one of `hs` closes without raising. */
  predicate AllClose(hs: seq<Handle>, m: Media) {
    forall k :: 0 <= k < |hs| ==> m.close(hs[k]).Ok?
  }

  /** The clips closed, and the exception that stopped the closing, if any. */
  datatype Closing = Closing(closed: seq<Handle>, error: Option<string>)

  /** `clip.close()` for each handle in order: the first that raises stops
      the rest. */
  function CloseAll(hs: seq<Handle>, m: Media): (c: Closing)
    ensures c.error.None? <==> AllClose(hs, m)
    ensures c.error.None? ==> c.closed == hs
    ensures c.error.Some? ==>
      && |c.closed| < |hs| && c.closed == hs[..|c.closed|]
      && AllClose(c.closed, m)
      && m.close(hs[|c.closed|]) == Raised(c.error.value)
  {
    if hs == [] then Closing([], None)
    else match m.close(hs[0])
      case Raised(e) => Closing([], Some(e))
      case Ok(_) =>
        var rest := CloseAll(hs[1..], m);
        assert rest.error.Some? ==> [hs[0]] + rest.closed == hs[..|rest.closed| + 1];
        Closing([hs[0]] + rest.closed, rest.error)
  }

  /** Opening the audio, cutting it to the video when it is longer, and
      attaching it: the end of the attached audio, or the first exception. */
  function AttachAudio(videos: seq<string>, duration: real, audioPath: string, m: Media): (r: Result<real>)
    ensures r.Ok? <==>
      && m.audioDuration(audioPath).Ok?
      && (m.audioDuration(audioPath).value > duration ==> m.trim(audioPath, duration).Ok?)
      && m.attach(videos, audioPath, Min(m.audioDuration(audioPath).value, duration)).Ok?
    ensures r.Ok? ==> r.value == Min(m.audioDuration(audioPath).value, duration)
  {
    match m.audioDuration(audioPath)
    case Raised(e) => Raised(e)
    case Ok(a) =>
      match (if a > duration then m.trim(audioPath, duration) else Ok(()))
      case Raised(e) => Raised(e)
      case Ok(_) =>
        var end := AudioEnd(a, duration);
        match m.attach(videos, audioPath, end)
        case Raised(e) => Raised(e)
        case Ok(_) => Ok(end)
  }

  /** The part both functions share once the video is ready: open, trim and
      attach the audio, create the folder, encode, and close everything. */
  function Finish(videos: seq<string>, duration: real, audioPath: string, folder: string, base: string,
                  clips: seq<Handle>, m: Media): (r: Report)
    ensures r.result == "" || r.result == OutputPath(folder, base)
    ensures r.clipsOpened == if m.audioDuration(audioPath).Ok? then clips + [AudioClip(audioPath)] else clips
    ensures r.result != "" <==>
      && AttachAudio(videos, duration, audioPath, m).Ok?
      && m.makeDirs(folder).Ok?
      && r.render.Some? && m.encode(r.render.value).Ok?
      && AllClose(clips + [AudioClip(audioPath), FinalClip], m)
    ensures r.result != "" ==> r.closed == clips + [AudioClip(audioPath), FinalClip]
    ensures r.render.Some? && m.encode(r.render.value).Ok? ==>
      r.closed == CloseAll(clips + [AudioClip(audioPath), FinalClip], m).closed
    ensures !(r.render.Some? && m.encode(r.render.value).Ok?) ==> r.result == "" && r.closed == []
    ensures r.render.Some? ==>
      && m.audioDuration(audioPath).Ok?
      && r.render.value.videos == videos
      && r.render.value.duration == duration
      && r.render.value.audioEnd == Min(m.audioDuration(audioPath).value, duration)
      && r.render.value.output == OutputPath(folder, base)
  {
    match m.audioDuration(audioPath)
    case Raised(_) => Report("", clips, [], None)
    case Ok(_) =>
      var withAudio := clips + [AudioClip(audioPath)];
      match AttachAudio(videos, duration, audioPath, m)
      case Raised(_) => Report("", withAudio, [], None)
      case Ok(end) =>
        match m.makeDirs(folder)
        case Raised(_) => Report("", withAudio, [], None)
        case Ok(_) =>
          var render := Render(OutputPath(folder, base), videos, duration, audioPath, end);
          match m.encode(render)
          case Raised(_) => Report("", withAudio, [], Some(render))
          case Ok(_) =>
            assert withAudio + [FinalClip] == clips + [AudioClip(audioPath), FinalClip];
            var closing := CloseAll(withAudio + [FinalClip], m);
            Report(if closing.error.None? then render.output else "", withAudio, closing.closed, Some(render))
  }

  /** `stitch(video_path, audio_path, output_folder)`. */
  function Stitch(videoPath: string, audioPath: string, folder: string, m: Media): (r: Report)
    ensures r.result == "" || r.result == Join(folder, Stem(videoPath) + "_stitched.mp4")
    ensures r.result != "" <==>
      && m.videoDuration(videoPath).Ok?
      && AttachAudio([videoPath], m.videoDuration(videoPath).value, audioPath, m).Ok?
      && m.makeDirs(folder).Ok?
      && r.render.Some? && m.encode(r.render.value).Ok?
      && AllClose([VideoClip(videoPath), AudioClip(audioPath), FinalClip], m)
    ensures r.render.Some? && m.encode(r.render.value).Ok? ==>
      r.closed == CloseAll([VideoClip(videoPath), AudioClip(audioPath), FinalClip], m).closed
    ensures !(r.render.Some? && m.encode(r.render.value).Ok?) ==> r.result == "" && r.closed == []
    ensures r.render.Some? ==>
      && m.videoDuration(videoPath).Ok? && m.audioDuration(audioPath).Ok?
      && r.render.value.videos == [videoPath]
      && r.render.value.audioEnd == Min(m.audioDuration(audioPath).value, m.videoDuration(videoPath).value)
  {
    match m.videoDuration(videoPath)
    case Raised(_) => Report("", [], [], None)
    case Ok(d) =>
      assert [VideoClip(videoPath)] + [AudioClip(audioPath), FinalClip]
        == [VideoClip(videoPath), AudioClip(audioPath), FinalClip];
      Finish([videoPath], d, audioPath, folder, Stem(videoPath), [VideoClip(videoPath)], m)
  }

  /** `stitch_multiple(video_paths, audio_path, output_folder)`. */
  function StitchMultiple(videoPaths: seq<string>, audioPath: string, folder: string, m: Media): (r: Report)
    ensures r.result == "" || r.result == Join(folder, JoinedStems(videoPaths) + "_stitched.mp4")
    ensures r.result != "" <==>
      && LoadVideos(videoPaths, m).Loaded?
      && m.concatenate(videoPaths).Ok?
      && AttachAudio(videoPaths, Total(LoadVideos(videoPaths, m).durations), audioPath, m).Ok?
      && m.makeDirs(folder).Ok?
      && r.render.Some? && m.encode(r.render.value).Ok?
      && AllClose(VideoHandles(videoPaths) + [AudioClip(audioPath), FinalClip], m)
    ensures !(r.render.Some? && m.encode(r.render.value).Ok?) ==> r.result == "" && r.closed == []
    ensures r.render.Some? ==>
      && LoadVideos(videoPaths, m).Loaded? && m.audioDuration(audioPath).Ok?
      && r.render.value.videos == videoPaths
      && r.render.value.duration == Total(LoadVideos(videoPaths, m).durations)
      && r.render.value.audioEnd == Min(m.audioDuration(audioPath).value, r.render.value.duration)
  {
    match LoadVideos(videoPaths, m)
    case LoadFailed(loaded, _) => Report("", VideoHandles(loaded), [], None)
    case Loaded(ds) =>
      match m.concatenate(videoPaths)
      case Raised(_) => Report("", VideoHandles(videoPaths), [], None)
      case Ok(_) =>
        Finish(videoPaths, Total(ds), audioPath, folder, JoinedStems(videoPaths), VideoHandles(videoPaths), m)
  }

  /** After encoding, the clips are closed in the order they were opened:
      the videos, the audio and the final clip. On success all of them are;
      a `close()` that raises stops the rest. */
  lemma StitchMultipleCloses(videoPaths: seq<string>, audioPath: string, folder: string, m: Media)
    ensures var r := StitchMultiple(videoPaths, audioPath, folder, m);
      r.render.Some? && m.encode(r.render.value).Ok? ==>
        r.closed == CloseAll(VideoHandles(videoPaths) + [AudioClip(audioPath), FinalClip], m).closed
    ensures var r := StitchMultiple(videoPaths, audioPath, folder, m);
      r.result != "" ==> r.closed == VideoHandles(videoPaths) + [AudioClip(audioPath), FinalClip]
  {
  }

  /** A `close()` that raises after a successful encoding still makes the
      result `""`: the clips before it are closed and the rest are not. */
  lemma CloseFailureEmpties(videoPaths: seq<string>, audioPath: string, folder: string, m: Media)
    requires var r := StitchMultiple(videoPaths, audioPath, folder, m);
      r.render.Some? && m.encode(r.render.value).Ok?
    requires !AllClose(VideoHandles(videoPaths) + [AudioClip(audioPath), FinalClip], m)
    ensures var r := StitchMultiple(videoPaths, audioPath, folder, m);
      var hs := VideoHandles(videoPaths) + [AudioClip(audioPath), FinalClip];
      && r.result == ""
      && |r.closed| < |hs| && r.closed == hs[..|r.closed|]
      && AllClose(r.closed, m)
      && m.close(hs[|r.closed|]).Raised?
  {
    StitchMultipleCloses(videoPaths, audioPath, folder, m);
  }

  /** The returned path is empty exactly on failure: every success path ends
      in `_stitched.mp4`. */
  lemma SuccessIsNonEmpty(videoPaths: seq<string>, audioPath: string, folder: string, m: Media)
    ensures var r := StitchMultiple(videoPaths, audioPath, folder, m);
      r.result != "" ==> IsSuffix("_stitched.mp4", r.result)
  {
    JoinedOutputSuffix(folder, JoinedStems(videoPaths));
  }

  lemma JoinedOutputSuffix(folder: string, base: string)
    ensures IsSuffix("_stitched.mp4", Join(folder, base + "_stitched.mp4"))
  {
    var r := Join(folder, base + "_stitched.mp4");
    var b := base + "_stitched.mp4";
    assert r[|r| - |b|..] == b;
    assert r[|r| - 13..] == b[|b| - 13..] == "_stitched.mp4";
  }

  /** An output path's file name is the base followed by `_stitched.mp4`. */
  lemma {:induction false} OutputPathName(folder: string, base: string)
    requires Excludes(base, '/')
    ensures Basename(OutputPath(folder, base)) == base + "_stitched.mp4"
  {
    assert Excludes(OutputSuffix, '/') by {
      forall k | 0 <= k < |OutputSuffix| ensures OutputSuffix[k] != '/' {
        assert OutputSuffix[k] in "_stitched.mp4";
      }
    }
    ExcludesConcat(base, OutputSuffix, '/');
    BasenameOfJoin(folder, base + OutputSuffix);
  }

  /** The output file is named after the inputs: its basename is the stems
      joined by `_`, then `_stitched.mp4`. */
  lemma OutputName(videoPaths: seq<string>, audioPath: string, folder: string, m: Media)
    requires StitchMultiple(videoPaths, audioPath, folder, m).result != ""
    ensures Basename(StitchMultiple(videoPaths, audioPath, folder, m).result)
      == JoinedStems(videoPaths) + "_stitched.mp4"
  {
    OutputPathName(folder, JoinedStems(videoPaths));
  }

  /** The stems appear in input order: the name for `ps + [p]` is the name
      for `ps`, an underscore, and `p`'s stem. */
  lemma JoinedStemsAppend(ps: seq<string>, p: string)
    requires ps != []
    ensures JoinedStems(ps + [p]) == JoinedStems(ps) + "_" + Stem(p)
  {
    assert (ps + [p])[..|ps|] == ps;
  }

  /** The audio is never lengthened and never outlasts the video: the
      attached track is the audio cut at the shorter of the two durations. */
  lemma AudioFitsVideo(videoPaths: seq<string>, audioPath: string, folder: string, m: Media)
    requires StitchMultiple(videoPaths, audioPath, folder, m).render.Some?
    ensures var rd := StitchMultiple(videoPaths, audioPath, folder, m).render.value;
      && rd.audioEnd <= rd.duration
      && rd.audioEnd <= m.audioDuration(audioPath).value
      && (rd.audioEnd == rd.duration || rd.audioEnd == m.audioDuration(audioPath).value)
  {
  }
}
