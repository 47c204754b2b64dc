/** `utils/chorus_extractor.py`: where the chorus clip is written and which
    time span is reported for it. The chorus detector (pychorus'
    `find_and_output_chorus`) is a collaborator: given the request it either
    reports the chorus start time, reports that no chorus was found (`None`),
    or raises.
 */
module ChorusExtractor {
  import opened Results
  import opened PyText
  import opened PyPath

  const DefaultOutputDir := "static/uploads"
  /** Length of the clip the detector is asked to write. */
  const RequestedClipLength: nat := 16
  /** Length the reported time span assumes, which is not the requested one. */
  const AssumedSpan: real := 8.0

  datatype DetectRequest = DetectRequest(inputFile: string, outputFile: string, clipLength: nat)

  /** The value `extract` returns: `(output_chorus_path, (start, end))`. */
  datatype Clip = Clip(path: string, start: real, end: real)

  type Detector = DetectRequest -> Result<Option<real>>

  /** The text a song's file name contributes to the clip name. */
  function SongStem(audioPath: string): string {
    BeforeFirstDot(Basename(audioPath))
  }

  /** `f"chorus_clip_{stem}.wav"`: the file name of the clip. */
  function ClipFileName(audioPath: string): string {
    "chorus_clip_" + SongStem(audioPath) + ".wav"
  }

  /** The detector request `extract` issues. */
  function RequestFor(audioPath: string, outputDir: string): (q: DetectRequest)
    ensures q.inputFile == audioPath && q.clipLength == 16
    ensures IsSuffix(ClipFileName(audioPath), q.outputFile)
  {
    DetectRequest(audioPath, Join(outputDir, ClipFileName(audioPath)), RequestedClipLength)
  }

  /** `extract(audio_path, output_dir)`. A detector that finds no chorus
      returns `None`, and `None + 8` raises a `TypeError`. */
  function Extract(audioPath: string, outputDir: string, detect: Detector): (r: Result<Clip>)
    ensures var found := detect(RequestFor(audioPath, outputDir));
      r.Ok? <==> found.Ok? && found.value.Some?
    ensures r.Ok? ==> r.value.path == RequestFor(audioPath, outputDir).outputFile
    ensures r.Ok? ==> r.value.start == detect(RequestFor(audioPath, outputDir)).value.value
    ensures r.Ok? ==> r.value.end - r.value.start == 8.0
  {
    var request := RequestFor(audioPath, outputDir);
    match detect(request)
    case Raised(e) => Raised(e)
    case Ok(None) => Raised("unsupported operand type(s) for +: 'NoneType' and 'int'")
    case Ok(Some(start)) => Ok(Clip(request.outputFile, start, start + AssumedSpan))
  }

  /** The clip's file name is `chorus_clip_{stem}.wav`, where the stem is the
      song's file name up to its first dot: no directory part and no dot. */
  lemma ClipName(audioPath: string, outputDir: string)
    ensures Basename(RequestFor(audioPath, outputDir).outputFile) == ClipFileName(audioPath)
    ensures Excludes(SongStem(audioPath), '/') && Excludes(SongStem(audioPath), '.')
    ensures IsPrefix(SongStem(audioPath), Basename(audioPath))
  {
    var stem := SongStem(audioPath);
    var name := ClipFileName(audioPath);
    PrefixExcludes(stem, Basename(audioPath), '/');
    ExcludesConcat("chorus_clip_", stem, '/');
    ExcludesConcat("chorus_clip_" + stem, ".wav", '/');
    BasenameOfJoin(outputDir, name);
  }

  /** In the default directory the clip lands at
      `static/uploads/chorus_clip_{stem}.wav`. */
  lemma DefaultClipPath(audioPath: string)
    ensures RequestFor(audioPath, DefaultOutputDir).outputFile == DefaultOutputDir + "/" + ClipFileName(audioPath)
  {
    var name := ClipFileName(audioPath);
    assert name[0] == 'c';
  }

  /** A song at `dir/stem.rest` gives the stem `stem` whenever the stem has no
      dot and `rest` no slash: `music/my.song.mp3` gives `my`. */
  lemma SongStemOfDotted(dir: string, stem: string, rest: string)
    requires Excludes(stem, '.') && Excludes(stem, '/') && Excludes(rest, '/')
    ensures SongStem(dir + "/" + stem + "." + rest) == stem
  {
    var name := stem + "." + rest;
    ExcludesConcat(stem, ".", '/');
    ExcludesConcat(stem + ".", rest, '/');
    assert name[0] != '/' by {
      if |stem| > 0 { assert name[0] == stem[0]; }
    }
    assert Join(dir + "/", name) == dir + "/" + name;
    BasenameOfJoin(dir + "/", name);
    assert dir + "/" + stem + "." + rest == dir + "/" + name;
    BeforeFirstDotOfDotted(stem, rest);
  }
}
