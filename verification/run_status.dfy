/** The progress record of `app.py` (`PROCESS_STATUS`), which the `/status`
    route returns as it is, and the ways `process_audio` changes it.

    Log entries are kept as the facts they report; the text around them is
    fixed by `app.py`.
 */
module RunStatus {
  import opened Results
  import EmotionAudio

  const StartingMessage := "Starting…"

  /** The dictionary the lyric-emotion classifier returns, by the two entries
      the pipeline reads. */
  datatype LyricEmotion = LyricEmotion(name: string, confidence: real)

  /** One line of `status_updates`. Video numbers count from 1. */
  datatype Update =
    | UsingModel(model: string)
    | Transcribed(words: nat)
    | ChorusSpan(start: real, end: real)
    | AudioEmotionOk
    | LyricEmotionIs(name: string, confidence: real)
    | GeneratedPrompts(count: nat)
    | VideoFailed(number: nat, error: string)
    | VideoReady(number: nat, operationId: string)
    | Downloaded(number: nat, path: string)
    | DownloadFailed(number: nat, error: string)
    | InvalidUri(number: nat)
    | FinalReady

  /** `PROCESS_STATUS["data"]`: the entries a run has stored so far. */
  datatype Data = Data(
    lyrics: Option<string>,
    chorusAudioUrl: Option<string>,
    audioEmotions: Option<EmotionAudio.AudioEmotion>,
    lyricEmotions: Option<LyricEmotion>,
    prompts: Option<seq<string>>)

  /** One assignment into `data`. */
  datatype Entry =
    | Lyrics(text: string)
    | ChorusAudioUrl(url: string)
    | AudioEmotions(result: EmotionAudio.AudioEmotion)
    | LyricEmotions(emotion: LyricEmotion)
    | Prompts(prompts: seq<string>)

  datatype Status = Status(message: string, done: bool, videoPath: string, data: Data, updates: seq<Update>)

  /** A write that neither resets the record nor ends the run. */
  datatype Effect =
    | SetMessage(message: string)
    | Put(entry: Entry)
    | Append(update: Update)
    | SetVideoPath(path: string)

  /** A statement of `process_audio` that writes the record. */
  datatype Mutation =
    | Reset
    | Write(effect: Effect)
    | Finish(message: string)

  const NoData := Data(None, None, None, None, None)
  const Started := Status(StartingMessage, false, "", NoData, [])

  /** `data[key] = value`: the one entry is set, the others are kept. */
  function Store(d: Data, e: Entry): (r: Data)
    ensures r.lyrics == if e.Lyrics? then Some(e.text) else d.lyrics
    ensures r.chorusAudioUrl == if e.ChorusAudioUrl? then Some(e.url) else d.chorusAudioUrl
    ensures r.audioEmotions == if e.AudioEmotions? then Some(e.result) else d.audioEmotions
    ensures r.lyricEmotions == if e.LyricEmotions? then Some(e.emotion) else d.lyricEmotions
    ensures r.prompts == if e.Prompts? then Some(e.prompts) else d.prompts
  {
    match e
    case Lyrics(t) => d.(lyrics := Some(t))
    case ChorusAudioUrl(u) => d.(chorusAudioUrl := Some(u))
    case AudioEmotions(a) => d.(audioEmotions := Some(a))
    case LyricEmotions(l) => d.(lyricEmotions := Some(l))
    case Prompts(ps) => d.(prompts := Some(ps))
  }

  /** One write: it changes the field it is about and keeps the others. */
  function Perform(s: Status, e: Effect): (r: Status)
    ensures s.updates <= r.updates
    ensures r.updates == if e.Append? then s.updates + [e.update] else s.updates
    ensures r.data == if e.Put? then Store(s.data, e.entry) else s.data
    ensures r.done == s.done
    ensures e.SetMessage? ==> r.message == e.message
    ensures !e.SetMessage? ==> r.message == s.message
    ensures e.SetVideoPath? ==> r.videoPath == e.path
    ensures !e.SetVideoPath? ==> r.videoPath == s.videoPath
  {
    match e
    case SetMessage(msg) => s.(message := msg)
    case Put(entry) => s.(data := Store(s.data, entry))
    case Append(u) => s.(updates := s.updates + [u])
    case SetVideoPath(p) => s.(videoPath := p)
  }

  /** The effect of one statement. Only `Reset` empties the log; only
      `Finish` sets `done`. */
  function Apply(s: Status, m: Mutation): (r: Status)
    ensures m.Reset? ==> r == Started
    ensures !m.Reset? ==> s.updates <= r.updates
    ensures r.done <==> m.Finish? || (s.done && !m.Reset?)
    ensures m.Finish? ==> r.message == m.message && r.videoPath == s.videoPath
  {
    match m
    case Reset => Started
    case Write(e) => Perform(s, e)
    case Finish(msg) => s.(message := msg, done := true)
  }

  /** The statements that perform `es` in order. */
  function Writes(es: seq<Effect>): (ms: seq<Mutation>)
    ensures |ms| == |es|
    ensures forall k :: 0 <= k < |es| ==> ms[k] == Write(es[k])
  {
    if es == [] then [] else [Write(es[0])] + Writes(es[1..])
  }

  /** The record after running the statements in order. */
  function Replay(s: Status, ms: seq<Mutation>): Status
    decreases |ms|
  {
    if ms == [] then s else Replay(Apply(s, ms[0]), ms[1..])
  }

  lemma {:induction false} ReplayConcat(s: Status, a: seq<Mutation>, b: seq<Mutation>)
    ensures Replay(s, a + b) == Replay(Replay(s, a), b)
    decreases |a|
  {
    if a == [] {
      assert a + b == b;
    } else {
      assert (a + b)[0] == a[0] && (a + b)[1..] == a[1..] + b;
      ReplayConcat(Apply(s, a[0]), a[1..], b);
    }
  }

  lemma {:induction false} WritesConcat(a: seq<Effect>, b: seq<Effect>)
    ensures Writes(a + b) == Writes(a) + Writes(b)
    decreases |a|
  {
    if a != [] {
      assert (a + b)[0] == a[0] && (a + b)[1..] == a[1..] + b;
      WritesConcat(a[1..], b);
    } else {
      assert a + b == b;
    }
  }

  /** A run of writes that ends by setting the video path and then adding a
      line leaves that video path in the record. */
  lemma {:induction false} VideoPathOfLastWrites(s: Status, es: seq<Effect>, path: string, u: Update)
    ensures Replay(s, Writes(es + [SetVideoPath(path), Append(u)])).videoPath == path
  {
    var tail := [SetVideoPath(path), Append(u)];
    WritesConcat(es, tail);
    ReplayConcat(s, Writes(es), Writes(tail));
    var mid := Replay(s, Writes(es));
    assert Writes(tail) == [Write(SetVideoPath(path)), Write(Append(u))];
    assert Writes(tail)[1..] == [Write(Append(u))];
    var withPath := Perform(mid, SetVideoPath(path));
    assert Replay(mid, Writes(tail)) == Replay(withPath, [Write(Append(u))]);
    assert [Write(Append(u))][1..] == [];
    assert Replay(withPath, [Write(Append(u))]) == Perform(withPath, Append(u));
  }

  /** Writes keep `done` as it was and only ever add to the log. */
  lemma {:induction false} ReplayWrites(s: Status, es: seq<Effect>)
    ensures Replay(s, Writes(es)).done == s.done
    ensures s.updates <= Replay(s, Writes(es)).updates
    decreases |es|
  {
    if es != [] {
      assert Writes(es)[1..] == Writes(es[1..]);
      ReplayWrites(Perform(s, es[0]), es[1..]);
    }
  }

  /** Without a `Reset`, the statements only add lines after the existing log. */
  lemma {:induction false} LogGrows(s: Status, ms: seq<Mutation>)
    requires forall j :: 0 <= j < |ms| ==> !ms[j].Reset?
    ensures s.updates <= Replay(s, ms).updates
    decreases |ms|
  {
    if ms != [] {
      assert !ms[0].Reset?;
      LogGrows(Apply(s, ms[0]), ms[1..]);
    }
  }

  /** The log a reader sees never loses a line while no `Reset` runs: every
      earlier view is a prefix of every later one. */
  lemma LogOnlyGrows(s: Status, ms: seq<Mutation>, k: nat)
    requires k <= |ms|
    requires forall j :: 0 <= j < |ms| ==> !ms[j].Reset?
    ensures Replay(s, ms[..k]).updates <= Replay(s, ms).updates
  {
    assert ms == ms[..k] + ms[k..];
    ReplayConcat(s, ms[..k], ms[k..]);
    LogGrows(Replay(s, ms[..k]), ms[k..]);
  }
}
