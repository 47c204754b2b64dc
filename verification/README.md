# video-generator, modelled in Dafny

The system turns an uploaded song into a short music video. `process_audio`
in `app.py` runs the song through a fixed sequence of stages:

1. transcribe the lyrics;
2. extract the chorus (`utils/chorus_extractor.py`);
3. detect the chorus' mood with the music2emo service (`utils/emotion_audio.py`);
4. detect the lyrics' emotion;
5. have a language model write a two-part storyboard (`utils/prompt_gen.py`);
6. submit one Veo video job per storyboard part and poll it until it finishes
   (`utils/video_gen.py`);
7. download each video from Cloud Storage;
8. stitch the videos together under the chorus audio (`utils/postprocess.py`).

Along the way it reports progress in a global status record, which the web
page polls.

This project models that core as pure functions over immutable data. Every
outside call is a parameter that returns either a value or an exception
(`Results.Result`):

- Whisper and the lyric-emotion classifier;
- the chorus detector;
- the music2emo, chat-completion and Veo services;
- Cloud Storage;
- moviepy.

The parameters are collected in `Pipeline.World`. `Pipeline.Run` is defined
for any binding of the system's own stages (`Pipeline.Stages`).
`Pipeline.Library` binds them to this model's `ChorusExtractor.Extract`,
`EmotionAudio.Predict`, `PromptGen.Generate` and `Postprocess.StitchMultiple`.
The lemmas in the "With the system's own stages" section of `pipeline.dfy`
state facts about that binding.

Modules, one per source file, plus three of Python's own:

| file | module | models |
|---|---|---|
| `results.dfy` | `Results` | `Option` and value-or-exception `Result` |
| `pytext.dfy` | `PyText` | `str.strip`, `rstrip(c)`, `lower`, `split` word count, `str(n)` for naturals |
| `pypath.dfy` | `PyPath` | POSIX `os.path.basename`, `join`, `splitext`, `split('.')[0]` |
| `chorus.dfy` | `ChorusExtractor` | `utils/chorus_extractor.py` |
| `emotion_audio.dfy` | `EmotionAudio` | parsing in `utils/emotion_audio.py` |
| `prompt_gen.dfy` | `PromptGen` | `utils/prompt_gen.py` |
| `video_gen.dfy` | `VideoGen` | `utils/video_gen.py` |
| `postprocess.dfy` | `Postprocess` | `utils/postprocess.py` |
| `run_status.dfy` | `RunStatus` | `PROCESS_STATUS` and the statements that write it |
| `pipeline.dfy` | `Pipeline` | `process_audio` in `app.py` |

How a run ends is explicit in the model. `process_audio` catches no
exception from a stage: an exception ends the run with `done` still false
(`Pipeline.Ending.Escaped`). Three handled failures and the normal end finish
the run (`Finished(message)`). An exception is represented by its text `str(e)`, the form in which the program logs the exceptions it catches.

## Model

| member | source | states |
|---|---|---|
| ChorusExtractor.RequestFor | utils/chorus_extractor.py:16-26 | The detector is asked to read the song itself and to write a 16-second clip to a path ending in `chorus_clip_{stem}.wav`. |
| ChorusExtractor.Extract | utils/chorus_extractor.py:4-29 | Succeeds exactly when the detector reports a start time. The returned path is the one the detector was told to write, the start is the detector's, and the end is 8 after the start even though 16 was requested. A detector that finds nothing makes `None + 8` raise. |
| ChorusExtractor.ClipName | utils/chorus_extractor.py:16-19 | The clip's file name is exactly `chorus_clip_{stem}.wav`. The stem has no `/` and no `.`, and it is the start of the song's file name, so no directory part of the song path leaks into it. |
| ChorusExtractor.DefaultClipPath | utils/chorus_extractor.py:4-19 | With the default directory the clip is written to `static/uploads/chorus_clip_{stem}.wav`. |
| ChorusExtractor.SongStemOfDotted | utils/chorus_extractor.py:18 | The stem is the file name up to its first dot: `dir/my.song.mp3` gives `my`. |
| EmotionAudio.FirstMatch | utils/emotion_audio.py:13 | Leftmost match, as `re.search` reports it: the position matches, and no earlier position in the range does. None means no position matches. |
| EmotionAudio.MoodAt | utils/emotion_audio.py:13 | At a position, the mood group is at least one character long, lies right after `Predicted Mood Tags: `, and runs up to the first heart after its first character. It is absent only if no heart follows that first character. |
| EmotionAudio.MoodSectionAbsent | utils/emotion_audio.py:13-14 | The mood section is missing exactly when no occurrence of the prefix is followed by a heart after one more character. |
| EmotionAudio.TagAt | utils/emotion_audio.py:17 | A tag match at `p` starts at `p` and ends with `)`. Its name is a non-empty run of name characters, and its score a non-empty run of digits and dots. |
| EmotionAudio.FindTags | utils/emotion_audio.py:17 | `re.findall` gives real matches of the tag pattern, left to right and not overlapping. |
| EmotionAudio.TagAtSpells | utils/emotion_audio.py:17 | A match is the text itself: the name is the longest run of name characters from `p`, then whitespace, then `(`, the score and `)`, each at its place in the text. |
| EmotionAudio.TagAtFromShape | utils/emotion_audio.py:17 | Wherever the pattern can match with some name, whitespace and number, the longest runs match as well, with that same number. Backtracking finds nothing the greedy scan misses. |
| EmotionAudio.TagAtComplete | utils/emotion_audio.py:17 | The scan finds a match at a position exactly when the pattern matches there in some way. |
| EmotionAudio.FindTagsComplete | utils/emotion_audio.py:17 | `re.findall` misses nothing: every position where the pattern matches lies inside a reported match. |
| EmotionAudio.ParseFloatAccepts | utils/emotion_audio.py:18 | `float()` of a digits-and-dots lexeme succeeds exactly when the lexeme has at most one dot and at least one digit. |
| EmotionAudio.ParseFloatOfDecimalText | utils/emotion_audio.py:18 | `float(str(n)) == n` for every natural `n`. |
| EmotionAudio.ParseFloatRejects | utils/emotion_audio.py:17-18 | `.` and `1.2.3` pass the `[\d.]+` pattern but are rejected by `float()`. |
| EmotionAudio.ConvertTags | utils/emotion_audio.py:18 | The tag list succeeds exactly when every score parses. It keeps the matches' order and count as (stripped name, score) pairs. Otherwise it raises the error of a score that `float()` rejects. |
| EmotionAudio.ConvertTagsFirstError | utils/emotion_audio.py:18 | The exception is the one for the first score `float()` rejects: every earlier score parsed, as the list comprehension stops there. |
| EmotionAudio.GroupTags | utils/emotion_audio.py:16-18 | Reading the tags of a mood group raises exactly when some matched score is not a number `float()` accepts. Otherwise the tags are, in order, the stripped name and the parsed score of each `re.findall` match in the group without surrounding whitespace and trailing commas. |
| EmotionAudio.LabelAt | utils/emotion_audio.py:21-22 | A valence or arousal match is the key, optional whitespace, then the maximal run of digits and dots. |
| EmotionAudio.LabelLexeme | utils/emotion_audio.py:21-22 | The lexeme is that of the leftmost position where the key pattern matches, as `re.search` reports it. None means the pattern matches nowhere. |
| EmotionAudio.LabelAbsent | utils/emotion_audio.py:21-25 | No lexeme is found exactly when no occurrence of the key is followed, after whitespace, by a digit or a dot. |
| EmotionAudio.OptionalFloat | utils/emotion_audio.py:24-25 | A missing match gives `None`. A present match gives `float()` of its lexeme, or raises when `float()` rejects it. |
| EmotionAudio.Parse | utils/emotion_audio.py:13-31 | Raises exactly when a tag score, the valence or the arousal does not parse. The tags are those of the mood group, and none without a mood section. Valence and arousal are `float()` of their lexemes, or `None` when their pattern is absent. `raw_text` is the stripped reply. |
| EmotionAudio.Predict | utils/emotion_audio.py:4-31 | The space `amaai-lab/music2emo` is called once with threshold 0.5 and `/analyze_emotions`. An exception from the call propagates unchanged; otherwise the reply is parsed. |
| PromptGen.Selected | utils/prompt_gen.py:27-32 | Gemini is chosen exactly when the lower-cased name is `gemini-1.5-flash`, and OpenAI exactly when it is `gpt4o`. |
| PromptGen.SelectorIgnoresCase | utils/prompt_gen.py:27-32 | Two names that differ only in letter case select the same backend. |
| PromptGen.EmotionText | utils/prompt_gen.py:52-55 | A string is used as it is. A dictionary gives its `label` entry, or `emotionally expressive` if it has none. |
| PromptGen.Generate | utils/prompt_gen.py:7-100 | Raises exactly when the model name is unsupported (before any call) or its API key is missing or empty, with the source's two messages. Otherwise: the client uses the selected key; every request carries the request model (`gpt-4o` on the OpenAI path) and temperature 0.8; the result has one or two parts, each the stripped reply or the error line for that part; the first request embeds the lyrics and both emotions; there is one part exactly when Part 1 fails; Part 2's request embeds Part 1's text. |
| PromptGen.Part1FailureShape | utils/prompt_gen.py:68-76 | When Part 1 fails, the result is the single `❌ Error generating Part 1: …` line, and Part 2 is never requested. |
| PromptGen.FullSuccessShape | utils/prompt_gen.py:78-100 | When both calls succeed, the result is the two stripped replies, and Part 2's request carries Part 1's text. |
| VideoGen.Await | utils/video_gen.py:36-40 | A readable operation that ends the loop is done or has reached the 600 cut-off. An operation already done is never re-polled. |
| VideoGen.Classify | utils/video_gen.py:42-52 | Success exactly when the operation has a response with a video; it then carries the first video's URI and the operation name. Without a response the job fails with the error, or with `Unknown error` if there is none. A response without videos raises. |
| VideoGen.VideoJob | utils/video_gen.py:19-52 | The request goes to the Veo model with the prompt, the aspect ratio and the bucket from the environment. A failed submission raises with no re-poll. An operation already done at submission is never re-polled and is classified at once. |
| VideoGen.GenerateVideo | utils/video_gen.py:19-52 | The imperative loop computes the same job as `VideoJob` and re-polls at most 40 times, however slow each re-poll is. |
| VideoGen.Clock | utils/video_gen.py:36-40 | Before re-poll `j` the clock has advanced at least 15 per earlier re-poll. |
| VideoGen.AwaitStopsAtFirstExit | utils/video_gen.py:36-40 | The loop re-polls exactly while the last observation is readable, not done and before 600. It stops at the first observation that is not, and reports that observation and that clock. |
| VideoGen.RepollBound | utils/video_gen.py:36-40 | Because each iteration advances the clock by at least 15, there are at most 40 re-polls. |
| VideoGen.DoneAfterNotDone | utils/video_gen.py:36-47 | A job that is not done `m` times and then done (instant re-polls, `m <= 40`) is re-polled exactly `m` times and classified from the done observation. |
| VideoGen.NeverDoneTimesOut | utils/video_gen.py:36-52 | A job that never finishes, with instant re-polls (each re-poll adds only the 15-second sleep) and no response in its last observation, is re-polled exactly 40 times, stops at clock 600, and is reported as a failure, so a timeout is not a distinct outcome. With slower re-polls `RepollBound` still caps the re-polls at 40. |
| Postprocess.AudioEnd | utils/postprocess.py:21-25 | The attached audio runs from 0 to the shorter of the two durations and is never lengthened. |
| Postprocess.JoinedStems | utils/postprocess.py:78 | The joined stems contain no `/`. |
| Postprocess.JoinedStemsAppend | utils/postprocess.py:78 | Stems are joined by `_` in input order. |
| Postprocess.LoadVideos | utils/postprocess.py:64 | Either every video opens, with its duration in order, or the clips before the first failure are open and that failure is the error. |
| Postprocess.LoadStopsAtFirstFailure | utils/postprocess.py:64 | When loading fails, every video before the failing one opened, and the failing one is the first that did not. |
| Postprocess.CloseAll | utils/postprocess.py:89-93 | Clips are closed in order. Either every `close()` succeeds and all are closed, or the clips before the first raising `close()` are closed and that exception stops the rest. |
| Postprocess.AttachAudio | utils/postprocess.py:69-75 | The audio is attached exactly when it opens, its `subclip` succeeds whenever it outlasts the video, and `set_audio` succeeds. The attached audio ends at the shorter of the two durations. |
| Postprocess.Finish | utils/postprocess.py:69-95 | The result is `""` or the output path. It is non-empty exactly when the audio is attached, the folder is created, encoding succeeds and every clip, the final one included, closes. The clips are closed only after a successful encoding, and then as `CloseAll` closes them. The render trims the audio to the shorter duration. |
| Postprocess.Stitch | utils/postprocess.py:5-47 | Returns `""` or `folder/{stem}_stitched.mp4`. The result is non-empty exactly when every moviepy step inside the `try` succeeds: opening, `subclip`, `set_audio`, `makedirs`, encoding and the three `close()` calls. Nothing is closed unless encoding succeeded; after it the video, the audio and the final clip are closed in order until one raises. The audio is cut at the shorter duration. |
| Postprocess.StitchMultiple | utils/postprocess.py:50-99 | Returns `""` or `folder/{stems joined by _}_stitched.mp4`. The result is non-empty exactly when every step inside the `try` succeeds: loading, concatenation, attaching the audio, `makedirs`, encoding and every `close()`. No clip is closed unless encoding succeeded. The videos are rendered in list order with their total duration, and the audio is cut at the shorter of the two. |
| Postprocess.StitchMultipleCloses | utils/postprocess.py:89-95 | After a successful encoding the clips are closed in order (the videos, the audio, the final clip) until one raises. On success all of them are closed. |
| Postprocess.CloseFailureEmpties | utils/postprocess.py:89-99 | A `close()` that raises after a successful encoding still makes the result `""`. The clips before it are closed and the rest are not. |
| Postprocess.SuccessIsNonEmpty | utils/postprocess.py:95-99 | Every successful result ends in `_stitched.mp4`, so `""` signals failure unambiguously. |
| Postprocess.OutputPathName | utils/postprocess.py:78-79 | The output file's name is the base followed by `_stitched.mp4`. |
| Postprocess.OutputName | utils/postprocess.py:78-79 | The stitched file is named after the input stems joined by `_`. |
| Postprocess.AudioFitsVideo | utils/postprocess.py:71-75 | The attached audio never outlasts the video or the audio file, and it ends at one of the two. |
| PyPath.SplitExtOfDotted | utils/postprocess.py:28 | `splitext` takes `stem.ext` apart into the stem and `.ext` whenever the extension has no dot or slash. |
| PyText.StripShape | utils/emotion_audio.py:16 | `strip()` removes only surrounding whitespace: the input is whitespace, the result, whitespace, and the result neither starts nor ends with whitespace. |
| PyText.WordCount | app.py:53 | The word count of the lyrics is at most their length, and 0 for blank lyrics. |
| PyText.DecimalText | app.py:101 | `str(i)` of a video index is a non-empty run of digits without a leading zero. |
| PyText.DecimalRoundTrip | app.py:101 | Reading back the decimal text of a video index gives the index. |
| PyText.DecimalInjective | app.py:101 | Different video indices have different decimal texts. |
| RunStatus.Store | app.py:52-83 | Storing an entry sets that one entry of `data` and keeps every other entry. |
| RunStatus.Perform | app.py:47-133 | A write inside a run appends its line to the log only when it is a log line. It stores its entry in `data`, sets the message or sets the video path only when that is its target, and keeps everything else, `done` included. |
| RunStatus.Apply | app.py:39-138 | Only the reset empties the record, back to `Starting…` with `done` false, no video path and no data. Only the finishing update sets `done`. |
| RunStatus.ReplayWrites | app.py:47-133 | Any sequence of writes keeps `done` and only extends the log. |
| RunStatus.VideoPathOfLastWrites | app.py:132-133 | Setting the video path and then adding a line leaves that video path. |
| RunStatus.LogOnlyGrows | app.py:47-133 | Without a reset, every earlier view of the log is a prefix of every later one. |
| Pipeline.SplitBucket | app.py:104 | Splitting a `gs://` remainder succeeds exactly when it contains `/`. The bucket is the text up to the first `/` and the blob is the rest. With no `/` the unpacking raises. |
| Pipeline.SplitBucketRoundTrip | app.py:104 | Splitting `bucket/blob` gives back that bucket and blob. |
| Pipeline.VideoOutputName | app.py:100-101 | A downloaded file is named `{i}_{basename(uri)}`. |
| Pipeline.VideoOutputPathsDistinct | app.py:100-101 | Two jobs with different indices never download to the same path, whatever their URIs. |
| Pipeline.OutputPathsNumbered | app.py:101 | The naming scheme for downloads gives different indices different paths. |
| Pipeline.RunPrelude | app.py:47-84 | The stages up to prompt generation never finish the run. The chorus is known exactly when transcription and extraction succeed, and the link `/static/uploads/` + the clip's file name is then written. The run goes on to the loop exactly when all five stages succeed, and the prompts are then the generated parts. |
| Pipeline.PreludeOpens | app.py:47-50 | The run's first writes are the model line and then the transcription message. |
| Pipeline.VideoStep | app.py:89-119 | One pass submits the prompt to Veo with the default aspect ratio. A job that raises ends the run with its exception. A failed job stops with `❌ Video generation failed`, and only a failed job does. A URI not starting with `gs://` stops with `❌ Invalid video URL`. A `gs://` URI without a bucket separator, or a failing blob handle, raises outside the `try`. A download that raises stops with `❌ Failed to download video`. One that succeeds saves the video under its numbered name, and only then does the pass go on. |
| Pipeline.VideoLoop | app.py:86-119 | Jobs follow the prompts in order, and each saved video belongs to a successful job. The loop goes on only if every prompt got a video. Otherwise the last job is the one that did not end in a download, and no later prompt is submitted. |
| Pipeline.LoopEndsAt | app.py:88-119 | The loop passes every prompt whose video was downloaded and ends as the first pass that was not does, after one job per prompt up to it. |
| Pipeline.SubmittedAt | app.py:88-90 | The `k`-th job is the Veo job for the `k`-th prompt. |
| Pipeline.SavedAt | app.py:100-111 | The `k`-th saved video is the numbered file of the `k`-th job, which succeeded. |
| Pipeline.SavedFiles | app.py:100-111 | Under numbered names, every saved video comes from a successful job and no two share a file. |
| Pipeline.Run | app.py:37-138 | A run that finishes shows one of four messages. It stitches exactly when it finishes with `✅ Done!`. Jobs never outnumber prompts, and every job but the last saved a video. The log starts with the prelude's writes. |
| Pipeline.RunPrompts | app.py:77-88 | A run with prompts went through the whole prelude and submitted at least one job. |
| Pipeline.RunStitch | app.py:121-133 | A run that stitches has a video for every prompt and stitches exactly those onto the chorus clip. Its last writes are the download link and the final line. |
| Pipeline.RunOpens | app.py:39-50 | A run first resets the record: `Starting…`, `done` false, no video path, no data, an empty log. It then shows exactly the line `🤖 Using model: m`, then the transcription message. |
| Pipeline.TraceOpens | app.py:39-50 | Any run whose log opens with the model line shows the reset record with that one line. |
| Pipeline.AfterWrites | app.py:39-138 | Whatever the record held before, the final record is the reset record after the run's writes, plus the finishing message and `done` if the run finished. |
| Pipeline.DoneIffNoException | app.py:50-138 | `done` ends true exactly when no exception escaped. The lemmas below tie each raising stage to an escape. |
| Pipeline.FinalMessage | app.py:94-138 | A finished run's message is one of the four. It is `✅ Done!` exactly when the run stitched. |
| Pipeline.TraceLogOnlyGrows | app.py:39-133 | From the reset on, every view of the log is a prefix of the final log. |
| Pipeline.StatusLogOnlyGrows | app.py:39-133 | Polling `/status` during a run never shows a line disappear. |
| Pipeline.JobsInOrder | app.py:88-111 | Jobs submitted in prompt order, all but the last of which saved a video, match the prompts one by one. |
| Pipeline.JobsFollowPrompts | app.py:88-119 | Veo gets the prompts in order, one job each, and every job but the last ended in a download. |
| Pipeline.StitchedInPromptOrder | app.py:86-130 | The stitched video uses one downloaded file per prompt, in prompt order. Each file came from a successful job, and no two share a file. |
| Pipeline.DoneTraceStatus | app.py:132-138 | A run that finishes with `✅ Done!` after setting the video path keeps that path. |
| Pipeline.EscapedTraceStatus | app.py:37-138 | A run that ends in an exception leaves `done` false, since only the handled failures and the normal end set it. |
| Pipeline.PreludeCrashError | app.py:50-84 | Before the video loop, the exception that stops the run is that of the first stage that raises: transcription, chorus extraction, audio emotion, lyric emotion or prompt generation. |
| Pipeline.PreludeCrashEscapes | app.py:50-84 | An exception in any stage before the video loop escapes `process_audio`, and `done` stays false. |
| Pipeline.RunLoopEnding | app.py:86-119 | After the prelude, the run has the loop's jobs: a handled stop in the loop finishes the run with its message and a crash escapes with its exception. |
| Pipeline.RunCrashesAtVideo | app.py:88-106 | When the pass for prompt `k` raises outside the `try` (Veo, the `gs://` unpacking or opening the blob) after every earlier video was downloaded, that exception escapes the run. |
| Pipeline.VideoCrashLeavesNotDone | app.py:88-106 | Such a crash leaves `done` false. |
| Pipeline.UnpackErrorEscapes | app.py:104 | A `gs://` URI without a `/` after the bucket raises the unpacking `ValueError`, outside the `try`, and the run escapes with it. |
| Pipeline.LoopPassesAll | app.py:88-119 | When every pass downloads its video, the loop goes on to the stitch. |
| Pipeline.MakeDirsCrashEscapes | app.py:124 | When every video was downloaded but `os.makedirs` raises, that exception escapes the run. |
| Pipeline.MakeDirsCrashLeavesNotDone | app.py:124 | Such a failure leaves `done` false. |
| Pipeline.FinishedTraceStatus | app.py:94-118 | A run that finishes with a message shows `done` and that message. |
| Pipeline.RunStopsAtVideo | app.py:88-119 | When the pass for prompt `k` stops on a handled failure and every earlier video was downloaded, the run makes `k + 1` jobs and finishes with that failure's message. |
| Pipeline.FailedVideoEndsRun | app.py:92-95 | Veo failing on prompt `k`, after every earlier video was downloaded, ends the run with `done` and `❌ Video generation failed`. |
| Pipeline.FailedDownloadEndsRun | app.py:103-115 | A download of video `k` that raises, after every earlier video was downloaded, ends the run with `done` and `❌ Failed to download video`. |
| Pipeline.FailedStitchStillReportsDone | app.py:126-138 | A stitch that fails and returns `""` still ends the run with `done`, `✅ Done!` and the link `/download?path=`. |
| Pipeline.ChorusLinkWritten | app.py:57-58 | Once transcription and extraction succeed, the link `/static/uploads/` + basename(clip path) is written. |
| Pipeline.ChorusLink | app.py:57-58 | With the system's own extractor, that link is `/static/uploads/chorus_clip_{stem}.wav`. |
| Pipeline.PreludePrompts | app.py:77-88 | A prelude that goes on hands its prompts to the loop unchanged. |
| Pipeline.OnePromptOneJob | app.py:86-90 | A single prompt leads to a single Veo job, for that prompt. |
| Pipeline.Part1ErrorIsSentToVeo | app.py:77-90 | When the language model fails on Part 1, the run does not stop: the `❌ Error generating Part 1: …` line becomes the only prompt and is sent to Veo as a video prompt. |

## Left out

- The Flask routes, the upload, `send_file` and the thread (`app.py` lines 21-35 and 140-160). A single run is modelled on its own. The `/download` route serves any path given in its query string.
- Concurrency on the shared `PROCESS_STATUS`: runs and `/status` readers are not interleaved. Only the sequence of states one run produces is modelled.
- `utils/transcribe.py` and `utils/emotion_lyrics.py` are not part of this model. They are the collaborators `World.transcribe` and `World.detectLyricEmotion`.
- pychorus, gradio, the OpenAI and Gemini clients, Veo, Cloud Storage and moviepy are collaborators that return a value or an exception. Their behaviour is not modelled.
- Floating point: durations, chorus times and scores are exact `real`s. `float()` on a digits-and-dots lexeme gives the exact decimal value.
- The wording of status lines: each line is a structured `RunStatus.Update` with its facts. This leaves out the `.2f` and `.1f` formatting and the ×100 of the lyric-emotion confidence.
- The wording of the two storyboard requests: `PromptGen.Prompt` records the facts each request embeds.
- `print` calls, `load_dotenv` and the module-level Veo client. The environment is a map.
- The clock of `generate_video` counts whole time units: each iteration takes 15 plus a latency that the service supplies.
- `\w`, `\d` and `str.lower` are modelled on ASCII characters. `str.isspace` and `\s` use the full Unicode whitespace set.
- `rstrip(',')` in the tag parsing strips every trailing comma, as Python does, not just one.
- `PyText.WordCount`: its contract gives only the bounds of `len(lyrics.split())`. The count itself only feeds a log line.
- The lyric-emotion dictionary reaches `generate` through its `label` entry. The `confidence` entry is only logged. A dictionary without `label` (a `KeyError` at line 72) is not represented.
