# Mood-driven stream styling, modelled in Dafny

The repository is a set of Python scripts that listen to a commentator or a
viewer, or read a video's transcript, and classify what is said into a mood:
excited, sad, boring, neutral or terrible. On each change of mood they restyle
a live AI video stream, and in some scripts they also switch the background
music and the OBS overlay. Four of the scripts share one small piece of
decision logic, each with its own constants. This project models that logic
and proves its properties:

- **Keyword-priority classifier** (`Classifier`). The scripts walk an ordered
  `MOOD_KEYWORDS` table, where Python dictionaries keep insertion order. They
  return the first mood that has a keyword occurring in the text as a
  substring, and otherwise a default: `"neutral"` in the live scripts,
  `"boring"` in the batch script. The table is a
  `seq<(string, seq<string>)>`, and Python's `in` on strings is `Contains`.
- **Change-only rule** (`Debounce`, `LiveLoop`, `FullPipeline`). The live
  loop acts only when the classified mood differs from `current_mood`. The
  batch script's mood-change script and its replay loop apply the same filter
  to a timeline. `Debounce` defines the filter once: the positions where the
  label changes.
- **Chunk assembly** (`AudioCapture.AudioRecorder`). The recorder's queue is
  a `seq` of blocks. `callback` appends at the tail. `get_audio_chunk` takes
  up to a duration's worth of blocks from the head, in FIFO order, stops at
  the first empty poll, and concatenates what it took.
- **Music selection** (`MusicPlayer.MoodMusicPlayer`). `_load_mood_files`
  filters a directory listing by extension, over the keys of `MOOD_STYLES`.
  `play_mood` holds the current mood and picks one of its files. `stop`
  clears the current mood.
- **Configuration completeness**, per script (`VdmMusicImage`,
  `VdmWithMusic`, `ViewerMoodDependent`, `FullPipeline`). Every label a
  script's classifier can return is a key of that script's `MOOD_STYLES`, so
  the `MOOD_STYLES[mood]` lookup in `update_stream_mood` cannot fail.

Shared modules:

- `Options`: `Option`.
- `PyText`: the Python string operations used.
- `MoodConfig`: the style and keyword tables.
- `Transcript`: the segment join of `transcribe_chunk`.

Each script has its own module holding its constants, and its lemmas
instantiate the generic facts with that script's table.

The outside world is represented by parameters:

- What the recogniser returned: segment texts.
- What the microphone delivered: the blocks currently queued.
- Whether the folder exists, and what each directory lists.
- What `update_stream_mood` answered.

The effects of a mood change (the stream update, the overlay update and the
music change) are recorded as a list of calls.

Behaviour of the code worth noting:

- **Unbounded queue.** `audio_queue` is an unbounded `queue.Queue()`, and
  there is no overflow policy.
- **Truncated block budget.** `get_audio_chunk` takes `int(duration / 0.5)`
  blocks, truncated, not rounded up.
- **No error isolation.** Between the effects of one change, only a `False`
  answer from `update_stream_mood` and a load/play error inside `play_mood`
  (caught there) are tolerated; any other exception raised by an effect ends
  the script.
- **Startup dispatch.** The live scripts dispatch `"neutral"` once at
  startup, before the loop.
- **Batch default.** The batch script's default mood is `"boring"`.

## Model

| member | source | states |
|---|---|---|
| PyText.ContainsAt | vdm_music_image.py:189 | an occurrence of `sub` at a concrete offset makes `sub in s` true |
| PyText.ContainsTransitive | vdm_music_image.py:189 | substring containment is transitive: a text containing a longer keyword contains every keyword inside it |
| PyText.EndsWithAppend | vdm_music_image.py:129-132 | prepending a directory keeps a file name's suffix |
| PyText.LStrip | vdm_music_image.py:181 | left strip returns a suffix of the input, removes only whitespace, and leaves no leading whitespace |
| PyText.RStrip | vdm_music_image.py:181 | right strip returns a prefix of the input, removes only whitespace, and leaves no trailing whitespace |
| PyText.StripSpec | vdm_music_image.py:181 | `strip()` returns a contiguous piece of its input, everything removed on both sides is whitespace, and the result has no whitespace at either end |
| PyText.StripAt | vdm_music_image.py:181 | the stripped text is the piece of the input that starts where the leading whitespace ends, with only whitespace on either side of it |
| PyText.StripEnds | vdm_music_image.py:181 | a stripped text neither starts nor ends with whitespace |
| PyText.StripTrailingSpace | vdm_music_image.py:177-181 | the space appended after the last segment does not survive `strip()` |
| PyText.LStripAppendSpace | vdm_music_image.py:177-181 | left-stripping a text with one more trailing space adds that space, unless the text was all whitespace |
| PyText.Lower | vdm_music_image.py:179 | `lower()` keeps the length, lower-cases each character in place, and leaves no ASCII capital letter |
| PyText.LowerIdempotent | vdm_music_image.py:179 | lower-casing already lower-cased text changes nothing |
| Classifier.FirstMatch | vdm_music_image.py:188-191 | no mood iff no bucket has a keyword in the text; otherwise the mood of a bucket that hits while no earlier bucket does |
| Classifier.FirstMatchPriority | vdm_music_image.py:188-191 | the first bucket in table order that hits decides the mood, whatever later buckets hit |
| Classifier.DetectFromText | vdm_music_image.py:183-193 | the result is "neutral" or the label of the first bucket that hits |
| Classifier.Detect | vdm_music_image.py:183-193 | the early-return loop returns exactly the classifier's answer |
| Classifier.DetectFromTextSpec | vdm_music_image.py:183-193 | empty text and text without any keyword give "neutral"; otherwise the first bucket that hits wins |
| Classifier.Shadowed | vdm_music_image.py:188-191 | a keyword of bucket i occurring inside a longer keyword means any text containing the longer keyword is decided by bucket i or an earlier one |
| Classifier.DetectedHasStyle | vdm_music_image.py:226 | when the default and every table label are style keys, so is every classifier answer |
| Debounce.SwitchIndices | vdm_music_image.py:330-335 | position i is a change position iff its label differs from the label held before it; the positions are increasing and in range |
| Debounce.SwitchIndicesSnoc | full_pipeline_1.py:149-153 | one more label adds at most its own position to the change positions |
| Debounce.SwitchedAtIndices | full_pipeline_1.py:149-153 | the labels acted on, defined label by label, are exactly the labels at the change positions, in order and equally many |
| Debounce.SwitchedSnoc | full_pipeline_1.py:149-153 | one more label adds itself to the switched labels iff it differs from the label held |
| Debounce.SwitchedTracksLast | full_pipeline_1.py:149-153 | the last label switched to is the last label seen, so "last acted on" and "previous" agree |
| Debounce.SwitchedNoRepeat | full_pipeline_1.py:149-153 | no two consecutive switches carry the same label, and the first differs from the label held at the start |
| Debounce.SwitchCount | full_pipeline_1.py:148-153 | starting from nothing, a non-empty sequence switches at its first position, and the number of switches is 1 plus the number of adjacent changes (0 when empty) |
| Transcript.AccumulateIsJoin | vdm_with_music.py:173-175 | the accumulated text is the lower-cased segments joined by single spaces, plus one trailing space |
| Transcript.TranscribeTextSpec | vdm_with_music.py:169-177 | `transcribe_chunk` returns the lower-cased segments joined with single spaces and stripped, "" for no segments, with no whitespace at either end |
| Transcript.TranscribeChunk | viewer_mood_dependent.py:112-120 | the accumulating loop produces that joined, stripped text, "" for no segments, with no boundary whitespace |
| AudioCapture.BlockBudget | vdm_music_image.py:97 | the block budget is the duration divided by 0.5 s, truncated (0 for a non-positive duration) |
| AudioCapture.ChunkBudgetIsTen | vdm_music_image.py:20 | with CHUNK_DURATION = 5 a chunk holds at most 10 blocks |
| AudioCapture.ConcatSplit | vdm_music_image.py:106-107 | the samples of the chunk followed by those still queued are the samples that were queued: nothing lost, nothing reordered |
| AudioCapture.AudioRecorder.constructor | vdm_music_image.py:64-66 | a new recorder has an empty queue and is not recording |
| AudioCapture.AudioRecorder.Callback | vdm_music_image.py:68-72 | exactly one block is appended at the tail of the queue |
| AudioCapture.AudioRecorder.StartRecording | vdm_music_image.py:74-76 | the recording flag is set |
| AudioCapture.AudioRecorder.StopRecording | vdm_music_image.py:86-88 | the recording flag is cleared |
| AudioCapture.AudioRecorder.GetAudioChunk | vdm_music_image.py:94-108 | takes k = min(budget, queued) blocks from the head, in FIFO order, and returns their concatenation; the queue keeps exactly the untaken suffix; None iff the budget is 0 or the queue was empty |
| MusicPlayer.AudioFiles | vdm_music_image.py:129-130 | the files kept are exactly the listed names ending in .mp3, .wav or .ogg |
| MusicPlayer.JoinKeepsAudioExtension | vdm_music_image.py:129-132 | joining a directory in front of an audio file name yields an audio path |
| MusicPlayer.MoodPathsAreAudio | vdm_music_image.py:129-132 | every path stored for a mood ends in an audio extension |
| MusicPlayer.LoadMoodFiles | vdm_music_image.py:118-135 | empty when the folder is missing; otherwise keys are exactly the style keys whose directory lists an audio file, each value being the joined audio paths (non-empty, all audio) |
| MusicPlayer.MoodMusicPlayer.constructor | vdm_music_image.py:111-116 | nothing current; the file map is exactly what `_load_mood_files` loads: empty for a missing folder, otherwise the moods with audio files, each with its joined audio paths |
| MusicPlayer.MoodMusicPlayer.PlayMood | vdm_music_image.py:137-157 | no change for the current mood; otherwise the mood becomes current whether or not it has files, the music is stopped when it has none, and a started song is one of its files, hence an audio file of a MOOD_STYLES mood; the loaded-files invariant is kept |
| MusicPlayer.MoodMusicPlayer.Stop | vdm_music_image.py:159-162 | no mood is current afterwards; the loaded-files invariant is kept |
| LiveLoop.HeardMoods | vdm_music_image.py:318-325 | at most one classified mood per cycle |
| LiveLoop.RunMoodIsLastHeard | vdm_music_image.py:318-335 | after the loop, `current_mood` is the mood of the last heard cycle, or the start mood; missing chunks and empty text never change it |
| LiveLoop.DispatchAllSnoc | vdm_music_image.py:330-335 | dispatching one more mood appends exactly its calls after the earlier ones |
| LiveLoop.SwitchStep | vdm_music_image.py:318-335 | one more cycle appends a heard mood to the heard moods, and its calls are appended iff it differs from the mood held |
| LiveLoop.RunDispatchesSwitches | vdm_music_image.py:318-335 | the effects are called exactly for the changes of the classified mood, with the new mood, in order |
| LiveLoop.StreamAnswerIgnored | vdm_music_image.py:231-236 | a False answer from update_stream_mood changes nothing: the remaining calls and the mood update still happen |
| LiveLoop.RunSnoc | vdm_music_image.py:313-335 | one more cycle is one more step of the loop body |
| LiveLoop.Cycle | vdm_music_image.py:316-335 | the loop body: skip a missing or empty chunk and an empty transcript; dispatch a new mood and make it current |
| LiveLoop.LiveMain | vdm_music_image.py:307-335 | "neutral" is dispatched once at startup, then the loop's mood and calls are exactly those of the cycle-by-cycle specification |
| LiveLoop.TwoSwitches | vdm_with_music.py:286-303 | classifications a, a, b from a different start dispatch a once and then b |
| VdmMusicImage.PriorityOrder | vdm_music_image.py:183-193 | empty or keyword-free text gives "neutral"; otherwise the first of excited, sad, boring, terrible with a hit |
| VdmMusicImage.WowBeatsDamn | vdm_music_image.py:56-61 | any text containing "wow" is "excited" |
| VdmMusicImage.NoShadowsNothing | vdm_music_image.py:57-59 | a text containing "nothing" or "oh no" with no excited keyword is "sad", never "boring" |
| VdmMusicImage.EveryMoodHasStyle | vdm_music_image.py:226 | every classifier answer is a MOOD_STYLES key |
| VdmMusicImage.MoodNamesAreStyleKeys | vdm_music_image.py:126 | the player walks exactly the MOOD_STYLES keys |
| VdmMusicImage.StartupCalls | vdm_music_image.py:307-310 | before the loop, "neutral" is sent to the stream, the overlay and the music player, in that order, and it has a style |
| VdmWithMusic.SameKeywordsAsVdmMusicImage | vdm_with_music.py:52-57 | this MOOD_KEYWORDS is the same table as vdm_music_image.py's, bucket by bucket, so every text classifies the same in both |
| VdmWithMusic.PriorityOrder | vdm_with_music.py:179-189 | empty or keyword-free text gives "neutral"; otherwise the first of excited, sad, boring, terrible with a hit |
| VdmWithMusic.WowBeatsDamn | vdm_with_music.py:52-57 | any text containing "wow" is "excited" |
| VdmWithMusic.NoShadowsNothing | vdm_with_music.py:54-55 | a text containing "nothing" or "oh no" with no excited keyword is "sad" |
| VdmWithMusic.EveryMoodHasStyle | vdm_with_music.py:222 | every classifier answer is a MOOD_STYLES key |
| VdmWithMusic.MoodNamesAreStyleKeys | vdm_with_music.py:122 | the player walks exactly the MOOD_STYLES keys |
| VdmWithMusic.ChangeCalls | vdm_with_music.py:300-301 | a mood change calls update_stream_mood, then play_mood |
| VdmWithMusic.ExcitedExcitedBoringWith | vdm_with_music.py:286-303 | with that fan-out, excited, excited, boring from "neutral" makes exactly the four calls for excited and then boring |
| VdmWithMusic.ExcitedExcitedBoring | vdm_with_music.py:286-303 | from "neutral", classifications excited, excited, boring run the change block exactly twice, ending in "boring" |
| VdmWithMusic.StartupCalls | vdm_with_music.py:276-278 | before the loop, "neutral" is sent to the stream and then the music player, and it has a style |
| ViewerMoodDependent.SameKeywordsAsVdmMusicImage | viewer_mood_dependent.py:49-54 | this MOOD_KEYWORDS is the same table as vdm_music_image.py's, bucket by bucket, so every text classifies the same in both |
| ViewerMoodDependent.PriorityOrder | viewer_mood_dependent.py:122-132 | empty or keyword-free text gives "neutral"; otherwise the first of excited, sad, boring, terrible with a hit |
| ViewerMoodDependent.WowBeatsDamn | viewer_mood_dependent.py:49-54 | any text containing "wow" is "excited" |
| ViewerMoodDependent.NoShadowsNothing | viewer_mood_dependent.py:51-52 | a text containing "nothing" or "oh no" with no excited keyword is "sad" |
| ViewerMoodDependent.EveryMoodHasStyle | viewer_mood_dependent.py:165 | every classifier answer is a MOOD_STYLES key |
| ViewerMoodDependent.StartupCalls | viewer_mood_dependent.py:218-219 | before the loop, "neutral" is sent to the stream only, and it has a style |
| FullPipeline.MoodOf | full_pipeline_1.py:20-46 | every mood given to a text is one of the three MOOD_STYLES keys |
| FullPipeline.MoodOfSpec | full_pipeline_1.py:77-83 | the first of excited, sad, boring with a keyword in the text, else "boring", including for empty text |
| FullPipeline.EveryMoodHasStyle | full_pipeline_1.py:128 | the default and every table label are MOOD_STYLES keys |
| FullPipeline.DetectMood | full_pipeline_1.py:71-94 | one entry per transcription, in order, keeping start, end and text, with the first-hit mood or "boring" |
| FullPipeline.SwitchEntriesSpec | full_pipeline_1.py:148-153 | an entry is written iff it is first or its mood differs from the previous entry's; the first entry is always written; no two consecutive written moods are equal; the count is 1 plus adjacent changes |
| FullPipeline.MoodsPrefixSnoc | full_pipeline_1.py:149-153 | one more entry adds at most its own position to the written positions |
| FullPipeline.ScriptStart | full_pipeline_1.py:148 | before the loop nothing is written and no mood is held |
| FullPipeline.ScriptStep | full_pipeline_1.py:149-153 | one loop step writes entry i iff it is first or its mood differs from entry i - 1's, keeping the written entries equal to those at the change positions so far |
| FullPipeline.ScriptDone | full_pipeline_1.py:149-153 | after the last entry the written entries are exactly the switch entries of the timeline |
| FullPipeline.GenerateMoodChangeScript | full_pipeline_1.py:142-153 | the loop writes exactly the entries of the change filter, in order |
| FullPipeline.ReplayMoodChanges | full_pipeline_1.py:192-196 | the replay sends exactly the change-only moods, in order |
| FullPipeline.ReplayMatchesScript | full_pipeline_1.py:192-196 | the replay's moods are the moods of the script's entries, in the same order, and each has a style |

## Left out

- HTTP to the rendering service. `create_daydream_stream` and the request and response of `update_stream_mood` are network I/O. Only the `MOOD_STYLES[mood]` lookup (`MoodConfig.StyleFor`) and the True/False answer (`Observation.streamAccepted`) are modelled.
- Whisper model loading and `model.transcribe`, including the batch script's `transcribe_audio`, are calls into a foreign model. Its segment texts are inputs.
- The sounddevice stream in `start_recording` / `stop_recording` is device I/O. The callback running on the audio thread is concurrency: enqueue and dequeue are sequential operations on a `seq`.
- The one-second wait of `queue.get(timeout=1)`: a timeout is modelled as "the queue is currently empty".
- AudioCapture.BlockBudget: the budget is floor(duration / 0.5) over the reals. The float rounding of `int(SAMPLE_RATE * duration / (SAMPLE_RATE * 0.5))` is not modelled.
- pygame.mixer calls: the mixer is foreign and is represented by `Playback`. `random.choice` is only "an element of the list".
- MusicPlayer.MoodMusicPlayer.PlayMood: an exception raised by `pygame.mixer.music.load`/`play` is caught and printed in the source. The model leaves it out, since the mood is already current by then.
- `save_audio_chunk`: float-to-int16 scaling and WAV writing are floating point and file I/O.
- `update_obs_overlays`: file writes and copies. It appears only as the `OverlayUpdate` call.
- Temp-file removal, and `os.path.exists` / `os.listdir`: these are filesystem I/O. Existence and listings are parameters.
- `time.sleep`, `input()`, `KeyboardInterrupt` handling and all console output. The infinite `while True` is modelled as a finite sequence of cycles.
- FullPipeline.GenerateMoodChangeScript: the file text, its header and the `.1f` formatting of start times are not rendered. The member returns the written entries.
- The batch replay's `wait_time` arithmetic and its `mood_timeline.index(entry)` lookup only compute sleep durations.
- The first `main` in full_pipeline_1.py is shadowed by the later definition and is never run.
- audio_transcribe.py is not part of this model. It is an ffmpeg subprocess, a Whisper call and an OpenCV frame loop.
- PyText.Lower: only ASCII letters are lower-cased. Python's full Unicode case mapping is not modelled.
- PyText.IsSpace follows Python's `str.isspace()` code point list for single characters. Nothing else of Unicode is modelled.
- LiveLoop.LiveMain: an exception raised by an effect call would end the script. The model has each effect call succeed or, for the stream update, answer False.
