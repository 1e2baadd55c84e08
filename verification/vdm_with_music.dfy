/**
 * vdm_with_music.py: the live script that fans a mood change out to the
 * rendering service and the music player.
 */
module VdmWithMusic {
  import opened Options
  import opened PyText
  import opened MoodConfig
  import opened Classifier
  import opened LiveLoop
  import VdmMusicImage

  /** MOOD_STYLES of this script. */
  const MoodStyles: StyleTable := map[
    "excited" := MoodProfile(
      "explosive energy, vibrant neon colors, high quality, electrifying atmosphere, intense action, yellow bright sunshine colours, bright",
      "calm, muted, static, boring, dull, dark", 45, None),
    "sad" := MoodProfile(
      "muted grayscale, melancholic dark grey tones, rain-soaked atmosphere, somber mood, dramatic shadows, emotional depth, dark, grey",
      "bright, cheerful, colorful, happy", 45, None),
    "boring" := MoodProfile(
      "light brown, vintage film grain, slow motion aesthetic, minimalist composition, subdued atmosphere",
      "vibrant, exciting, dynamic, colorful", 35, None),
    "neutral" := MoodProfile(
      "clean broadcast style, professional sports coverage, balanced colors",
      "distorted, ugly, low quality", 40, None),
    "terrible" := MoodProfile(
      "dark, dreary, doom, depression",
      "bright, cheerful, colorful, happy, amazing", 30, None)
  ]

  /** The keys of MOOD_STYLES in insertion order, as `_load_mood_files` walks them. */
  const MoodNames: seq<string> := ["excited", "sad", "boring", "neutral", "terrible"]

  const ExcitedKeywords: seq<string> :=
    ["yes", "wow", "amazing", "incredible", "goal", "score", "oh my god", "lets go", "come on"]
  const SadKeywords: seq<string> := ["no", "oh no", "damn", "miss"]
  const BoringKeywords: seq<string> := ["slow", "nothing", "boring", "meh", "whatever", "waiting"]
  const TerribleKeywords: seq<string> := ["unfortunate", "terrible", "awful"]

  /** MOOD_KEYWORDS of this script, in insertion order. */
  const MoodKeywords: KeywordTable := [
    ("excited", ExcitedKeywords),
    ("sad", SadKeywords),
    ("boring", BoringKeywords),
    ("terrible", TerribleKeywords)
  ]

  /** A mood change calls update_stream_mood and then play_mood. */
  const Script: LiveScript := LiveScript(MoodKeywords, [StreamUpdate, MusicChange])

  /** `detect_mood_from_text` of this script. */
  function DetectMoodFromText(text: string): string {
    DetectFromText(MoodKeywords, text)
  }

  /**
   * This script's MOOD_KEYWORDS is, bucket by bucket and keyword by keyword,
   * the table of vdm_music_image.py, so its classifier gives the same answers.
   */
  lemma SameKeywordsAsVdmMusicImage(text: string)
    ensures ExcitedKeywords == VdmMusicImage.ExcitedKeywords && SadKeywords == VdmMusicImage.SadKeywords
    ensures BoringKeywords == VdmMusicImage.BoringKeywords && TerribleKeywords == VdmMusicImage.TerribleKeywords
    ensures MoodKeywords == VdmMusicImage.MoodKeywords
    ensures DetectMoodFromText(text) == VdmMusicImage.DetectMoodFromText(text)
  {
  }

  /**
   * `detect_mood_from_text` with this table: "neutral" for empty text, else
   * the first of excited, sad, boring, terrible with a keyword in the text,
   * else "neutral".
   */
  lemma PriorityOrder(text: string)
    ensures text == [] ==> DetectMoodFromText(text) == "neutral"
    ensures text != [] && HasKeyword(ExcitedKeywords, text) ==> DetectMoodFromText(text) == "excited"
    ensures (text != [] && !HasKeyword(ExcitedKeywords, text) && HasKeyword(SadKeywords, text))
            ==> DetectMoodFromText(text) == "sad"
    ensures (text != [] && !HasKeyword(ExcitedKeywords, text) && !HasKeyword(SadKeywords, text)
             && HasKeyword(BoringKeywords, text))
            ==> DetectMoodFromText(text) == "boring"
    ensures (text != [] && !HasKeyword(ExcitedKeywords, text) && !HasKeyword(SadKeywords, text)
             && !HasKeyword(BoringKeywords, text) && HasKeyword(TerribleKeywords, text))
            ==> DetectMoodFromText(text) == "terrible"
    ensures (!HasKeyword(ExcitedKeywords, text) && !HasKeyword(SadKeywords, text)
             && !HasKeyword(BoringKeywords, text) && !HasKeyword(TerribleKeywords, text))
            ==> DetectMoodFromText(text) == "neutral"
  {
    SameKeywordsAsVdmMusicImage(text);
    VdmMusicImage.PriorityOrder(text);
  }

  /** A text with "wow" in it is "excited", whatever else it holds ("damn" included). */
  lemma WowBeatsDamn(text: string)
    requires Contains(text, "wow")
    ensures DetectMoodFromText(text) == "excited"
  {
    SameKeywordsAsVdmMusicImage(text);
    VdmMusicImage.WowBeatsDamn(text);
  }

  /**
   * Shadowing: "no" is a sad keyword and occurs in "nothing" (boring) and in
   * "oh no" (sad), so any text holding one of them and no excited keyword is
   * "sad"; "nothing" never makes a text "boring".
   */
  lemma NoShadowsNothing(text: string)
    requires Contains(text, "nothing") || Contains(text, "oh no")
    requires !HasKeyword(ExcitedKeywords, text)
    ensures DetectMoodFromText(text) == "sad"
  {
    SameKeywordsAsVdmMusicImage(text);
    VdmMusicImage.NoShadowsNothing(text);
  }

  /**
   * Every mood `detect_mood_from_text` can return is a key of MOOD_STYLES,
   * so `MOOD_STYLES[mood]` in `update_stream_mood` never fails.
   */
  lemma EveryMoodHasStyle(text: string)
    ensures DetectMoodFromText(text) in MoodStyles
  {
    DetectedHasStyle(MoodKeywords, MoodStyles, text);
  }

  /** The music player walks exactly the keys of MOOD_STYLES. */
  lemma MoodNamesAreStyleKeys()
    ensures forall m :: m in MoodNames <==> m in MoodStyles
  {
  }

  /** The calls for one mood change with a stream-then-music fan-out. */
  lemma ChangeCalls(fanout: seq<Effect>, mood: string)
    requires fanout == [StreamUpdate, MusicChange]
    ensures Dispatch(fanout, mood) == [Call(StreamUpdate, mood), Call(MusicChange, mood)]
  {
    var d := Dispatch(fanout, mood);
    assert |d| == 2 && d[0] == Call(StreamUpdate, mood) && d[1] == Call(MusicChange, mood);
  }

  /** `ExcitedExcitedBoring` for any table, given this script's fan-out. */
  lemma ExcitedExcitedBoringWith(s: LiveScript, cycles: seq<Observation>)
    requires s.fanout == [StreamUpdate, MusicChange]
    requires |cycles| == 3 && forall i :: 0 <= i < 3 ==> Heard(cycles[i])
    requires HeardMood(s, cycles[0]) == "excited" && HeardMood(s, cycles[1]) == "excited"
    requires HeardMood(s, cycles[2]) == "boring"
    ensures Run(s, Neutral, cycles)
         == LoopState("boring", [Call(StreamUpdate, "excited"), Call(MusicChange, "excited"),
                                 Call(StreamUpdate, "boring"), Call(MusicChange, "boring")])
  {
    TwoSwitches(s, Neutral, cycles, "excited", "boring");
    var da, db := Dispatch(s.fanout, "excited"), Dispatch(s.fanout, "boring");
    ChangeCalls(s.fanout, "excited");
    ChangeCalls(s.fanout, "boring");
    assert da + db == [Call(StreamUpdate, "excited"), Call(MusicChange, "excited")]
                      + [Call(StreamUpdate, "boring"), Call(MusicChange, "boring")];
  }

  /**
   * From "neutral", three heard cycles classified excited, excited, boring
   * run the change block exactly twice: stream update and music for
   * "excited", then for "boring"; the repeated "excited" calls nothing.
   */
  lemma ExcitedExcitedBoring(cycles: seq<Observation>)
    requires |cycles| == 3 && forall i :: 0 <= i < 3 ==> Heard(cycles[i])
    requires HeardMood(Script, cycles[0]) == "excited" && HeardMood(Script, cycles[1]) == "excited"
    requires HeardMood(Script, cycles[2]) == "boring"
    ensures Run(Script, Neutral, cycles)
         == LoopState("boring", [Call(StreamUpdate, "excited"), Call(MusicChange, "excited"),
                                 Call(StreamUpdate, "boring"), Call(MusicChange, "boring")])
  {
    ExcitedExcitedBoringWith(Script, cycles);
  }

  /**
   * What `main` calls before its loop: "neutral" is made current and its
   * effects run once, in this script's order; "neutral" has a style.
   */
  lemma StartupCalls()
    ensures Dispatch(Script.fanout, Neutral) == [Call(StreamUpdate, "neutral"), Call(MusicChange, "neutral")]
    ensures Neutral in MoodStyles
  {
    ChangeCalls(Script.fanout, Neutral);
  }
}
