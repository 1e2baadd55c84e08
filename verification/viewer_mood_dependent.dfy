/**
 * viewer_mood_dependent.py: the live script whose only effect of a mood
 * change is the rendering-service update.
 */
module ViewerMoodDependent {
  import opened Options
  import opened PyText
  import opened MoodConfig
  import opened Classifier
  import opened LiveLoop
  import VdmMusicImage

  /** MOOD_STYLES of this script. */
  const MoodStyles: StyleTable := map[
    "excited" := MoodProfile(
      "explosive energy, vibrant neon colors, dynamic motion blur, electrifying atmosphere, intense action, yellow bright sunshine colours",
      "calm, muted, static, boring", 40, None),
    "sad" := MoodProfile(
      "melancholic blue tones, rain-soaked atmosphere, somber mood, dramatic shadows, emotional depth, dark, grey",
      "bright, cheerful, colorful, happy", 45, None),
    "boring" := MoodProfile(
      "muted grayscale, vintage film grain, slow motion aesthetic, minimalist composition, subdued atmosphere",
      "vibrant, exciting, dynamic, colorful", 35, None),
    "neutral" := MoodProfile(
      "clean broadcast style, professional sports coverage, balanced colors",
      "distorted, ugly, low quality", 30, None),
    "terrible" := MoodProfile(
      "clean broadcast style, professional sports coverage, balanced colors",
      "bright, cheerful, colorful, happy, amazing", 25, None)
  ]

  const ExcitedKeywords: seq<string> :=
    ["yes", "wow", "amazing", "incredible", "goal", "score", "oh my god", "lets go", "come on"]
  const SadKeywords: seq<string> := ["no", "oh no", "damn", "miss"]
  const BoringKeywords: seq<string> := ["slow", "nothing", "boring", "meh", "whatever", "waiting"]
  const TerribleKeywords: seq<string> := ["unfortunate", "terrible", "awful"]

  /** MOOD_KEYWORDS of this script, in insertion order. */
  const MoodKeywords: KeywordTable := [
    ("excited", ExcitedKeywords),
    ("sad", SadKeywords),
    ("boring", BoringKeywords),
    ("terrible", TerribleKeywords)
  ]

  /** A mood change calls update_stream_mood only. */
  const Script: LiveScript := LiveScript(MoodKeywords, [StreamUpdate])

  /** `detect_mood_from_text` of this script. */
  function DetectMoodFromText(text: string): string {
    DetectFromText(MoodKeywords, text)
  }

  /**
   * This script's MOOD_KEYWORDS is, bucket by bucket and keyword by keyword,
   * the table of vdm_music_image.py, so its classifier gives the same answers.
   */
  lemma SameKeywordsAsVdmMusicImage(text: string)
    ensures ExcitedKeywords == VdmMusicImage.ExcitedKeywords && SadKeywords == VdmMusicImage.SadKeywords
    ensures BoringKeywords == VdmMusicImage.BoringKeywords && TerribleKeywords == VdmMusicImage.TerribleKeywords
    ensures MoodKeywords == VdmMusicImage.MoodKeywords
    ensures DetectMoodFromText(text) == VdmMusicImage.DetectMoodFromText(text)
  {
  }

  /**
   * `detect_mood_from_text` with this table: "neutral" for empty text, else
   * the first of excited, sad, boring, terrible with a keyword in the text,
   * else "neutral".
   */
  lemma PriorityOrder(text: string)
    ensures text == [] ==> DetectMoodFromText(text) == "neutral"
    ensures text != [] && HasKeyword(ExcitedKeywords, text) ==> DetectMoodFromText(text) == "excited"
    ensures (text != [] && !HasKeyword(ExcitedKeywords, text) && HasKeyword(SadKeywords, text))
            ==> DetectMoodFromText(text) == "sad"
    ensures (text != [] && !HasKeyword(ExcitedKeywords, text) && !HasKeyword(SadKeywords, text)
             && HasKeyword(BoringKeywords, text))
            ==> DetectMoodFromText(text) == "boring"
    ensures (text != [] && !HasKeyword(ExcitedKeywords, text) && !HasKeyword(SadKeywords, text)
             && !HasKeyword(BoringKeywords, text) && HasKeyword(TerribleKeywords, text))
            ==> DetectMoodFromText(text) == "terrible"
    ensures (!HasKeyword(ExcitedKeywords, text) && !HasKeyword(SadKeywords, text)
             && !HasKeyword(BoringKeywords, text) && !HasKeyword(TerribleKeywords, text))
            ==> DetectMoodFromText(text) == "neutral"
  {
    SameKeywordsAsVdmMusicImage(text);
    VdmMusicImage.PriorityOrder(text);
  }

  /** A text with "wow" in it is "excited", whatever else it holds ("damn" included). */
  lemma WowBeatsDamn(text: string)
    requires Contains(text, "wow")
    ensures DetectMoodFromText(text) == "excited"
  {
    SameKeywordsAsVdmMusicImage(text);
    VdmMusicImage.WowBeatsDamn(text);
  }

  /**
   * Shadowing: "no" is a sad keyword and occurs in "nothing" (boring) and in
   * "oh no" (sad), so any text holding one of them and no excited keyword is
   * "sad"; "nothing" never makes a text "boring".
   */
  lemma NoShadowsNothing(text: string)
    requires Contains(text, "nothing") || Contains(text, "oh no")
    requires !HasKeyword(ExcitedKeywords, text)
    ensures DetectMoodFromText(text) == "sad"
  {
    SameKeywordsAsVdmMusicImage(text);
    VdmMusicImage.NoShadowsNothing(text);
  }

  /**
   * Every mood `detect_mood_from_text` can return is a key of MOOD_STYLES,
   * so `MOOD_STYLES[mood]` in `update_stream_mood` never fails.
   */
  lemma EveryMoodHasStyle(text: string)
    ensures DetectMoodFromText(text) in MoodStyles
  {
    DetectedHasStyle(MoodKeywords, MoodStyles, text);
  }

  /**
   * What `main` calls before its loop: "neutral" is made current and its
   * effects run once, in this script's order; "neutral" has a style.
   */
  lemma StartupCalls()
    ensures Dispatch(Script.fanout, Neutral) == [Call(StreamUpdate, "neutral")]
    ensures Neutral in MoodStyles
  {
    var d := Dispatch(Script.fanout, Neutral);
    assert |d| == 1;
  }
}
