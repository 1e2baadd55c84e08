/**
 * vdm_music_image.py: the live script that fans a mood change out to the
 * rendering service, the OBS overlay files and the music player.
 */
module VdmMusicImage {
  import opened Options
  import opened PyText
  import opened MoodConfig
  import opened Classifier
  import opened LiveLoop

  /** MOOD_STYLES of this script. */
  const MoodStyles: StyleTable := map[
    "excited" := MoodProfile(
      "explosive energy, vibrant neon colors, dynamic motion blur, electrifying atmosphere, intense action, yellow bright sunshine colours",
      "calm, muted, static, boring", 40, None),
    "sad" := MoodProfile(
      "melancholic blue tones, rain-soaked atmosphere, somber mood, dramatic shadows, emotional depth, dark, grey",
      "bright, cheerful, colorful, happy", 45, None),
    "boring" := MoodProfile(
      "muted grayscale, vintage film grain, slow motion aesthetic, minimalist composition, subdued atmosphere",
      "vibrant, exciting, dynamic, colorful", 35, None),
    "neutral" := MoodProfile(
      "clean broadcast style, professional sports coverage, balanced colors",
      "distorted, ugly, low quality", 30, None),
    "terrible" := MoodProfile(
      "clean broadcast style, professional sports coverage, balanced colors",
      "bright, cheerful, colorful, happy, amazing", 25, None)
  ]

  /** The keys of MOOD_STYLES in insertion order, as `_load_mood_files` walks them. */
  const MoodNames: seq<string> := ["excited", "sad", "boring", "neutral", "terrible"]

  const ExcitedKeywords: seq<string> :=
    ["yes", "wow", "amazing", "incredible", "goal", "score", "oh my god", "lets go", "come on"]
  const SadKeywords: seq<string> := ["no", "oh no", "damn", "miss"]
  const BoringKeywords: seq<string> := ["slow", "nothing", "boring", "meh", "whatever", "waiting"]
  const TerribleKeywords: seq<string> := ["unfortunate", "terrible", "awful"]

  /** MOOD_KEYWORDS of this script, in insertion order. */
  const MoodKeywords: KeywordTable := [
    ("excited", ExcitedKeywords),
    ("sad", SadKeywords),
    ("boring", BoringKeywords),
    ("terrible", TerribleKeywords)
  ]

  /** A mood change calls update_stream_mood, update_obs_overlays and play_mood, in that order. */
  const Script: LiveScript := LiveScript(MoodKeywords, [StreamUpdate, OverlayUpdate, MusicChange])

  /** `detect_mood_from_text` of this script. */
  function DetectMoodFromText(text: string): string {
    DetectFromText(MoodKeywords, text)
  }

  /**
   * `detect_mood_from_text` with this table: "neutral" for empty text, else
   * the first of excited, sad, boring, terrible with a keyword in the text,
   * else "neutral".
   */
  lemma PriorityOrder(text: string)
    ensures text == [] ==> DetectMoodFromText(text) == "neutral"
    ensures text != [] && HasKeyword(ExcitedKeywords, text) ==> DetectMoodFromText(text) == "excited"
    ensures (text != [] && !HasKeyword(ExcitedKeywords, text) && HasKeyword(SadKeywords, text))
            ==> DetectMoodFromText(text) == "sad"
    ensures (text != [] && !HasKeyword(ExcitedKeywords, text) && !HasKeyword(SadKeywords, text)
             && HasKeyword(BoringKeywords, text))
            ==> DetectMoodFromText(text) == "boring"
    ensures (text != [] && !HasKeyword(ExcitedKeywords, text) && !HasKeyword(SadKeywords, text)
             && !HasKeyword(BoringKeywords, text) && HasKeyword(TerribleKeywords, text))
            ==> DetectMoodFromText(text) == "terrible"
    ensures (!HasKeyword(ExcitedKeywords, text) && !HasKeyword(SadKeywords, text)
             && !HasKeyword(BoringKeywords, text) && !HasKeyword(TerribleKeywords, text))
            ==> DetectMoodFromText(text) == "neutral"
  {
    DetectFromTextSpec(MoodKeywords, text);
    if text != [] {
      if HasKeyword(ExcitedKeywords, text) {
        assert FirstHitAt(MoodKeywords, text, 0);
      } else if HasKeyword(SadKeywords, text) {
        assert FirstHitAt(MoodKeywords, text, 1);
      } else if HasKeyword(BoringKeywords, text) {
        assert FirstHitAt(MoodKeywords, text, 2);
      } else if HasKeyword(TerribleKeywords, text) {
        assert FirstHitAt(MoodKeywords, text, 3);
      }
    }
  }

  /** A text with "wow" in it is "excited", whatever else it holds ("damn" included). */
  lemma WowBeatsDamn(text: string)
    requires Contains(text, "wow")
    ensures DetectMoodFromText(text) == "excited"
  {
    assert ExcitedKeywords[1] == "wow";
    PriorityOrder(text);
  }

  /**
   * Shadowing: "no" is a sad keyword and occurs in "nothing" (boring) and in
   * "oh no" (sad), so any text holding one of them and no excited keyword is
   * "sad"; "nothing" never makes a text "boring".
   */
  lemma NoShadowsNothing(text: string)
    requires Contains(text, "nothing") || Contains(text, "oh no")
    requires !HasKeyword(ExcitedKeywords, text)
    ensures DetectMoodFromText(text) == "sad"
  {
    var long := if Contains(text, "nothing") then "nothing" else "oh no";
    if long == "nothing" {
      ContainsAt("nothing", "no", 0);
    } else {
      ContainsAt("oh no", "no", 3);
    }
    Shadowed(MoodKeywords, text, 1, "no", long);
    PriorityOrder(text);
  }

  /**
   * Every mood `detect_mood_from_text` can return is a key of MOOD_STYLES,
   * so `MOOD_STYLES[mood]` in `update_stream_mood` never fails.
   */
  lemma EveryMoodHasStyle(text: string)
    ensures DetectMoodFromText(text) in MoodStyles
  {
    DetectedHasStyle(MoodKeywords, MoodStyles, text);
  }

  /** The music player walks exactly the keys of MOOD_STYLES. */
  lemma MoodNamesAreStyleKeys()
    ensures forall m :: m in MoodNames <==> m in MoodStyles
  {
  }

  /**
   * What `main` calls before its loop: "neutral" is made current and its
   * effects run once, in this script's order; "neutral" has a style.
   */
  lemma StartupCalls()
    ensures Dispatch(Script.fanout, Neutral) == [Call(StreamUpdate, "neutral"), Call(OverlayUpdate, "neutral"), Call(MusicChange, "neutral")]
    ensures Neutral in MoodStyles
  {
    var d := Dispatch(Script.fanout, Neutral);
    assert |d| == 3;
  }
}
