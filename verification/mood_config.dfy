/**
 * The configuration tables every script declares at its top: MOOD_STYLES
 * (mood to rendering parameters) and MOOD_KEYWORDS (mood to keyword list, in
 * insertion order, which is the order the classifier tries them in).
 */
module MoodConfig {
  import opened Options

  /** One MOOD_STYLES entry: the `params` sent to the rendering service. */
  datatype MoodProfile = MoodProfile(
    prompt: string,
    negativePrompt: string,
    inferenceSteps: nat,
    seed: Option<nat>)

  type StyleTable = map<string, MoodProfile>

  /** A MOOD_KEYWORDS dictionary as its items in insertion order. */
  type KeywordTable = seq<(string, seq<string>)>

  /**
   * The `MOOD_STYLES[mood]` lookup in `update_stream_mood`; `None` is the
   * KeyError Python raises for a mood that has no entry.
   */
  function StyleFor(styles: StyleTable, mood: string): (r: Option<MoodProfile>)
  {
    if mood in styles then Some(styles[mood]) else None
  }
}
