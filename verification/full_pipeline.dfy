/**
 * full_pipeline_1.py: the batch script. It classifies a whole transcript
 * into a mood timeline, writes the mood-change script for it, and replays
 * the same changes against the rendering service.
 */
module FullPipeline {
  import opened Options
  import opened PyText
  import opened MoodConfig
  import opened Classifier
  import opened Debounce

  /** MOOD_STYLES of this script: the only file whose profiles carry seeds. */
  const MoodStyles: StyleTable := map[
    "excited" := MoodProfile(
      "explosive energy, vibrant neon colors, dynamic motion blur, electrifying atmosphere, intense action",
      "calm, muted, static, boring", 40, Some(42)),
    "sad" := MoodProfile(
      "melancholic blue tones, rain-soaked atmosphere, somber mood, dramatic shadows, emotional depth",
      "bright, cheerful, colorful, happy", 45, Some(123)),
    "boring" := MoodProfile(
      "muted grayscale, vintage film grain, slow motion aesthetic, minimalist composition, subdued atmosphere",
      "vibrant, exciting, dynamic, colorful", 35, Some(999))
  ]

  const ExcitedKeywords: seq<string> :=
    ["goal", "score", "amazing", "incredible", "wow", "brilliant", "fantastic"]
  const SadKeywords: seq<string> := ["miss", "lost", "defeat", "disappointed", "unfortunate", "poor"]
  const BoringKeywords: seq<string> := ["slow", "uneventful", "nothing", "quiet", "waiting", "stalled"]

  /** MOOD_KEYWORDS of this script, in insertion order. */
  const MoodKeywords: KeywordTable := [
    ("excited", ExcitedKeywords),
    ("sad", SadKeywords),
    ("boring", BoringKeywords)
  ]

  /** The mood `detect_mood` gives a text no keyword occurs in. */
  const DefaultMood: string := "boring"

  /** One recognised segment: its time span in seconds and its (lower-cased) text. */
  datatype Transcription = Transcription(start: real, end: real, text: string)

  /** One entry of the mood timeline. */
  datatype TimelineEntry = TimelineEntry(start: real, end: real, mood: string, text: string)

  /**
   * The mood `detect_mood` gives one text. Every such mood is a key of
   * MOOD_STYLES, so `update_stream_mood`'s lookup cannot fail.
   */
  function MoodOf(text: string): (mood: string)
    ensures mood in MoodStyles
  {
    FirstMatch(MoodKeywords, text).GetOr(DefaultMood)
  }

  /**
   * Priority of `detect_mood`: the first of excited, sad, boring with a
   * keyword in the text, and "boring" when none has one. Unlike the live
   * scripts, empty text is not a case of its own: it simply matches nothing.
   */
  lemma MoodOfSpec(text: string)
    ensures HasKeyword(ExcitedKeywords, text) ==> MoodOf(text) == "excited"
    ensures !HasKeyword(ExcitedKeywords, text) && HasKeyword(SadKeywords, text)
            ==> MoodOf(text) == "sad"
    ensures !HasKeyword(ExcitedKeywords, text) && !HasKeyword(SadKeywords, text)
            ==> MoodOf(text) == "boring"
    ensures text == [] ==> MoodOf(text) == "boring"
  {
    if HasKeyword(ExcitedKeywords, text) {
      assert FirstHitAt(MoodKeywords, text, 0);
      FirstMatchPriority(MoodKeywords, text, 0);
    } else if HasKeyword(SadKeywords, text) {
      assert FirstHitAt(MoodKeywords, text, 1);
      FirstMatchPriority(MoodKeywords, text, 1);
    } else if HasKeyword(BoringKeywords, text) {
      assert FirstHitAt(MoodKeywords, text, 2);
      FirstMatchPriority(MoodKeywords, text, 2);
    }
    if text == [] {
      forall k | 0 <= k < |ExcitedKeywords| ensures !Contains(text, ExcitedKeywords[k]) {
        assert |ExcitedKeywords[k]| > 0;
      }
      forall k | 0 <= k < |SadKeywords| ensures !Contains(text, SadKeywords[k]) {
        assert |SadKeywords[k]| > 0;
      }
    }
  }

  /** Every label of the table and the default are MOOD_STYLES keys. */
  lemma EveryMoodHasStyle()
    ensures DefaultMood in MoodStyles
    ensures forall i :: 0 <= i < |MoodKeywords| ==> MoodKeywords[i].0 in MoodStyles
    ensures forall i :: 0 <= i < |MoodKeywords| ==> StyleFor(MoodStyles, MoodKeywords[i].0).Some?
  {
  }

  /** The timeline entry `detect_mood` makes of one transcription. */
  function EntryFor(t: Transcription): TimelineEntry {
    TimelineEntry(t.start, t.end, MoodOf(t.text), t.text)
  }

  /** The moods along a timeline. */
  function Moods(timeline: seq<TimelineEntry>): (r: seq<string>)
    ensures |r| == |timeline|
    ensures forall i :: 0 <= i < |timeline| ==> r[i] == timeline[i].mood
  {
    seq(|timeline|, i requires 0 <= i < |timeline| => timeline[i].mood)
  }

  /**
   * `detect_mood`: one entry per transcription, in order, keeping its start,
   * end and text and adding the mood of the first keyword bucket that hits,
   * "boring" when none does.
   */
  method DetectMood(transcriptions: seq<Transcription>) returns (timeline: seq<TimelineEntry>)
    ensures |timeline| == |transcriptions|
    ensures forall n :: 0 <= n < |transcriptions| ==>
      && timeline[n].start == transcriptions[n].start
      && timeline[n].end == transcriptions[n].end
      && timeline[n].text == transcriptions[n].text
      && timeline[n].mood == MoodOf(transcriptions[n].text)
  {
    timeline := [];
    for n := 0 to |transcriptions|
      invariant |timeline| == n
      invariant forall m :: 0 <= m < n ==> timeline[m] == EntryFor(transcriptions[m])
    {
      var text := transcriptions[n].text;
      var detectedMood := DefaultMood;
      var j := 0;
      while j < |MoodKeywords|
        invariant 0 <= j <= |MoodKeywords|
        invariant detectedMood == DefaultMood
        invariant forall k :: 0 <= k < j ==> !HasKeyword(MoodKeywords[k].1, text)
      {
        if HasKeyword(MoodKeywords[j].1, text) {
          FirstMatchPriority(MoodKeywords, text, j);
          detectedMood := MoodKeywords[j].0;
          break;
        }
        j := j + 1;
      }
      assert detectedMood == MoodOf(text);
      timeline := timeline + [TimelineEntry(transcriptions[n].start, transcriptions[n].end, detectedMood, text)];
    }
  }

  /** The entries at positions `idx`, in that order. */
  function Pick(timeline: seq<TimelineEntry>, idx: seq<nat>): seq<TimelineEntry>
    requires forall j :: 0 <= j < |idx| ==> idx[j] < |timeline|
  {
    seq(|idx|, j requires 0 <= j < |idx| => timeline[idx[j]])
  }

  /** The entries the change filter keeps: those whose mood differs from the one before. */
  function SwitchEntries(timeline: seq<TimelineEntry>): seq<TimelineEntry> {
    Pick(timeline, SwitchIndices(None, Moods(timeline)))
  }

  /**
   * What the change filter keeps, stated without the filter: entry `i` is
   * kept iff it is the first entry or its mood differs from entry `i - 1`'s;
   * the first entry of a non-empty timeline is always kept; no two
   * consecutive kept entries share a mood; there is one more kept entry than
   * adjacent mood changes; and the kept moods are the change-only rule's
   * output on the timeline's moods.
   */
  lemma SwitchEntriesSpec(timeline: seq<TimelineEntry>)
    ensures forall i :: 0 <= i < |timeline| ==>
      (i in SwitchIndices(None, Moods(timeline)) <==> i == 0 || timeline[i - 1].mood != timeline[i].mood)
    ensures Moods(SwitchEntries(timeline)) == Switched(None, Moods(timeline))
    ensures timeline != [] ==> SwitchEntries(timeline) != [] && SwitchEntries(timeline)[0] == timeline[0]
    ensures |SwitchEntries(timeline)| == if timeline == [] then 0 else 1 + AdjacentChanges(Moods(timeline))
    ensures var kept := SwitchEntries(timeline);
      forall j :: 0 <= j < |kept| - 1 ==> kept[j].mood != kept[j + 1].mood
  {
    var ms := Moods(timeline);
    SwitchCount(ms);
    SwitchedNoRepeat(None, ms);
    SwitchedAtIndices(None, ms);
    assert Moods(SwitchEntries(timeline)) == Switched(None, ms);
  }

  /** The change-only rule over the first `i + 1` moods, given its run over the first `i`. */
  lemma MoodsPrefixSnoc(timeline: seq<TimelineEntry>, i: nat)
    requires i < |timeline|
    ensures Moods(timeline)[..i + 1] == Moods(timeline)[..i] + [timeline[i].mood]
    ensures SwitchIndices(None, Moods(timeline)[..i + 1])
         == SwitchIndices(None, Moods(timeline)[..i])
            + (if i == 0 || timeline[i - 1].mood != timeline[i].mood then [i] else [])
  {
    var ms := Moods(timeline);
    assert ms[..i + 1] == ms[..i] + [ms[i]];
    SwitchIndicesSnoc(None, ms[..i], ms[i]);
  }

  /**
   * The state of the script loop after `i` entries: `idx` are the change
   * positions among them and `written` holds the entries at those positions.
   */
  predicate ScriptSoFar(timeline: seq<TimelineEntry>, i: nat, idx: seq<nat>, written: seq<TimelineEntry>) {
    && i <= |timeline|
    && idx == SwitchIndices(None, Moods(timeline)[..i])
    && |written| == |idx|
    && forall j :: 0 <= j < |idx| ==> idx[j] < |timeline| && written[j] == timeline[idx[j]]
  }

  /** Before the loop nothing is written. */
  lemma ScriptStart(timeline: seq<TimelineEntry>)
    ensures ScriptSoFar(timeline, 0, [], [])
  {
    assert Moods(timeline)[..0] == [];
  }

  /** One step of the loop: entry `i` is written iff it is first or its mood differs from entry `i - 1`'s. */
  lemma ScriptStep(timeline: seq<TimelineEntry>, i: nat, idx: seq<nat>, written: seq<TimelineEntry>)
    requires i < |timeline|
    requires ScriptSoFar(timeline, i, idx, written)
    ensures if i == 0 || timeline[i - 1].mood != timeline[i].mood
      then ScriptSoFar(timeline, i + 1, idx + [i], written + [timeline[i]])
      else ScriptSoFar(timeline, i + 1, idx, written)
  {
    MoodsPrefixSnoc(timeline, i);
    if !(i == 0 || timeline[i - 1].mood != timeline[i].mood) {
      assert idx + [] == idx;
    }
  }

  /** After the whole timeline the written entries are the switch entries. */
  lemma ScriptDone(timeline: seq<TimelineEntry>, idx: seq<nat>, written: seq<TimelineEntry>)
    requires ScriptSoFar(timeline, |timeline|, idx, written)
    ensures written == SwitchEntries(timeline)
  {
    assert Moods(timeline)[..|timeline|] == Moods(timeline);
  }

  /**
   * `generate_mood_change_script`: walking the timeline with `current_mood`
   * starting at None, it writes an entry (its start, its mood and its text as
   * the trigger) exactly when the entry's mood differs from `current_mood`,
   * which then becomes that mood. The entries written are returned.
   */
  method GenerateMoodChangeScript(timeline: seq<TimelineEntry>) returns (written: seq<TimelineEntry>)
    ensures written == SwitchEntries(timeline)
  {
    written := [];
    var currentMood: Option<string> := None;
    ghost var idx: seq<nat> := [];
    ScriptStart(timeline);
    for i := 0 to |timeline|
      invariant currentMood == if i == 0 then None else Some(timeline[i - 1].mood)
      invariant ScriptSoFar(timeline, i, idx, written)
    {
      ScriptStep(timeline, i, idx, written);
      if Some(timeline[i].mood) != currentMood {
        written := written + [timeline[i]];
        idx := idx + [i];
        currentMood := Some(timeline[i].mood);
      }
    }
    ScriptDone(timeline, idx, written);
  }

  /**
   * The replay loop of the second `main`: with `current_mood` starting at
   * None, `update_stream_mood` is called with an entry's mood exactly when it
   * differs from `current_mood`. The moods sent are returned, in call order.
   */
  method ReplayMoodChanges(timeline: seq<TimelineEntry>) returns (sent: seq<string>)
    ensures sent == Switched(None, Moods(timeline))
  {
    sent := [];
    var currentMood: Option<string> := None;
    ghost var ms := Moods(timeline);
    assert ms[..0] == [];
    for i := 0 to |timeline|
      invariant currentMood == if i == 0 then None else Some(timeline[i - 1].mood)
      invariant sent == Switched(None, ms[..i])
    {
      assert ms[..i + 1] == ms[..i] + [ms[i]];
      SwitchedSnoc(None, ms[..i], ms[i]);
      if Some(timeline[i].mood) != currentMood {
        sent := sent + [timeline[i].mood];
        currentMood := Some(timeline[i].mood);
      }
    }
    assert ms[..|timeline|] == ms;
  }

  /**
   * The replay calls `update_stream_mood` for exactly the entries the
   * change script lists, in the same order; every mood it sends has a style.
   */
  lemma ReplayMatchesScript(transcriptions: seq<Transcription>, timeline: seq<TimelineEntry>)
    requires |timeline| == |transcriptions|
    requires forall n :: 0 <= n < |timeline| ==> timeline[n].mood == MoodOf(transcriptions[n].text)
    ensures Switched(None, Moods(timeline)) == Moods(SwitchEntries(timeline))
    ensures forall j :: 0 <= j < |Switched(None, Moods(timeline))| ==>
      Switched(None, Moods(timeline))[j] in MoodStyles
  {
    SwitchEntriesSpec(timeline);
    var ms := Moods(timeline);
    var idx := SwitchIndices(None, ms);
    var sw := Switched(None, ms);
    SwitchedAtIndices(None, ms);
    forall j | 0 <= j < |sw|
      ensures sw[j] in MoodStyles
    {
      assert sw[j] == timeline[idx[j]].mood == MoodOf(transcriptions[idx[j]].text);
    }
  }
}
