/**
 * The keyword-priority mood classifier shared by all scripts: walk the
 * MOOD_KEYWORDS items in order and take the first mood one of whose keywords
 * occurs in the text as a substring.
 */
module Classifier {
  import opened Options
  import opened PyText
  import opened MoodConfig

  /** The label the live scripts fall back to. */
  const Neutral: string := "neutral"

  /** Python's `any(keyword in text for keyword in keywords)`. */
  predicate HasKeyword(keywords: seq<string>, text: string) {
    exists k :: 0 <= k < |keywords| && Contains(text, keywords[k])
  }

  /** Bucket `i` is the first bucket of `table` with a keyword in `text`. */
  predicate FirstHitAt(table: KeywordTable, text: string, i: int) {
    && 0 <= i < |table|
    && HasKeyword(table[i].1, text)
    && forall j :: 0 <= j < i ==> !HasKeyword(table[j].1, text)
  }

  /**
   * The loop over `MOOD_KEYWORDS.items()` that returns (or breaks with) the
   * first mood whose keyword list hits; `None` when the loop runs out.
   */
  function FirstMatch(table: KeywordTable, text: string): (r: Option<string>)
    ensures r.None? <==> forall i :: 0 <= i < |table| ==> !HasKeyword(table[i].1, text)
    ensures r.Some? ==> exists i :: FirstHitAt(table, text, i) && r.value == table[i].0
    decreases |table|
  {
    if table == [] then None
    else if HasKeyword(table[0].1, text) then
      assert FirstHitAt(table, text, 0);
      Some(table[0].0)
    else
      var r := FirstMatch(table[1..], text);
      assert forall i :: 1 <= i < |table| ==> table[i] == table[1..][i - 1];
      if r.Some? then
        var i :| FirstHitAt(table[1..], text, i) && r.value == table[1..][i].0;
        assert FirstHitAt(table, text, i + 1);
        r
      else
        r
  }

  /**
   * Priority, the converse of FirstMatch's contract: when bucket `i` is the
   * first bucket that hits, its mood is the answer, whatever later buckets hit.
   */
  lemma {:induction false} FirstMatchPriority(table: KeywordTable, text: string, i: int)
    requires FirstHitAt(table, text, i)
    ensures FirstMatch(table, text) == Some(table[i].0)
    decreases |table|
  {
    if i > 0 {
      assert !HasKeyword(table[0].1, text);
      assert forall j :: 0 <= j < i - 1 ==> table[1..][j] == table[j + 1];
      assert FirstHitAt(table[1..], text, i - 1);
      FirstMatchPriority(table[1..], text, i - 1);
    }
  }

  /**
   * `detect_mood_from_text` of the live scripts: empty text is "neutral",
   * otherwise the first matching bucket, else "neutral".
   */
  function DetectFromText(table: KeywordTable, text: string): (mood: string)
    ensures mood == Neutral || exists i :: FirstHitAt(table, text, i) && mood == table[i].0
  {
    if text == [] then Neutral
    else FirstMatch(table, text).GetOr(Neutral)
  }

  /**
   * `detect_mood_from_text` as the scripts run it: "neutral" for empty text,
   * else a walk over the table's items returning the first mood with a
   * keyword in the text, else "neutral".
   */
  method Detect(table: KeywordTable, text: string) returns (mood: string)
    ensures mood == DetectFromText(table, text)
  {
    if text == [] {
      return Neutral;
    }
    for i := 0 to |table|
      invariant forall j :: 0 <= j < i ==> !HasKeyword(table[j].1, text)
    {
      if HasKeyword(table[i].1, text) {
        FirstMatchPriority(table, text, i);
        return table[i].0;
      }
    }
    return Neutral;
  }

  /**
   * What `detect_mood_from_text` answers, case by case: "neutral" for empty
   * text and for text no keyword occurs in, and otherwise the mood of the
   * first bucket in table order with a keyword in the text.
   */
  lemma DetectFromTextSpec(table: KeywordTable, text: string)
    ensures text == [] ==> DetectFromText(table, text) == Neutral
    ensures (forall i :: 0 <= i < |table| ==> !HasKeyword(table[i].1, text))
      ==> DetectFromText(table, text) == Neutral
    ensures forall i ::
              text != [] && FirstHitAt(table, text, i) ==> DetectFromText(table, text) == table[i].0
  {
    forall i | text != [] && FirstHitAt(table, text, i)
      ensures DetectFromText(table, text) == table[i].0
    {
      FirstMatchPriority(table, text, i);
    }
  }

  /**
   * Shadowing: when a keyword `short` of bucket `i` occurs inside a keyword
   * `long`, every text containing `long` is decided by bucket `i` or an earlier
   * one, so `long` can only win for its own bucket if that bucket comes first.
   */
  lemma Shadowed(table: KeywordTable, text: string, i: int, short: string, long: string)
    requires 0 <= i < |table| && short in table[i].1
    requires Contains(long, short) && Contains(text, long)
    ensures FirstMatch(table, text).Some?
    ensures exists k ::
              0 <= k <= i && FirstHitAt(table, text, k) && FirstMatch(table, text).value == table[k].0
  {
    ContainsTransitive(text, long, short);
    var idx :| 0 <= idx < |table[i].1| && table[i].1[idx] == short;
    assert HasKeyword(table[i].1, text);
    var r := FirstMatch(table, text);
    var k :| FirstHitAt(table, text, k) && r.value == table[k].0;
    assert k <= i;
  }

  /**
   * Referential completeness: when the default and every label of the table
   * have a MOOD_STYLES entry, so does every answer of the classifier.
   */
  lemma DetectedHasStyle(table: KeywordTable, styles: StyleTable, text: string)
    requires Neutral in styles
    requires forall i :: 0 <= i < |table| ==> table[i].0 in styles
    ensures DetectFromText(table, text) in styles
    ensures StyleFor(styles, DetectFromText(table, text)).Some?
  {
  }
}
