/**
 * The string part of `transcribe_chunk`: the recogniser's segment texts are
 * lower-cased, each followed by a space, and the whole is stripped.
 */
module Transcript {
  import opened PyText

  /** The text the loop `text += segment.text.lower() + " "` builds. */
  function Accumulate(segments: seq<string>): string
    decreases |segments|
  {
    if segments == [] then ""
    else
      var n := |segments| - 1;
      Accumulate(segments[..n]) + Lower(segments[n]) + " "
  }

  /** `transcribe_chunk`'s result for the given segment texts. */
  function TranscribeText(segments: seq<string>): string {
    Strip(Accumulate(segments))
  }

  /** Python's `" ".join(parts)`. */
  function JoinWithSpace(parts: seq<string>): string
    decreases |parts|
  {
    if parts == [] then ""
    else if |parts| == 1 then parts[0]
    else
      var n := |parts| - 1;
      JoinWithSpace(parts[..n]) + " " + parts[n]
  }

  /** Every segment text lower-cased. */
  function LowerAll(segments: seq<string>): (r: seq<string>)
  {
    seq(|segments|, k requires 0 <= k < |segments| => Lower(segments[k]))
  }

  /** The accumulated text is the lower-cased segments joined by single spaces, plus one space. */
  lemma {:induction false} AccumulateIsJoin(segments: seq<string>)
    requires segments != []
    ensures Accumulate(segments) == JoinWithSpace(LowerAll(segments)) + " "
    decreases |segments|
  {
    var n := |segments| - 1;
    var front := segments[..n];
    assert LowerAll(segments)[..n] == LowerAll(front);
    if n > 0 {
      AccumulateIsJoin(front);
    }
  }

  /**
   * What `transcribe_chunk` returns: the lower-cased segment texts joined by
   * single spaces and stripped, "" when there are no segments, and never
   * starting or ending with whitespace.
   */
  lemma TranscribeTextSpec(segments: seq<string>)
    ensures TranscribeText(segments) == Strip(JoinWithSpace(LowerAll(segments)))
    ensures segments == [] ==> TranscribeText(segments) == ""
    ensures var t := TranscribeText(segments);
      t != [] ==> !IsSpace(t[0]) && !IsSpace(t[|t| - 1])
  {
    if segments != [] {
      AccumulateIsJoin(segments);
      StripTrailingSpace(JoinWithSpace(LowerAll(segments)), ' ');
    }
    StripEnds(Accumulate(segments));
  }

  /**
   * `transcribe_chunk` after the recogniser has run: the loop appends each
   * lower-cased segment text and a space, and the result is stripped.
   */
  method TranscribeChunk(segments: seq<string>) returns (text: string)
    ensures text == TranscribeText(segments)
    ensures text == Strip(JoinWithSpace(LowerAll(segments)))
    ensures segments == [] ==> text == ""
    ensures text != [] ==> !IsSpace(text[0]) && !IsSpace(text[|text| - 1])
  {
    var acc := "";
    for i := 0 to |segments|
      invariant acc == Accumulate(segments[..i])
    {
      assert segments[..i + 1][..i] == segments[..i];
      acc := acc + Lower(segments[i]) + " ";
    }
    assert segments[..|segments|] == segments;
    text := Strip(acc);
    TranscribeTextSpec(segments);
  }
}
