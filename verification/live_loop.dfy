/**
 * The `while True` loop of the live scripts' `main`: each cycle takes an
 * audio chunk, transcribes it, classifies the text, and only when the mood
 * differs from the current one calls the script's effects for the new mood
 * and makes it current. The recogniser, the rendering service and the other
 * effects are outside; a cycle is modelled by what they returned.
 */
module LiveLoop {
  import opened Options
  import opened MoodConfig
  import opened Classifier
  import opened Debounce
  import opened Transcript
  import AudioCapture

  /** The effect calls a script makes for a mood. */
  datatype Effect =
    | StreamUpdate   // update_stream_mood
    | OverlayUpdate  // update_obs_overlays
    | MusicChange    // music_player.play_mood

  datatype Call = Call(effect: Effect, mood: string)

  /** A live script: its keyword table and the effects it calls for a mood, in call order. */
  datatype LiveScript = LiveScript(keywords: KeywordTable, fanout: seq<Effect>)

  /** What one cycle gets from the outside world. */
  datatype Observation = Observation(
    chunk: Option<seq<AudioCapture.Sample>>,  // the result of get_audio_chunk
    segments: seq<string>,                    // the recogniser's segment texts for that chunk
    streamAccepted: bool)                     // what update_stream_mood returns, if it is called

  /** The script's effect calls for `mood`, in order. */
  function Dispatch(fanout: seq<Effect>, mood: string): (r: seq<Call>)
  {
    seq(|fanout|, k requires 0 <= k < |fanout| => Call(fanout[k], mood))
  }

  /** The effect calls for a sequence of moods, one dispatch after the other. */
  function DispatchAll(fanout: seq<Effect>, moods: seq<string>): seq<Call>
    decreases |moods|
  {
    if moods == [] then []
    else DispatchAll(fanout, moods[..|moods| - 1]) + Dispatch(fanout, moods[|moods| - 1])
  }

  /** The cycle reaches the classifier: a non-empty chunk and a non-empty transcript. */
  predicate Heard(o: Observation) {
    o.chunk.Some? && |o.chunk.value| > 0 && TranscribeText(o.segments) != []
  }

  /** The mood a heard cycle classifies to. */
  function HeardMood(s: LiveScript, o: Observation): string
    requires Heard(o)
  {
    DetectFromText(s.keywords, TranscribeText(o.segments))
  }

  /** The moods classified by the heard cycles, in order. */
  function HeardMoods(s: LiveScript, cycles: seq<Observation>): (r: seq<string>)
    ensures |r| <= |cycles|
    decreases |cycles|
  {
    if cycles == [] then []
    else
      var n := |cycles| - 1;
      HeardMoods(s, cycles[..n]) + (if Heard(cycles[n]) then [HeardMood(s, cycles[n])] else [])
  }

  /** The loop's state: `current_mood` and the effect calls made so far. */
  datatype LoopState = LoopState(mood: string, calls: seq<Call>)

  /** One cycle of the loop from `current_mood == mood`. */
  function Step(s: LiveScript, mood: string, o: Observation): LoopState {
    if Heard(o) && HeardMood(s, o) != mood then
      LoopState(HeardMood(s, o), Dispatch(s.fanout, HeardMood(s, o)))
    else
      LoopState(mood, [])
  }

  /** The cycles run one after the other from `current_mood == start`. */
  function Run(s: LiveScript, start: string, cycles: seq<Observation>): LoopState
    decreases |cycles|
  {
    if cycles == [] then LoopState(start, [])
    else
      var n := |cycles| - 1;
      var before := Run(s, start, cycles[..n]);
      var step := Step(s, before.mood, cycles[n]);
      LoopState(step.mood, before.calls + step.calls)
  }

  /**
   * `current_mood` after the loop is the mood of the last heard cycle, or
   * the starting mood when no cycle was heard: a missing or empty chunk and
   * an empty transcript never change it.
   */
  lemma {:induction false} RunMoodIsLastHeard(s: LiveScript, start: string, cycles: seq<Observation>)
    ensures var heard := HeardMoods(s, cycles);
      Run(s, start, cycles).mood == if heard == [] then start else heard[|heard| - 1]
    decreases |cycles|
  {
    if cycles != [] {
      RunMoodIsLastHeard(s, start, cycles[..|cycles| - 1]);
    }
  }

  /** Dispatching one more mood appends its calls. */
  lemma DispatchAllSnoc(fanout: seq<Effect>, moods: seq<string>, x: string)
    ensures DispatchAll(fanout, moods + [x]) == DispatchAll(fanout, moods) + Dispatch(fanout, x)
  {
    assert (moods + [x])[..|moods|] == moods;
  }

  /**
   * One more cycle, on the labels alone: a heard mood `x` is appended to the
   * heard moods, and its calls are appended iff it differs from the mood held.
   */
  lemma SwitchStep(fanout: seq<Effect>, start: string, heard: seq<string>, held: string,
                   calls: seq<Call>, x: Option<string>)
    requires held == if heard == [] then start else heard[|heard| - 1]
    requires calls == DispatchAll(fanout, Switched(Some(start), heard))
    ensures var heard' := heard + (if x.Some? then [x.value] else []);
      var calls' := calls + (if x.Some? && x.value != held then Dispatch(fanout, x.value) else []);
      calls' == DispatchAll(fanout, Switched(Some(start), heard'))
  {
    var sw := Switched(Some(start), heard);
    if x.Some? {
      SwitchedSnoc(Some(start), heard, x.value);
      assert Previous(Some(start), heard + [x.value], |heard|) == Some(held);
      if x.value != held {
        DispatchAllSnoc(fanout, sw, x.value);
      } else {
        assert sw + [] == sw;
        assert calls + [] == calls;
      }
    } else {
      assert heard + [] == heard;
      assert calls + [] == calls;
    }
  }

  /**
   * The effects are called exactly for the changes of the classified mood,
   * starting from `start`: once per switch, with the new mood, in order, and
   * never for a repeated classification.
   */
  lemma {:induction false} RunDispatchesSwitches(s: LiveScript, start: string, cycles: seq<Observation>)
    ensures Run(s, start, cycles).calls == DispatchAll(s.fanout, Switched(Some(start), HeardMoods(s, cycles)))
    decreases |cycles|
  {
    if cycles != [] {
      var n := |cycles| - 1;
      var front := cycles[..n];
      var o := cycles[n];
      RunDispatchesSwitches(s, start, front);
      RunMoodIsLastHeard(s, start, front);
      var before := Run(s, start, front);
      var x := if Heard(o) then Some(HeardMood(s, o)) else None;
      SwitchStep(s.fanout, start, HeardMoods(s, front), before.mood, before.calls, x);
      assert HeardMoods(s, cycles) == HeardMoods(s, front) + (if x.Some? then [x.value] else []);
      assert Run(s, start, cycles).calls
          == before.calls + (if x.Some? && x.value != before.mood then Dispatch(s.fanout, x.value) else []);
    }
  }

  /** Two runs over cycles that differ only in what the rendering service answered. */
  predicate SameButStreamAnswers(cycles: seq<Observation>, cycles': seq<Observation>) {
    && |cycles| == |cycles'|
    && forall i :: 0 <= i < |cycles| ==>
         cycles[i].chunk == cycles'[i].chunk && cycles[i].segments == cycles'[i].segments
  }

  /**
   * A failed stream update (`update_stream_mood` returning False) changes
   * nothing: the remaining effect calls of that change are still made and
   * the mood still becomes current, so the whole run is the same. This holds
   * because the loop calls `update_stream_mood` as a statement and discards
   * its return value; `Step` accordingly never reads `streamAccepted`.
   */
  lemma {:induction false} StreamAnswerIgnored(s: LiveScript, start: string,
                                                cycles: seq<Observation>, cycles': seq<Observation>)
    requires SameButStreamAnswers(cycles, cycles')
    ensures Run(s, start, cycles) == Run(s, start, cycles')
    decreases |cycles|
  {
    if cycles != [] {
      var n := |cycles| - 1;
      assert SameButStreamAnswers(cycles[..n], cycles'[..n]);
      StreamAnswerIgnored(s, start, cycles[..n], cycles'[..n]);
      assert Heard(cycles[n]) == Heard(cycles'[n]);
    }
  }

  /** Running one more cycle is one more step. */
  lemma RunSnoc(s: LiveScript, start: string, cycles: seq<Observation>, i: nat)
    requires i < |cycles|
    ensures var before := Run(s, start, cycles[..i]);
      var step := Step(s, before.mood, cycles[i]);
      Run(s, start, cycles[..i + 1]) == LoopState(step.mood, before.calls + step.calls)
  {
    assert cycles[..i + 1][..i] == cycles[..i];
  }

  /**
   * One pass of the loop body: a chunk that is missing or empty, or an empty
   * transcript, is skipped; otherwise the text is classified, and a mood that
   * differs from `currentMood` is dispatched and becomes current.
   */
  method Cycle(s: LiveScript, currentMood: string, cycle: Observation)
    returns (nextMood: string, calls: seq<Call>)
    ensures LoopState(nextMood, calls) == Step(s, currentMood, cycle)
  {
    nextMood, calls := currentMood, [];
    if cycle.chunk.Some? && |cycle.chunk.value| > 0 {
      var text := TranscribeChunk(cycle.segments);
      if text != [] {
        var newMood := Detect(s.keywords, text);
        if newMood != currentMood {
          // the effects run in order; update_stream_mood's answer is not looked at
          calls := Dispatch(s.fanout, newMood);
          nextMood := newMood;
        }
      }
    }
  }

  /**
   * `main` from the start of recording: "neutral" is made current and
   * dispatched once, then the loop runs over the cycles.
   */
  method LiveMain(s: LiveScript, cycles: seq<Observation>) returns (currentMood: string, calls: seq<Call>)
    ensures currentMood == Run(s, Neutral, cycles).mood
    ensures calls == Dispatch(s.fanout, Neutral) + Run(s, Neutral, cycles).calls
  {
    currentMood := Neutral;
    var startup := Dispatch(s.fanout, currentMood);
    var loopCalls: seq<Call> := [];
    var i := 0;
    assert cycles[..0] == [];
    while i < |cycles|
      invariant i <= |cycles|
      invariant LoopState(currentMood, loopCalls) == Run(s, Neutral, cycles[..i])
    {
      RunSnoc(s, Neutral, cycles, i);
      var more;
      currentMood, more := Cycle(s, currentMood, cycles[i]);
      loopCalls := loopCalls + more;
      i := i + 1;
    }
    assert cycles[..i] == cycles;
    calls := startup + loopCalls;
  }

  /**
   * Three heard cycles classified `a`, `a`, `b` from a different starting
   * mood dispatch exactly twice: `a` once (the repeat is absorbed), then `b`.
   */
  lemma TwoSwitches(s: LiveScript, start: string, cycles: seq<Observation>, a: string, b: string)
    requires |cycles| == 3 && forall i :: 0 <= i < 3 ==> Heard(cycles[i])
    requires HeardMood(s, cycles[0]) == a && HeardMood(s, cycles[1]) == a && HeardMood(s, cycles[2]) == b
    requires start != a && a != b
    ensures Run(s, start, cycles) == LoopState(b, Dispatch(s.fanout, a) + Dispatch(s.fanout, b))
  {
    var da, db := Dispatch(s.fanout, a), Dispatch(s.fanout, b);
    assert cycles[..0] == [];
    RunSnoc(s, start, cycles, 0);
    assert Step(s, start, cycles[0]) == LoopState(a, da);
    assert Run(s, start, cycles[..1]) == LoopState(a, [] + da);
    assert [] + da == da;
    RunSnoc(s, start, cycles, 1);
    assert Step(s, a, cycles[1]) == LoopState(a, []);
    assert da + [] == da;
    assert Run(s, start, cycles[..2]) == LoopState(a, da);
    RunSnoc(s, start, cycles, 2);
    assert Step(s, a, cycles[2]) == LoopState(b, db);
    assert cycles[..3] == cycles;
  }
}
