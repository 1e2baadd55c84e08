/**
 * The change-only transition rule every script applies: act on a classified
 * mood only when it differs from the mood held so far. Over a whole sequence
 * of labels the rule picks out the positions where the label changes.
 */
module Debounce {
  import opened Options

  /** The label held just before position `i`: `last` before the first one. */
  function Previous(last: Option<string>, labels: seq<string>, i: int): Option<string>
    requires 0 <= i < |labels|
  {
    if i == 0 then last else Some(labels[i - 1])
  }

  /** Position `i` changes the held label. */
  predicate IsSwitch(last: Option<string>, labels: seq<string>, i: int)
    requires 0 <= i < |labels|
  {
    Previous(last, labels, i) != Some(labels[i])
  }

  /**
   * The positions at which the held label changes, in increasing order,
   * starting from the held label `last` (`None`: nothing held yet).
   */
  function SwitchIndices(last: Option<string>, labels: seq<string>): (r: seq<nat>)
    ensures forall j :: 0 <= j < |r| ==> r[j] < |labels|
    ensures forall j, k :: 0 <= j < k < |r| ==> r[j] < r[k]
    ensures forall i :: 0 <= i < |labels| ==> (i in r <==> IsSwitch(last, labels, i))
    decreases |labels|
  {
    if labels == [] then []
    else
      var n := |labels| - 1;
      var front := labels[..n];
      assert forall i :: 0 <= i < n ==> IsSwitch(last, front, i) == IsSwitch(last, labels, i);
      SwitchIndices(last, front) + (if IsSwitch(last, labels, n) then [n] else [])
  }

  /** The labels the rule acts on, in order: each label that changes the held one. */
  function Switched(last: Option<string>, labels: seq<string>): seq<string>
    decreases |labels|
  {
    if labels == [] then []
    else
      var n := |labels| - 1;
      Switched(last, labels[..n]) + (if IsSwitch(last, labels, n) then [labels[n]] else [])
  }

  /** The labels acted on are exactly the labels at the switch positions, in order. */
  lemma {:induction false} SwitchedAtIndices(last: Option<string>, labels: seq<string>)
    ensures |Switched(last, labels)| == |SwitchIndices(last, labels)|
    ensures forall j :: 0 <= j < |SwitchIndices(last, labels)| ==>
      Switched(last, labels)[j] == labels[SwitchIndices(last, labels)[j]]
    decreases |labels|
  {
    if labels != [] {
      var n := |labels| - 1;
      var front := labels[..n];
      assert forall i :: 0 <= i < n ==> IsSwitch(last, front, i) == IsSwitch(last, labels, i);
      SwitchedAtIndices(last, front);
      var idx := SwitchIndices(last, front);
      var tail := if IsSwitch(last, labels, n) then [n] else [];
      assert SwitchIndices(last, labels) == idx + tail;
      assert Switched(last, labels)
          == Switched(last, front) + (if IsSwitch(last, labels, n) then [labels[n]] else []);
      forall j | 0 <= j < |idx|
        ensures front[idx[j]] == labels[idx[j]]
      {
      }
    }
  }

  /** Number of adjacent positions of `labels` whose labels differ. */
  function AdjacentChanges(labels: seq<string>): nat
    decreases |labels|
  {
    if |labels| < 2 then 0
    else
      var n := |labels| - 1;
      AdjacentChanges(labels[..n]) + (if labels[n - 1] != labels[n] then 1 else 0)
  }

  /** Extending the labels by one extends the switch positions by at most that one. */
  lemma SwitchIndicesSnoc(last: Option<string>, labels: seq<string>, x: string)
    ensures SwitchIndices(last, labels + [x])
         == SwitchIndices(last, labels)
            + (if IsSwitch(last, labels + [x], |labels|) then [|labels|] else [])
  {
    assert (labels + [x])[..|labels|] == labels;
  }

  /** The same for the switched labels. */
  lemma SwitchedSnoc(last: Option<string>, labels: seq<string>, x: string)
    ensures Switched(last, labels + [x])
         == Switched(last, labels) + (if IsSwitch(last, labels + [x], |labels|) then [x] else [])
  {
    assert (labels + [x])[..|labels|] == labels;
  }

  /**
   * The label held after the rule has run over `labels` is the last label
   * seen, and equally the last label switched to: tracking "the last label
   * acted on" and "the previous label" is the same thing.
   */
  lemma {:induction false} SwitchedTracksLast(last: Option<string>, labels: seq<string>)
    requires labels != []
    ensures Switched(last, labels) == [] ==> last == Some(labels[|labels| - 1])
    ensures Switched(last, labels) != []
      ==> Switched(last, labels)[|Switched(last, labels)| - 1] == labels[|labels| - 1]
    decreases |labels|
  {
    var n := |labels| - 1;
    var front := labels[..n];
    assert labels == front + [labels[n]];
    SwitchedSnoc(last, front, labels[n]);
    if n > 0 && !IsSwitch(last, labels, n) {
      SwitchedTracksLast(last, front);
    }
  }

  /**
   * No two consecutive switches carry the same label, and the first one
   * differs from the label held at the start.
   */
  lemma {:induction false} SwitchedNoRepeat(last: Option<string>, labels: seq<string>)
    ensures var sw := Switched(last, labels);
      && (sw != [] ==> last != Some(sw[0]))
      && (forall j :: 0 <= j < |sw| - 1 ==> sw[j] != sw[j + 1])
    decreases |labels|
  {
    if labels != [] {
      var n := |labels| - 1;
      var front := labels[..n];
      assert labels == front + [labels[n]];
      SwitchedSnoc(last, front, labels[n]);
      SwitchedNoRepeat(last, front);
      var before := Switched(last, front);
      if IsSwitch(last, labels, n) {
        var sw := before + [labels[n]];
        assert Switched(last, labels) == sw;
        if n > 0 {
          SwitchedTracksLast(last, front);
        }
        forall j | 0 <= j < |sw| - 1
          ensures sw[j] != sw[j + 1]
        {
          if j == |before| - 1 {
            assert sw[j + 1] == labels[n];
          }
        }
      } else {
        assert Switched(last, labels) == before + [];
      }
    }
  }

  /**
   * From an empty start the first label always switches, and there are
   * exactly one more switches than adjacent label changes.
   */
  lemma {:induction false} SwitchCount(labels: seq<string>)
    ensures labels != [] ==> SwitchIndices(None, labels) != [] && SwitchIndices(None, labels)[0] == 0
    ensures |SwitchIndices(None, labels)| == if labels == [] then 0 else 1 + AdjacentChanges(labels)
    decreases |labels|
  {
    if labels != [] {
      var n := |labels| - 1;
      var front := labels[..n];
      assert labels == front + [labels[n]];
      SwitchIndicesSnoc(None, front, labels[n]);
      SwitchCount(front);
      assert IsSwitch(None, labels, 0);
      assert 0 in SwitchIndices(None, labels);
    }
  }
}
