/**
 * The timestamp log of the player (src/App.js): an ordered list of captured
 * times, grown by the "Add timestamp" command, shrunk by the Remove button of
 * a row, and rendered with a duration column.
 */
module TimestampLog {

  /** Adding a timestamp: a new array holding the previous entries followed by `t`. */
  function Append(log: seq<real>, t: real): (r: seq<real>)
    ensures |r| == |log| + 1
    ensures r[..|log|] == log && r[|log|] == t
  {
    log + [t]
  }

  /** The position `splice(index, 1)` starts at: a negative index counts from the end, and it is clamped to the length. */
  function SpliceStart(len: nat, index: int): (k: nat)
    ensures k <= len
    ensures 0 <= index <= len ==> k == index
    ensures index < 0 && len + index >= 0 ==> k == len + index
    ensures index < 0 && len + index < 0 ==> k == 0
    ensures index > len ==> k == len
  {
    if index < 0 then (if len + index < 0 then 0 else len + index)
    else if index > len then len
    else index
  }

  /** The Remove button of row `index`: a clone of the log spliced with `splice(index, 1)`. */
  function RemoveAt(log: seq<real>, index: int): (r: seq<real>)
    ensures 0 <= index < |log| ==> |r| == |log| - 1
    ensures 0 <= index < |log| ==> forall j :: 0 <= j < index ==> r[j] == log[j]
    ensures 0 <= index < |log| ==> forall j :: index <= j < |r| ==> r[j] == log[j + 1]
    ensures index >= |log| ==> r == log
  {
    var k := SpliceStart(|log|, index);
    if k < |log| then log[..k] + log[k + 1..] else log
  }

  /** Removing a row and putting its entry back at the same place gives the old log: exactly entry `i` is removed. */
  lemma RemoveAtReinserts(log: seq<real>, i: int)
    requires 0 <= i < |log|
    ensures RemoveAt(log, i)[..i] + [log[i]] + RemoveAt(log, i)[i..] == log
    ensures multiset(RemoveAt(log, i)) + multiset{log[i]} == multiset(log)
  {
    var r := RemoveAt(log, i);
    assert r[..i] == log[..i];
    assert r[i..] == log[i + 1..];
    assert log == log[..i] + [log[i]] + log[i + 1..];
  }

  /** The duration cell of a row: `--` for the first row, otherwise the distance from the previous entry. */
  datatype Duration = NoPredecessor | Elapsed(seconds: real)

  function DurationAt(log: seq<real>, index: nat): Duration
    requires index < |log|
  {
    if index == 0 then NoPredecessor else Elapsed(log[index] - log[index - 1])
  }

  /** The duration column the table renders, one cell per entry, in order. */
  function Durations(log: seq<real>): (col: seq<Duration>)
    ensures |col| == |log|
    ensures forall i :: 0 <= i < |log| ==> col[i] == DurationAt(log, i)
  {
    if |log| == 0 then [] else Durations(log[..|log| - 1]) + [DurationAt(log, |log| - 1)]
  }

  /** Row 0 has no predecessor; row i > 0 shows exactly `t[i] - t[i-1]`. */
  lemma DurationColumnCells(log: seq<real>, i: nat)
    requires i < |log|
    ensures i == 0 ==> Durations(log)[i] == NoPredecessor
    ensures i > 0 ==> Durations(log)[i] == Elapsed(log[i] - log[i - 1])
  {
  }

  /** After removing row i, the rows before i keep their duration cells. */
  lemma DurationsBeforeRemoved(log: seq<real>, i: nat, j: nat)
    requires j < i < |log|
    ensures Durations(RemoveAt(log, i))[j] == Durations(log)[j]
  {
    var r := RemoveAt(log, i);
    assert |r| == |log| - 1;
    assert Durations(r)[j] == DurationAt(r, j);
    assert Durations(log)[j] == DurationAt(log, j);
  }

  /**
   * After removing row i, the entry that moves into place i is measured from
   * the entry before the removed one, or shows `--` when it becomes the first row.
   */
  lemma DurationAtRemoved(log: seq<real>, i: nat)
    requires i < |log| - 1
    ensures Durations(RemoveAt(log, i))[i] == if i == 0 then NoPredecessor else Elapsed(log[i + 1] - log[i - 1])
  {
    var r := RemoveAt(log, i);
    assert |r| == |log| - 1;
    assert Durations(r)[i] == DurationAt(r, i);
    if i > 0 {
      assert r[i] == log[i + 1] && r[i - 1] == log[i - 1];
    }
  }

  /** After removing row i, the later rows keep the cells they had one row down. */
  lemma DurationsAfterRemoved(log: seq<real>, i: nat, j: nat)
    requires i < j < |log| - 1
    ensures Durations(RemoveAt(log, i))[j] == Durations(log)[j + 1]
  {
    var r := RemoveAt(log, i);
    assert |r| == |log| - 1;
    assert Durations(r)[j] == DurationAt(r, j);
    assert Durations(log)[j + 1] == DurationAt(log, j + 1);
    assert r[j] == log[j + 1] && r[j - 1] == log[j];
  }

  /** Sum of the elapsed cells of a column. */
  function TotalElapsed(col: seq<Duration>): real {
    if col == [] then 0.0
    else TotalElapsed(col[..|col| - 1]) + (match col[|col| - 1] case NoPredecessor => 0.0 case Elapsed(d) => d)
  }

  /** The durations of a non-empty log add up to the span from its first entry to its last. */
  lemma {:induction false} DurationsSpan(log: seq<real>)
    requires |log| > 0
    ensures TotalElapsed(Durations(log)) == log[|log| - 1] - log[0]
  {
    var n := |log|;
    if n == 1 {
      assert Durations(log) == [NoPredecessor];
      assert Durations(log)[..0] == [];
    } else {
      var p := log[..n - 1];
      DurationsSpan(p);
      var col := Durations(log);
      assert col == Durations(p) + [Elapsed(log[n - 1] - log[n - 2])];
      assert col[..n - 1] == Durations(p);
    }
  }

  /** The example of a three-entry log: removing the middle row leaves a three-second gap. */
  lemma RemoveMiddleExample()
    ensures RemoveAt([1.0, 2.5, 4.0], 1) == [1.0, 4.0]
    ensures Durations(RemoveAt([1.0, 2.5, 4.0], 1)) == [NoPredecessor, Elapsed(3.0)]
  {
    assert RemoveAt([1.0, 2.5, 4.0], 1) == [1.0, 4.0];
  }
}
