/**
 The meaning of averaging trials: for every index (time, node, age, state)
 the mean over the trials of that index's total, laid out in the first
 trial's row order.
 */
module Averaging {
  import opened TimeSeries

  /** Every trial table has distinct keys and the same key set as the first: pandas aligns nothing. */
  predicate Consistent(frames: seq<Frame>) {
    forall i :: 0 <= i < |frames| ==> UniqueKeys(frames[i]) && KeySet(frames[i]) == KeySet(frames[0])
  }

  /** The total of index `k` summed over the first `n` trials, first trial first. */
  function SumAt(frames: seq<Frame>, k: Key, n: nat): real
    requires n <= |frames|
  {
    if n == 0 then 0.0 else SumAt(frames, k, n - 1) + TotalAt(frames[n - 1], k)
  }

  /** The averaged table: the first trial's rows, each total replaced by the mean of its key's totals. */
  function MeanFrame(frames: seq<Frame>): Frame
    requires |frames| > 0
  {
    var first := frames[0];
    seq(|first|, j requires 0 <= j < |first| =>
      first[j].(total := SumAt(frames, first[j].IndexKey(), |frames|) / (|frames| as real)))
  }

  /** The averaged table has exactly the first trial's keys, each once, in the first trial's order. */
  lemma MeanKeys(frames: seq<Frame>)
    requires |frames| > 0 && UniqueKeys(frames[0])
    ensures |MeanFrame(frames)| == |frames[0]|
    ensures forall j :: 0 <= j < |frames[0]| ==> MeanFrame(frames)[j].IndexKey() == frames[0][j].IndexKey()
    ensures UniqueKeys(MeanFrame(frames))
    ensures KeySet(MeanFrame(frames)) == KeySet(frames[0])
  {
    var m, first := MeanFrame(frames), frames[0];
    assert forall j :: 0 <= j < |m| ==> m[j].IndexKey() == first[j].IndexKey();
    assert IndexOf(m) == IndexOf(first);
  }

  /** Looked up by key, the averaged table holds that key's sum over all trials divided by the trial count. */
  lemma MeanAtKey(frames: seq<Frame>, k: Key)
    requires |frames| > 0 && UniqueKeys(frames[0])
    requires k in KeySet(frames[0])
    ensures TotalAt(MeanFrame(frames), k) == SumAt(frames, k, |frames|) / (|frames| as real)
  {
    MeanKeys(frames);
    var m := MeanFrame(frames);
    var j :| 0 <= j < |frames[0]| && frames[0][j].IndexKey() == k;
    TotalAtRow(m, j);
  }

  /** `n` trials that all produced the same table `f`. */
  function Copies(f: Frame, n: nat): seq<Frame> {
    seq(n, _ => f)
  }

  /** `t` added to itself `n` times. */
  function Repeated(t: real, n: nat): real {
    if n == 0 then 0.0 else Repeated(t, n - 1) + t
  }

  /** Adding `t` to itself `n > 0` times and dividing by `n` gives back `t`. */
  lemma RepeatedMean(t: real, n: nat)
    requires n > 0
    ensures Repeated(t, n) / (n as real) == t
  {
    RepeatedIsProduct(t, n);
  }

  lemma {:induction false} RepeatedIsProduct(t: real, n: nat)
    ensures Repeated(t, n) == (n as real) * t
  {
    if n > 0 {
      RepeatedIsProduct(t, n - 1);
    }
  }

  /** Summing the totals of `n` copies of one table adds its total `n` times. */
  lemma {:induction false} SumOfCopies(f: Frame, n: nat, m: nat, k: Key)
    requires m <= n
    ensures SumAt(Copies(f, n), k, m) == Repeated(TotalAt(f, k), m)
  {
    if m > 0 {
      SumOfCopies(f, n, m - 1, k);
    }
  }

  /** Averaging `n >= 1` identical trials returns that trial's table unchanged. */
  lemma MeanOfCopies(f: Frame, n: nat)
    requires n >= 1 && UniqueKeys(f)
    ensures Consistent(Copies(f, n))
    ensures MeanFrame(Copies(f, n)) == f
  {
    var m := MeanFrame(Copies(f, n));
    forall j | 0 <= j < |f|
      ensures m[j] == f[j]
    {
      var k := f[j].IndexKey();
      TotalAtRow(f, j);
      SumOfCopies(f, n, n, k);
      RepeatedMean(f[j].total, n);
    }
  }

  /** A single trial averages to itself: the averaging path and the one-trial path agree. */
  lemma MeanOfOne(f: Frame)
    requires UniqueKeys(f)
    ensures Consistent([f])
    ensures MeanFrame([f]) == f
  {
    MeanOfCopies(f, 1);
    assert Copies(f, 1) == [f];
  }

  /** One node, one age group, compartments S and I at time 0, `infected` of 1000 people infected. */
  function OutbreakAtStart(infected: real): Frame {
    [Row(0, "region", "[17,70)", "S", 1000.0 - infected), Row(0, "region", "[17,70)", "I", infected)]
  }

  /** Three trials that infect 10, 20 and 30 people average to 980 susceptible and 20 infected. */
  lemma ThreeTrialAverage()
    ensures Consistent([OutbreakAtStart(10.0), OutbreakAtStart(20.0), OutbreakAtStart(30.0)])
    ensures MeanFrame([OutbreakAtStart(10.0), OutbreakAtStart(20.0), OutbreakAtStart(30.0)])
         == [Row(0, "region", "[17,70)", "S", 980.0), Row(0, "region", "[17,70)", "I", 20.0)]
  {
    var frames := [OutbreakAtStart(10.0), OutbreakAtStart(20.0), OutbreakAtStart(30.0)];
    var s, i := (0, "region", "[17,70)", "S"), (0, "region", "[17,70)", "I");
    assert s != i by { assert s.3[0] != i.3[0]; }
    forall x: real ensures TotalAt(OutbreakAtStart(x), s) == 1000.0 - x && TotalAt(OutbreakAtStart(x), i) == x {
      var f := OutbreakAtStart(x);
      assert f[0].IndexKey() == s && f[1].IndexKey() == i;
      assert f[1..][1..] == [];
    }
    assert SumAt(frames, s, 3) == 2940.0;
    assert SumAt(frames, i, 3) == 60.0;
  }
}
