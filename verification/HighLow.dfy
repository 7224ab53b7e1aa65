/** Rolling highest high and lowest low (src/indicators/high_low.py). */
module HighLow {
  import opened Wrappers
  import opened Seqs

  /** Highest of the last `lookback` values, if there are that many. */
  function HighestHigh(highs: seq<real>, lookback: int): Result<Option<real>>
  {
    if lookback <= 0 then Err(ValueError)
    else if |highs| < lookback then Ok(None)
    else Ok(Some(MaxOf(highs[|highs| - lookback..])))
  }

  function LowestLow(lows: seq<real>, lookback: int): Result<Option<real>>
  {
    if lookback <= 0 then Err(ValueError)
    else if |lows| < lookback then Ok(None)
    else Ok(Some(MinOf(lows[|lows| - lookback..])))
  }

  /** Highest high of the `lookback` bars before `index`. A non-positive lookback is not
      rejected here: it leaves an empty slice, on which `max` raises. */
  function PreviousRollingHighestHigh(highs: seq<real>, lookback: int, index: nat): Result<Option<real>>
  {
    if index < lookback || index > |highs| then Ok(None)
    else if lookback <= 0 then Err(ValueError)
    else Ok(Some(MaxOf(highs[index - lookback..index])))
  }

  function PreviousRollingLowestLow(lows: seq<real>, lookback: int, index: nat): Result<Option<real>>
  {
    if index < lookback || index > |lows| then Ok(None)
    else if lookback <= 0 then Err(ValueError)
    else Ok(Some(MinOf(lows[index - lookback..index])))
  }

  /** Bar `x` is at least as high as the bars from `from` up to it and strictly higher than
      the bars after it, up to `n`. */
  ghost predicate Peak(key: seq<real>, from: nat, x: nat, n: nat)
    requires n <= |key|
  {
    && from <= x < n
    && (forall i :: from <= i < x ==> key[i] <= key[x])
    && (forall i :: x < i < n ==> key[i] < key[x])
  }

  /** What the deque holds: the peaks of bars `from..to`, oldest first. Each entry stands for
      the stretch since the entry before it, and the stretches cover the range. */
  ghost predicate Peaks(window: seq<nat>, key: seq<real>, from: nat, to: nat, n: nat)
    requires n <= |key|
  {
    if window == [] then from == to
    else Peak(key, from, window[0], n) && Peaks(window[1..], key, window[0] + 1, to, n)
  }

  /** The start of the window after bar `n - 1`. */
  function WindowStart(n: nat, lookback: posint): nat
  {
    if n < lookback then 0 else n - lookback
  }

  /** The front of the deque is the maximum of the window. */
  lemma FrontIsMax(window: seq<nat>, key: seq<real>, lo: nat, n: nat)
    requires lo < n <= |key| && Peaks(window, key, lo, n, n)
    ensures |window| > 0 && window[0] < n && key[window[0]] == MaxOf(key[lo..n])
  {
    var x, w := window[0], key[lo..n];
    assert Peak(key, lo, x, n);
    forall j | 0 <= j < |w| ensures w[j] <= w[x - lo] {
      assert w[j] == key[lo + j];
    }
    MaxIs(w, x - lo);
  }

  /** The last entry ends the range; taking it off leaves the range before its stretch. */
  lemma {:induction false} DropBack(window: seq<nat>, key: seq<real>, from: nat, to: nat, n: nat) returns (mid: nat)
    requires n <= |key| && window != [] && Peaks(window, key, from, to, n)
    ensures Peaks(window[..|window| - 1], key, from, mid, n)
    ensures Peak(key, mid, window[|window| - 1], n) && to == window[|window| - 1] + 1
    ensures forall i :: mid <= i < to ==> key[i] <= key[window[|window| - 1]]
  {
    if |window| == 1 {
      mid := from;
    } else {
      mid := DropBack(window[1..], key, window[0] + 1, to, n);
      assert window[1..][..|window| - 2] == window[..|window| - 1][1..];
    }
  }

  /** Appending a bar that tops everything since the last entry, and is below that entry. */
  lemma {:induction false} Append(window: seq<nat>, key: seq<real>, from: nat, to: nat, n: nat)
    requires n < |key| && from <= to <= n && Peaks(window, key, from, to, n)
    requires forall i :: to <= i < n ==> key[i] <= key[n]
    requires window != [] ==> window[|window| - 1] < n && key[n] < key[window[|window| - 1]]
    ensures Peaks(window + [n], key, from, n + 1, n + 1)
  {
    if window == [] {
      assert [n][1..] == [];
    } else {
      var last := window[|window| - 1];
      if |window| > 1 {
        var mid := DropBack(window[1..], key, window[0] + 1, to, n);
        PeaksSpan(window[1..][..|window| - 2], key, window[0] + 1, mid, n);
        assert last == window[1..][|window| - 2] > window[0];
      }
      assert Peak(key, from, window[0], n + 1);
      assert (window + [n])[1..] == window[1..] + [n];
      Append(window[1..], key, window[0] + 1, to, n);
    }
  }

  lemma {:induction false} PeaksSpan(window: seq<nat>, key: seq<real>, from: nat, to: nat, n: nat)
    requires n <= |key| && Peaks(window, key, from, to, n)
    ensures from <= to
  {
    if window != [] {
      PeaksSpan(window[1..], key, window[0] + 1, to, n);
    }
  }

  lemma NoPeaks(key: seq<real>, lookback: posint)
    ensures Peaks([], key, WindowStart(0, lookback), 0, 0)
  {
  }

  /** What either pass must put at bar `i`. */
  function RollingHigh(highs: seq<real>, lookback: posint, i: nat): Option<real>
    requires i < |highs|
  {
    if i < lookback - 1 then None else Some(MaxOf(highs[i + 1 - lookback..i + 1]))
  }

  function RollingLow(lows: seq<real>, lookback: posint, i: nat): Option<real>
    requires i < |lows|
  {
    if i < lookback - 1 then None else Some(MinOf(lows[i + 1 - lookback..i + 1]))
  }

  /** The front loop: expired bars leave. */
  method Expire(window: seq<nat>, index: nat, lookback: posint, ghost key: seq<real>)
    returns (window': seq<nat>)
    requires index < |key| && Peaks(window, key, WindowStart(index, lookback), index, index)
    ensures |window'| <= |window|
    ensures Peaks(window', key, WindowStart(index + 1, lookback), index, index)
  {
    window' := window;
    ghost var from: nat := WindowStart(index, lookback);
    while |window'| > 0 && window'[0] <= index - lookback
      invariant |window'| <= |window|
      invariant Peaks(window', key, from, index, index)
      invariant from <= WindowStart(index + 1, lookback) <= index
    {
      from := window'[0] + 1;
      window' := window'[1..];
    }
  }

  /** The back loop and the append: bars the new one equals or beats leave. */
  method Displace(window: seq<nat>, index: nat, key: seq<real>, ghost from: nat)
    returns (window': seq<nat>)
    requires index < |key| && Peaks(window, key, from, index, index)
    ensures Peaks(window', key, from, index + 1, index + 1)
    ensures 0 < |window'| <= |window| + 1
  {
    hide Peak, Peaks;
    window' := window;
    ghost var to: nat := index;
    if |window'| > 0 {
      ghost var _ := DropBack(window', key, from, to, index);
    }
    while |window'| > 0 && key[window'[|window'| - 1]] <= key[index]
      invariant |window'| <= |window| && to <= index
      invariant |window'| > 0 ==> window'[|window'| - 1] < index
      invariant Peaks(window', key, from, to, index)
      invariant forall i :: to <= i < index ==> key[i] <= key[index]
    {
      to := DropBack(window', key, from, to, index);
      window' := window'[..|window'| - 1];
      if |window'| > 0 {
        ghost var _ := DropBack(window', key, from, to, index);
      }
    }
    PeaksSpan(window', key, from, to, index);
    Append(window', key, from, to, index);
    window' := window' + [index];
  }

  /** One bar of the highs pass, and what it appends to the result. */
  method PassHigh(window: seq<nat>, highs: seq<real>, lookback: posint, index: nat)
    returns (window': seq<nat>, v: Option<real>)
    requires index < |highs| && Peaks(window, highs, WindowStart(index, lookback), index, index)
    ensures Peaks(window', highs, WindowStart(index + 1, lookback), index + 1, index + 1)
    ensures |window'| <= |window| + 1
    ensures v == RollingHigh(highs, lookback, index)
  {
    var live := Expire(window, index, lookback, highs);
    window' := Displace(live, index, highs, WindowStart(index + 1, lookback));
    FrontIsMax(window', highs, WindowStart(index + 1, lookback), index + 1);
    v := if index < lookback - 1 then None else Some(highs[window'[0]]);
  }

  /** `rolling_highest_highs`. Each bar enters the deque once, so at most |highs| leave it. */
  method RollingHighestHighs(highs: seq<real>, lookback: int)
    returns (r: Result<seq<Option<real>>>, ghost pops: nat)
    ensures lookback <= 0 ==> r == Err(ValueError)
    ensures lookback > 0 ==> r.Ok? && |r.value| == |highs|
    ensures forall i :: lookback > 0 && 0 <= i < |highs| ==> r.value[i] == RollingHigh(highs, lookback, i)
    ensures pops <= |highs|
  {
    hide Peak, Peaks, RollingHigh, RollingLow, Mirror, WindowStart;
    pops := 0;
    if lookback <= 0 {
      return Err(ValueError), 0;
    }
    var window: seq<nat> := [];
    var result: seq<Option<real>> := [];
    NoPeaks(highs, lookback);
    for index := 0 to |highs|
      invariant |result| == index
      invariant Peaks(window, highs, WindowStart(index, lookback), index, index)
      invariant pops + |window| == index
      invariant forall i :: 0 <= i < index ==> result[i] == RollingHigh(highs, lookback, i)
    {
      var v;
      ghost var before := |window|;
      window, v := PassHigh(window, highs, lookback, index);
      pops := pops + (before + 1 - |window|);
      result := result + [v];
    }
    r := Ok(result);
  }

  /** The lows pass is the highs pass on the mirror image. */
  ghost predicate Mirror(key: seq<real>, lows: seq<real>)
  {
    |key| == |lows| && forall i :: 0 <= i < |lows| ==> key[i] == -lows[i]
  }

  lemma MirrorImage(lows: seq<real>) returns (key: seq<real>)
    ensures Mirror(key, lows)
  {
    key := seq(|lows|, i requires 0 <= i < |lows| => -lows[i]);
  }

  /** The back loop of the lows pass: bars the new one equals or undercuts leave. */
  method DisplaceLow(window: seq<nat>, index: nat, lows: seq<real>, ghost key: seq<real>, ghost from: nat)
    returns (window': seq<nat>)
    requires index < |key| && Mirror(key, lows) && Peaks(window, key, from, index, index)
    ensures Peaks(window', key, from, index + 1, index + 1)
    ensures 0 < |window'| <= |window| + 1
  {
    hide Peak, Peaks;
    window' := window;
    ghost var to: nat := index;
    if |window'| > 0 {
      ghost var _ := DropBack(window', key, from, to, index);
    }
    while |window'| > 0 && lows[window'[|window'| - 1]] >= lows[index]
      invariant |window'| <= |window| && to <= index
      invariant |window'| > 0 ==> window'[|window'| - 1] < index
      invariant Peaks(window', key, from, to, index)
      invariant forall i :: to <= i < index ==> key[i] <= key[index]
    {
      to := DropBack(window', key, from, to, index);
      window' := window'[..|window'| - 1];
      if |window'| > 0 {
        ghost var _ := DropBack(window', key, from, to, index);
      }
    }
    PeaksSpan(window', key, from, to, index);
    Append(window', key, from, to, index);
    window' := window' + [index];
  }

  /** On the mirror image the front of the deque is the minimum. */
  lemma FrontIsMin(window: seq<nat>, lows: seq<real>, key: seq<real>, lo: nat, n: nat)
    requires lo < n <= |lows| && Mirror(key, lows) && Peaks(window, key, lo, n, n)
    ensures |window| > 0 && window[0] < n && lows[window[0]] == MinOf(lows[lo..n])
  {
    var x, w := window[0], lows[lo..n];
    assert Peak(key, lo, x, n);
    forall j | 0 <= j < |w| ensures w[x - lo] <= w[j] {
      assert w[j] == lows[lo + j] == -key[lo + j];
    }
    MinIs(w, x - lo);
  }

  /** One bar of the lows pass, and what it appends to the result. */
  method PassLow(window: seq<nat>, lows: seq<real>, ghost key: seq<real>, lookback: posint, index: nat)
    returns (window': seq<nat>, v: Option<real>)
    requires index < |lows| && Mirror(key, lows)
    requires Peaks(window, key, WindowStart(index, lookback), index, index)
    ensures Peaks(window', key, WindowStart(index + 1, lookback), index + 1, index + 1)
    ensures |window'| <= |window| + 1
    ensures v == RollingLow(lows, lookback, index)
  {
    var live := Expire(window, index, lookback, key);
    window' := DisplaceLow(live, index, lows, key, WindowStart(index + 1, lookback));
    FrontIsMin(window', lows, key, WindowStart(index + 1, lookback), index + 1);
    v := if index < lookback - 1 then None else Some(lows[window'[0]]);
  }

  /** `rolling_lowest_lows`. */
  method RollingLowestLows(lows: seq<real>, lookback: int)
    returns (r: Result<seq<Option<real>>>, ghost pops: nat)
    ensures lookback <= 0 ==> r == Err(ValueError)
    ensures lookback > 0 ==> r.Ok? && |r.value| == |lows|
    ensures forall i :: lookback > 0 && 0 <= i < |lows| ==> r.value[i] == RollingLow(lows, lookback, i)
    ensures pops <= |lows|
  {
    hide Peak, Peaks, RollingHigh, RollingLow, Mirror, WindowStart;
    pops := 0;
    if lookback <= 0 {
      return Err(ValueError), 0;
    }
    ghost var key := MirrorImage(lows);
    var window: seq<nat> := [];
    var result: seq<Option<real>> := [];
    NoPeaks(key, lookback);
    for index := 0 to |lows|
      invariant |result| == index
      invariant Peaks(window, key, WindowStart(index, lookback), index, index)
      invariant pops + |window| == index
      invariant forall i :: 0 <= i < index ==> result[i] == RollingLow(lows, lookback, i)
    {
      var v;
      ghost var before := |window|;
      window, v := PassLow(window, lows, key, lookback, index);
      pops := pops + (before + 1 - |window|);
      result := result + [v];
    }
    r := Ok(result);
  }

  /** The one-pass result agrees with the two definitions that look at one bar at a time:
      `highest_high` on the prefix, and the "previous bars" form one index later. */
  lemma RollingHighMatchesPerBar(highs: seq<real>, lookback: posint, i: nat)
    requires i < |highs|
    ensures HighestHigh(highs[..i + 1], lookback) == Ok(RollingHigh(highs, lookback, i))
    ensures PreviousRollingHighestHigh(highs, lookback, i + 1) == Ok(RollingHigh(highs, lookback, i))
  {
    if i + 1 >= lookback {
      assert highs[..i + 1][i + 1 - lookback..] == highs[i + 1 - lookback..i + 1];
    }
  }

  lemma RollingLowMatchesPerBar(lows: seq<real>, lookback: posint, i: nat)
    requires i < |lows|
    ensures LowestLow(lows[..i + 1], lookback) == Ok(RollingLow(lows, lookback, i))
    ensures PreviousRollingLowestLow(lows, lookback, i + 1) == Ok(RollingLow(lows, lookback, i))
  {
    if i + 1 >= lookback {
      assert lows[..i + 1][i + 1 - lookback..] == lows[i + 1 - lookback..i + 1];
    }
  }
}
