/**
 The load stages of a benchmark laid out on a time axis, and the stage a moment belongs to. Exact reals
 stand for floating point; parsing a duration text is an input that may have failed.
 */
module StageWindows {
  import opened Prelude

  datatype Stage = Stage(duration: Option<real>, target: real)

  datatype Window = Window(index: nat, target: real, start: real, end: real)

  /** A stage counts when its duration could be read and is positive. */
  predicate Counts(stage: Stage) {
    stage.duration.Some? && stage.duration.value > 0.0
  }

  /** Windows follow one another from zero without gaps, in stage order. */
  ghost predicate Contiguous(windows: seq<Window>) {
    && (forall k :: 0 <= k < |windows| ==> windows[k].start < windows[k].end)
    && (windows != [] ==> windows[0].start == 0.0)
    && (forall j, k :: 0 <= j && k == j + 1 && k < |windows| ==> windows[k].start == windows[j].end)
    && (forall j, k :: 0 <= j < k < |windows| ==> windows[j].index < windows[k].index)
  }

  ghost predicate IsWindowOf(window: Window, stages: seq<Stage>) {
    && window.index < |stages|
    && Counts(stages[window.index])
    && window.target == stages[window.index].target
    && window.end - window.start == stages[window.index].duration.value
  }

  ghost predicate HasWindow(windows: seq<Window>, index: nat) {
    exists k :: 0 <= k < |windows| && windows[k].index == index
  }

  /** Where the next window starts. */
  function Cursor(windows: seq<Window>): real {
    if windows == [] then 0.0 else windows[|windows| - 1].end
  }

  lemma AppendContiguous(windows: seq<Window>, window: Window)
    requires Contiguous(windows) && window.start == Cursor(windows) && window.start < window.end
    requires forall k :: 0 <= k < |windows| ==> windows[k].index < window.index
    ensures Contiguous(windows + [window])
  {
    var all := windows + [window];
    forall j, k | 0 <= j < k < |all| ensures all[j].index < all[k].index {
      assert all[j] == windows[j];
    }
  }

  lemma AppendHasWindow(windows: seq<Window>, window: Window, index: nat)
    requires HasWindow(windows, index) || window.index == index
    ensures HasWindow(windows + [window], index)
  {
    var all := windows + [window];
    if window.index == index {
      assert all[|windows|].index == index;
    } else {
      var k :| 0 <= k < |windows| && windows[k].index == index;
      assert all[k].index == index;
    }
  }

  /** The windows are those of the first n stages. */
  ghost predicate Laid(windows: seq<Window>, stages: seq<Stage>, n: nat)
    requires n <= |stages|
  {
    && Contiguous(windows)
    && (forall k :: 0 <= k < |windows| ==> windows[k].index < n && IsWindowOf(windows[k], stages))
    && (forall i :: 0 <= i < n && Counts(stages[i]) ==> HasWindow(windows, i))
  }

  lemma LayNext(windows: seq<Window>, stages: seq<Stage>, n: nat, window: Window)
    requires n < |stages| && Laid(windows, stages, n)
    requires window.index == n && window.start == Cursor(windows) && IsWindowOf(window, stages)
    ensures Laid(windows + [window], stages, n + 1)
  {
    var all := windows + [window];
    AppendContiguous(windows, window);
    forall i | 0 <= i < n + 1 && Counts(stages[i]) ensures HasWindow(all, i) {
      AppendHasWindow(windows, window, i);
    }
    forall k | 0 <= k < |all| ensures all[k].index < n + 1 && IsWindowOf(all[k], stages) {
      assert all[k] == if k < |windows| then windows[k] else window;
    }
  }

  method BuildStageWindows(stages: seq<Stage>) returns (windows: seq<Window>)
    ensures Laid(windows, stages, |stages|)
  {
    windows := [];
    var cursor := 0.0;
    for i := 0 to |stages|
      invariant Laid(windows, stages, i) && cursor == Cursor(windows)
    {
      var seconds := stages[i].duration.GetOr(0.0);
      if seconds <= 0.0 {
        continue;
      }
      var window := Window(i, stages[i].target, cursor, cursor + seconds);
      LayNext(windows, stages, i, window);
      windows := windows + [window];
      cursor := window.end;
    }
  }

  /** The search from window k on; past the last end, the last stage. */
  ghost function StageFrom(windows: seq<Window>, k: nat, elapsed: real): Option<nat>
    requires k <= |windows| && windows != []
    decreases |windows| - k
  {
    var last := |windows| - 1;
    if k == |windows| then (if elapsed > windows[last].end then Some(windows[last].index) else None)
    else if windows[k].start <= elapsed && (elapsed < windows[k].end || (k == last && elapsed <= windows[k].end)) then
      Some(windows[k].index)
    else StageFrom(windows, k + 1, elapsed)
  }

  ghost function StageAt(windows: seq<Window>, elapsed: real): Option<nat> {
    if windows == [] || elapsed < 0.0 then None else StageFrom(windows, 0, elapsed)
  }

  method FindStageIndex(elapsed: real, windows: seq<Window>) returns (index: Option<nat>)
    ensures index == StageAt(windows, elapsed)
  {
    if |windows| < 1 || elapsed < 0.0 {
      return None;
    }
    var last := |windows| - 1;
    for i := 0 to |windows|
      invariant StageAt(windows, elapsed) == StageFrom(windows, i, elapsed)
    {
      if windows[i].start <= elapsed && (elapsed < windows[i].end || (i == last && elapsed <= windows[i].end)) {
        return Some(windows[i].index);
      }
    }
    return if elapsed > windows[last].end then Some(windows[last].index) else None;
  }

  /** Window k covers the moment; the last one has no end. */
  ghost predicate Covers(windows: seq<Window>, k: nat, elapsed: real)
    requires k < |windows|
  {
    windows[k].start <= elapsed && (elapsed < windows[k].end || k == |windows| - 1)
  }

  lemma {:induction false} StartsIncrease(windows: seq<Window>, j: nat, k: nat)
    requires Contiguous(windows) && j < k < |windows|
    ensures windows[j].end <= windows[k].start
  {
    if j + 1 < k {
      StartsIncrease(windows, j, k - 1);
    }
  }

  lemma {:induction false} SearchFinds(windows: seq<Window>, from: nat, k: nat, elapsed: real)
    requires Contiguous(windows) && from <= k < |windows| && Covers(windows, k, elapsed)
    ensures StageFrom(windows, from, elapsed) == Some(windows[k].index)
    decreases k - from
  {
    if from < k {
      StartsIncrease(windows, from, k);
      SearchFinds(windows, from + 1, k, elapsed);
    } else if elapsed > windows[k].end {
      assert StageFrom(windows, k + 1, elapsed) == Some(windows[k].index);
    }
  }

  lemma {:induction false} SomeWindowCovers(windows: seq<Window>, n: nat, elapsed: real) returns (k: nat)
    requires Contiguous(windows) && n < |windows| && elapsed >= 0.0
    requires n == |windows| - 1 || elapsed < windows[n].end
    ensures k <= n && Covers(windows, k, elapsed)
  {
    if windows[n].start <= elapsed {
      k := n;
    } else {
      k := SomeWindowCovers(windows, n - 1, elapsed);
    }
  }

  /** From the start on, every moment belongs to exactly one window, and the search returns that one's stage. */
  lemma EveryMomentHasOneStage(windows: seq<Window>, elapsed: real) returns (k: nat)
    requires Contiguous(windows) && windows != [] && elapsed >= 0.0
    ensures k < |windows| && Covers(windows, k, elapsed)
    ensures forall j :: 0 <= j < |windows| && Covers(windows, j, elapsed) ==> j == k
    ensures StageAt(windows, elapsed) == Some(windows[k].index)
  {
    k := SomeWindowCovers(windows, |windows| - 1, elapsed);
    SearchFinds(windows, 0, k, elapsed);
    forall j | 0 <= j < |windows| && Covers(windows, j, elapsed) ensures j == k {
      SearchFinds(windows, 0, j, elapsed);
    }
  }
}
