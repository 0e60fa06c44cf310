/** packages/cli-supervisor/src/retry.ts: the sliding window that turns repeated failures fatal. */
module Retry {

  /** The window's own pruning: drop from the front while the oldest timestamp is before the cutoff. */
  function DropStale(history: seq<int>, cutoff: int): seq<int> {
    if history == [] || history[0] >= cutoff then history else DropStale(history[1..], cutoff)
  }

  /** What `record` leaves in the history at time `now`. */
  function Recorded(history: seq<int>, windowMs: int, now: int): seq<int> {
    DropStale(history + [now], now - windowMs)
  }

  /** The history after recording every timestamp of `log`, oldest first, since a reset. */
  function Replay(log: seq<int>, windowMs: int): seq<int> {
    if log == [] then [] else Recorded(Replay(log[..|log| - 1], windowMs), windowMs, log[|log| - 1])
  }

  /** The timestamps of a log that lie inside a window starting at `cutoff`, in order. */
  function Within(log: seq<int>, cutoff: int): seq<int> {
    if log == [] then []
    else (if log[0] >= cutoff then [log[0]] else []) + Within(log[1..], cutoff)
  }

  ghost predicate Nondecreasing(log: seq<int>) {
    forall i, j :: 0 <= i < j < |log| ==> log[i] <= log[j]
  }

  lemma {:induction false} WithinAppend(a: seq<int>, b: seq<int>, cutoff: int)
    ensures Within(a + b, cutoff) == Within(a, cutoff) + Within(b, cutoff)
  {
    if a == [] {
      assert a + b == b;
    } else {
      assert (a + b)[1..] == a[1..] + b;
      WithinAppend(a[1..], b, cutoff);
    }
  }

  lemma {:induction false} ReplayGrows(log: seq<int>, windowMs: int, now: int)
    ensures Replay(log + [now], windowMs) == Recorded(Replay(log, windowMs), windowMs, now)
  {
    assert (log + [now])[..|log|] == log;
  }

  // When the window is right. Entry `n` of a log is recorded with the cutoff `log[n] - windowMs`.

  /** The window is exactly the recent timestamps after every record. */
  ghost predicate AlwaysExact(log: seq<int>, windowMs: int) {
    forall n :: 0 <= n < |log| ==> ExactAt(log, windowMs, n)
  }

  ghost predicate ExactAt(log: seq<int>, windowMs: int, n: nat)
    requires n < |log|
  {
    Replay(log[..n + 1], windowMs) == Within(log[..n + 1], log[n] - windowMs)
  }

  /** At every record the entries too old for its window are the first ones of the log, and an entry
      that was too old for an earlier window is too old for this one. */
  ghost predicate Steady(log: seq<int>, windowMs: int) {
    forall n :: 0 <= n < |log| ==> OldComeFirst(log, windowMs, n) && OldStayOld(log, windowMs, n)
  }

  ghost predicate OldComeFirst(log: seq<int>, windowMs: int, n: nat)
    requires n < |log|
  {
    forall i, j :: 0 <= i < j <= n && log[j] < log[n] - windowMs ==> log[i] < log[n] - windowMs
  }

  ghost predicate OldStayOld(log: seq<int>, windowMs: int, n: nat)
    requires n < |log|
  {
    forall i, m :: 0 <= i <= m <= n && log[i] < log[m] - windowMs ==> log[i] < log[n] - windowMs
  }

  /** The first index in a range whose timestamp is not before the cutoff, or its end. */
  function FirstRecent(log: seq<int>, start: nat, end: nat, cutoff: int): (k: nat)
    requires start <= end <= |log|
    ensures start <= k <= end
    ensures forall i :: start <= i < k ==> log[i] < cutoff
    ensures k < end ==> log[k] >= cutoff
    decreases end - start
  {
    if start < end && log[start] < cutoff then FirstRecent(log, start + 1, end, cutoff) else start
  }

  /** How many entries are gone start the history after the first `n` records. */
  function Dropped(log: seq<int>, windowMs: int, n: nat): (k: nat)
    requires n <= |log|
    ensures k <= n
  {
    if n == 0 then 0 else FirstRecent(log, Dropped(log, windowMs, n - 1), n, log[n - 1] - windowMs)
  }

  lemma {:induction false} DropStaleIsSuffix(log: seq<int>, start: nat, end: nat, cutoff: int)
    requires start <= end <= |log|
    ensures DropStale(log[start..end], cutoff) == log[FirstRecent(log, start, end, cutoff)..end]
    decreases end - start
  {
    if start < end && log[start] < cutoff {
      assert log[start..end][1..] == log[start + 1..end];
      DropStaleIsSuffix(log, start + 1, end, cutoff);
    }
  }

  ghost predicate Keeps(log: seq<int>, windowMs: int, start: nat, end: nat)
    requires start <= end <= |log|
  {
    Replay(log[..end], windowMs) == log[start..end]
  }

  lemma {:induction false} ReplayOneMore(log: seq<int>, windowMs: int, start: nat, n: nat)
    requires start <= n < |log| && Keeps(log, windowMs, start, n)
    ensures Keeps(log, windowMs, FirstRecent(log, start, n + 1, log[n] - windowMs), n + 1)
  {
    ReplayGrows(log[..n], windowMs, log[n]);
    assert log[..n] + [log[n]] == log[..n + 1];
    assert log[start..n] + [log[n]] == log[start..n + 1];
    DropStaleIsSuffix(log, start, n + 1, log[n] - windowMs);
  }

  /** The history is always what is left of the log when its first entries are dropped. */
  lemma {:induction false} ReplayIsSuffix(log: seq<int>, windowMs: int, n: nat)
    requires n <= |log|
    ensures Keeps(log, windowMs, Dropped(log, windowMs, n), n)
  {
    if n > 0 {
      ReplayIsSuffix(log, windowMs, n - 1);
      ReplayOneMore(log, windowMs, Dropped(log, windowMs, n - 1), n - 1);
    }
  }

  /** Among the first `n` entries `k` separates those before the cutoff from the others. */
  ghost predicate Separates(log: seq<int>, k: nat, n: nat, cutoff: int)
    requires k <= n <= |log|
  {
    && (forall i :: 0 <= i < k ==> log[i] < cutoff)
    && (forall i :: k <= i < n ==> log[i] >= cutoff)
  }

  /** What is left of a log is its filtering exactly when all that is gone is old and nothing left is. */
  lemma {:induction false} RestIsWithin(gone: seq<int>, rest: seq<int>, cutoff: int)
    ensures rest == Within(gone + rest, cutoff)
            <==> Within(gone, cutoff) == [] && Within(rest, cutoff) == rest
  {
    WithinAppend(gone, rest, cutoff);
    WithinIsRecent(gone, cutoff);
    WithinIsRecent(rest, cutoff);
    if rest == Within(gone, cutoff) + Within(rest, cutoff) {
      assert forall i :: 0 <= i < |rest| ==> rest[i] in Within(gone, cutoff) || rest[i] in Within(rest, cutoff);
      assert |Within(gone, cutoff)| == 0;
    }
  }

  lemma {:induction false} WithinIsRecent(log: seq<int>, cutoff: int)
    ensures |Within(log, cutoff)| <= |log|
    ensures forall x :: x in Within(log, cutoff) ==> x >= cutoff
    ensures Within(log, cutoff) == [] <==> forall i :: 0 <= i < |log| ==> log[i] < cutoff
    ensures Within(log, cutoff) == log <==> forall i :: 0 <= i < |log| ==> log[i] >= cutoff
  {
    if log != [] {
      WithinIsRecent(log[1..], cutoff);
      assert forall i :: 0 < i < |log| ==> log[1..][i - 1] == log[i];
      if log[0] >= cutoff {
        assert Within(log, cutoff) == [log[0]] + Within(log[1..], cutoff);
        assert log == [log[0]] + log[1..];
        assert Within(log, cutoff)[1..] == Within(log[1..], cutoff);
      }
    }
  }

  lemma {:induction false} RangeIsRecent(log: seq<int>, start: nat, end: nat, cutoff: int)
    requires start <= end <= |log|
    ensures Within(log[start..end], cutoff) == [] <==> forall i :: start <= i < end ==> log[i] < cutoff
    ensures Within(log[start..end], cutoff) == log[start..end]
            <==> forall i :: start <= i < end ==> log[i] >= cutoff
  {
    var part := log[start..end];
    WithinIsRecent(part, cutoff);
    assert forall i :: start <= i < end ==> part[i - start] == log[i];
  }

  lemma {:induction false} SplitIsSeparated(log: seq<int>, k: nat, n: nat, cutoff: int)
    requires k <= n <= |log|
    ensures log[k..n] == Within(log[..n], cutoff) <==> Separates(log, k, n, cutoff)
  {
    assert log[..n] == log[..k] + log[k..n];
    RestIsWithin(log[..k], log[k..n], cutoff);
    RangeIsRecent(log, 0, k, cutoff);
    RangeIsRecent(log, k, n, cutoff);
    assert log[0..k] == log[..k];
  }

  /** After record `n` the history is right exactly when what is gone separates old from recent. */
  lemma {:induction false} ExactWhenSeparated(log: seq<int>, windowMs: int, n: nat)
    requires n < |log|
    ensures ExactAt(log, windowMs, n)
            <==> Separates(log, Dropped(log, windowMs, n + 1), n + 1, log[n] - windowMs)
  {
    var k := Dropped(log, windowMs, n + 1);
    ReplayIsSuffix(log, windowMs, n + 1);
    SplitIsSeparated(log, k, n + 1, log[n] - windowMs);
  }

  lemma {:induction false} DroppedGrows(log: seq<int>, windowMs: int, m: nat, n: nat)
    requires m <= n <= |log|
    ensures Dropped(log, windowMs, m) <= Dropped(log, windowMs, n)
  {
    if m < n {
      DroppedGrows(log, windowMs, m, n - 1);
    }
  }

  lemma {:induction false} SteadySeparates(log: seq<int>, windowMs: int, n: nat)
    requires Steady(log, windowMs) && n < |log|
    ensures Separates(log, Dropped(log, windowMs, n + 1), n + 1, log[n] - windowMs)
  {
    assert OldComeFirst(log, windowMs, n) && OldStayOld(log, windowMs, n);
    if n > 0 {
      SteadySeparates(log, windowMs, n - 1);
    }
  }

  lemma {:induction false} SeparatedAt(log: seq<int>, windowMs: int, n: nat)
    requires AlwaysExact(log, windowMs) && n < |log|
    ensures Separates(log, Dropped(log, windowMs, n + 1), n + 1, log[n] - windowMs)
  {
    assert ExactAt(log, windowMs, n);
    ExactWhenSeparated(log, windowMs, n);
  }

  lemma {:induction false} ExactIsSteadyAt(log: seq<int>, windowMs: int, n: nat)
    requires AlwaysExact(log, windowMs) && n < |log|
    ensures OldComeFirst(log, windowMs, n) && OldStayOld(log, windowMs, n)
  {
    SeparatedAt(log, windowMs, n);
    forall i, m | 0 <= i <= m <= n && log[i] < log[m] - windowMs
      ensures log[i] < log[n] - windowMs
    {
      SeparatedAt(log, windowMs, m);
      DroppedGrows(log, windowMs, m + 1, n + 1);
    }
  }

  /** The window holds exactly the timestamps since the last reset that are at most `windowMs` old,
      after every record, if and only if the log is steady. */
  lemma {:induction false} ExactExactlyWhenSteady(log: seq<int>, windowMs: int)
    ensures AlwaysExact(log, windowMs) <==> Steady(log, windowMs)
  {
    forall n | 0 <= n < |log| && Steady(log, windowMs)
      ensures ExactAt(log, windowMs, n)
    {
      SteadySeparates(log, windowMs, n);
      ExactWhenSeparated(log, windowMs, n);
    }
    forall n | 0 <= n < |log| && AlwaysExact(log, windowMs)
      ensures OldComeFirst(log, windowMs, n) && OldStayOld(log, windowMs, n)
    {
      ExactIsSteadyAt(log, windowMs, n);
    }
  }

  /** A clock that never steps back is steady for every length of the window. */
  lemma {:induction false} WindowIsExact(log: seq<int>, windowMs: int)
    requires Nondecreasing(log)
    ensures Steady(log, windowMs) && AlwaysExact(log, windowMs)
  {
    ExactExactlyWhenSteady(log, windowMs);
  }

  lemma {:induction false} ReplayThree(a: int, b: int, c: int, windowMs: int)
    ensures Replay([a, b, c], windowMs)
            == Recorded(Recorded(Recorded([], windowMs, a), windowMs, b), windowMs, c)
  {
    ReplayGrows([], windowMs, a);
    ReplayGrows([a], windowMs, b);
    ReplayGrows([a, b], windowMs, c);
    assert [] + [a] == [a] && [a] + [b] == [a, b] && [a, b] + [c] == [a, b, c];
  }

  lemma {:induction false} WithinThree(a: int, b: int, c: int, cutoff: int)
    ensures Within([a, b, c], cutoff) == Within([a], cutoff) + Within([b], cutoff) + Within([c], cutoff)
  {
    WithinAppend([a], [b], cutoff);
    WithinAppend([a, b], [c], cutoff);
    assert [a] + [b] == [a, b] && [a, b] + [c] == [a, b, c];
  }

  /** A clock that steps back can break the count both ways: a late entry can hide behind a newer
      one, and an entry dropped early is not brought back. */
  lemma SteppedBackClockMiscounts()
    ensures |Replay([100, 50, 105], 10)| == 3 && |Within([100, 50, 105], 105 - 10)| == 2
    ensures |Replay([0, 100, 5], 10)| == 2 && |Within([0, 100, 5], 5 - 10)| == 3
  {
    ReplayThree(100, 50, 105, 10);
    WithinThree(100, 50, 105, 95);
    ReplayThree(0, 100, 5, 10);
    assert Recorded([], 10, 0) == [0];
    assert DropStale([100], 90) == [100] && ([0] + [100])[1..] == [100];
    assert DropStale([0] + [100], 90) == DropStale([100], 90);
    assert Recorded([0], 10, 100) == [100];
    assert Recorded([100], 10, 5) == [100, 5];
    WithinThree(0, 100, 5, -5);
  }

  /** One record more: the history replays the log, and on a steady log it is the window. */
  lemma {:induction false} RecordIsExact(log: seq<int>, windowMs: int, now: int)
    ensures Replay(log + [now], windowMs) == Recorded(Replay(log, windowMs), windowMs, now)
    ensures Steady(log + [now], windowMs)
            ==> Recorded(Replay(log, windowMs), windowMs, now) == Within(log + [now], now - windowMs)
  {
    ReplayGrows(log, windowMs, now);
    ExactExactlyWhenSteady(log + [now], windowMs);
    assert (log + [now])[..|log| + 1] == log + [now];
    assert Steady(log + [now], windowMs) ==> ExactAt(log + [now], windowMs, |log|);
  }

  /** The class itself; `log` is what has been recorded since the last reset. */
  class FailureWindow {
    var historyMs: seq<int>
    const windowMs: int
    const threshold: int
    ghost var log: seq<int>

    ghost predicate Valid()
      reads this
    {
      historyMs == Replay(log, windowMs)
    }

    constructor (windowMs: int, threshold: int)
      ensures Valid() && log == [] && this.windowMs == windowMs && this.threshold == threshold
    {
      this.windowMs := windowMs;
      this.threshold := threshold;
      historyMs := [];
      log := [];
    }

    method Record(nowMs: int) returns (over: bool)
      modifies this
      ensures log == old(log) + [nowMs]
      ensures historyMs == Recorded(old(historyMs), windowMs, nowMs)
      ensures over <==> |historyMs| >= threshold
      ensures old(Valid()) ==> Valid()
      ensures old(Valid()) && Steady(log, windowMs) ==> (over <==> |Within(log, nowMs - windowMs)| >= threshold)
    {
      historyMs := historyMs + [nowMs];
      Trim(nowMs - windowMs);
      log := log + [nowMs];
      over := |historyMs| >= threshold;
      if old(Valid()) {
        RecordIsExact(old(log), windowMs, nowMs);
      }
    }

    /** Drops what is too old from the front. */
    method Trim(cutoff: int)
      modifies this`historyMs
      ensures historyMs == DropStale(old(historyMs), cutoff)
    {
      while |historyMs| > 0
        invariant DropStale(historyMs, cutoff) == DropStale(old(historyMs), cutoff)
        decreases |historyMs|
      {
        var earliest := historyMs[0];
        if earliest >= cutoff {
          break;
        }
        historyMs := historyMs[1..];
      }
    }

    method Reset()
      modifies this
      ensures Valid() && log == [] && historyMs == []
    {
      historyMs := [];
      log := [];
    }
  }
}
