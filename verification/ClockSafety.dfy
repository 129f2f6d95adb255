/** Window safety when the clock may step back: for which limits and windows it survives, and that
    pruning is the only reason it can fail. */
module ClockSafety {
  import opened SlidingWindow

  // ---------------------------------------------------------------- without pruning

  /** Every timestamp in a window that contains `now` is live at `now`. */
  lemma {:induction false} WindowIsLive(ts: seq<real>, x: real, w: int, now: real)
    requires x <= now < x + w as real
    ensures InWindow(ts, x, w) <= |Live(ts, now, w)|
  {
    if |ts| > 0 {
      WindowIsLive(ts[..|ts| - 1], x, w, now);
    }
  }

  /** The limiter that never forgets keeps every window, on every clock. */
  lemma {:induction false} UnforgettingWindowSafe(k: nat, w: int, arrivals: seq<real>)
    ensures WindowSafe(Unforgetting(k, w, arrivals), k, w)
  {
    if |arrivals| > 0 {
      hide Live;
      var before, now := arrivals[..|arrivals| - 1], arrivals[|arrivals| - 1];
      var h := Unforgetting(k, w, before);
      UnforgettingWindowSafe(k, w, before);
      assert (h + [now])[..|h|] == h;
      forall x: real ensures InWindow(Unforgetting(k, w, arrivals), x, w) <= k {
        assert InWindow(h, x, w) <= k;
        if x <= now < x + w as real {
          WindowIsLive(h, x, w, now);
        }
      }
    }
  }

  // ---------------------------------------------------------------- where the code is safe

  /** With a limit of one the stored list is the last admission, however long ago that was. */
  lemma {:induction false} OneIsRemembered(w: int, arrivals: seq<real>)
    requires w > 0
    ensures var h := Accepted(1, w, arrivals);
            && Stored(1, w, arrivals) == (if |h| == 0 then [] else [h[|h| - 1]])
            && Sorted(h) && Spaced(h, 1, w)
  {
    if |arrivals| > 0 {
      hide Sorted, Spaced;
      var before, now := arrivals[..|arrivals| - 1], arrivals[|arrivals| - 1];
      OneIsRemembered(w, before);
      var h := Accepted(1, w, before);
      OneDecision(h, now, w);
      SpacedSnoc(h, now, 1, w);
      if Admits(1, w, Stored(1, w, before), now) && |h| > 0 {
        SortedEnd(h, now);
      }
      if |h| == 0 {
        assert h + [now] == [now];
        SortedOne(now);
      }
    } else {
      assert Sorted([]) && Spaced([], 1, w);
    }
  }

  lemma OneDecision(h: seq<real>, now: real, w: int)
    ensures |h| > 0 ==>
              Live([h[|h| - 1]], now, w) == if now - h[|h| - 1] < w as real then [h[|h| - 1]] else []
  {
    if |h| > 0 {
      assert [] + [h[|h| - 1]] == [h[|h| - 1]];
      LiveSnoc([], h[|h| - 1], now, w);
    }
  }

  lemma SortedOne(now: real)
    ensures Sorted([now])
  {
  }

  lemma SortedEnd(h: seq<real>, now: real)
    requires Sorted(h) && |h| > 0 && h[|h| - 1] <= now
    ensures Sorted(h + [now])
  {
    forall y | y in h ensures y <= now {
      var i :| 0 <= i < |h| && h[i] == y;
    }
    SortedSnoc(h, now);
  }

  lemma {:induction false} NothingBetween(ts: seq<real>, lo: real, hi: real)
    requires hi <= lo
    ensures Count(ts, lo, hi) == 0
  {
    if |ts| > 0 {
      NothingBetween(ts[..|ts| - 1], lo, hi);
    }
  }

  // ---------------------------------------------------------------- where it is not

  function Zeros(n: nat): seq<real> {
    seq(n, _ => 0.0)
  }

  lemma ZerosSnoc(n: nat)
    requires n > 0
    ensures Zeros(n) == Zeros(n - 1) + [0.0]
  {
  }

  /** Requests at time 0 are admitted until the limit is reached. */
  lemma {:induction false} ZerosAdmitted(k: nat, w: int, n: nat)
    requires w > 0 && n <= k
    ensures Stored(k, w, Zeros(n)) == Accepted(k, w, Zeros(n)) == Unforgetting(k, w, Zeros(n)) == Zeros(n)
    ensures InWindow(Zeros(n), 0.0, w) == n
  {
    if n > 0 {
      hide Stored, Accepted, Unforgetting, Live;
      ZerosAdmitted(k, w, n - 1);
      ZerosSnoc(n);
      AllLive(Zeros(n - 1), 0.0, w);
      RunSnoc(k, w, Zeros(n - 1), 0.0);
      assert (Zeros(n - 1) + [0.0])[..n - 1] == Zeros(n - 1);
    }
  }

  lemma CountSnoc(ts: seq<real>, t: real, lo: real, hi: real)
    ensures Count(ts + [t], lo, hi) == Count(ts, lo, hi) + if lo <= t < hi then 1 else 0
  {
    assert (ts + [t])[..|ts|] == ts;
  }

  /** The run that breaks every limit of two or more: fill the window, wait for it to pass, and step
      back to its start. */
  function StepBack(k: nat, w: int): seq<real> {
    Zeros(k) + [w as real] + [0.0]
  }

  /** The code admits the whole run, so that its first window holds one admission too many; the limiter
      that never forgets refuses the last request. */
  lemma ClockStepBackBreaksSafety(k: nat, w: int)
    requires k >= 2 && w > 0
    ensures Accepted(k, w, StepBack(k, w)) == StepBack(k, w)
    ensures InWindow(StepBack(k, w), 0.0, w) == k + 1
    ensures !WindowSafe(Accepted(k, w, StepBack(k, w)), k, w)
    ensures Unforgetting(k, w, StepBack(k, w)) == Zeros(k) + [w as real]
  {
    hide Stored, Accepted, Unforgetting, Live;
    var zeros, late := Zeros(k), Zeros(k) + [w as real];
    ZerosAdmitted(k, w, k);
    NothingLive(zeros, w as real, w);
    RunSnoc(k, w, zeros, w as real);
    assert [] + [w as real] == [w as real];
    AllLive([w as real], 0.0, w);
    AllLive(late, 0.0, w);
    RunSnoc(k, w, late, 0.0);
    assert late + [] == late;
    CountSnoc(zeros, w as real, 0.0, w as real);
    CountSnoc(late, 0.0, 0.0, w as real);
  }

  /** The clock need not be nondecreasing exactly when the limit is at most one or the window has no
      length: for all other settings some sequence of clock readings breaks a window. */
  lemma SafeOnEveryClockExactly(k: nat, w: int)
    ensures (forall arrivals :: WindowSafe(Accepted(k, w, arrivals), k, w)) <==> k <= 1 || w <= 0
  {
    hide Accepted, Stored, Sorted, Spaced;
    if k <= 1 || w <= 0 {
      forall arrivals ensures WindowSafe(Accepted(k, w, arrivals), k, w) {
        if w <= 0 {
          forall x: real ensures InWindow(Accepted(k, w, arrivals), x, w) <= k {
            NothingBetween(Accepted(k, w, arrivals), x, x + w as real);
          }
        } else if k == 0 {
          NothingAdmitted(k, w, arrivals);
        } else {
          OneIsRemembered(w, arrivals);
          SpacedIffWindowSafe(Accepted(1, w, arrivals), 1, w);
        }
      }
    } else {
      ClockStepBackBreaksSafety(k, w);
    }
  }
}
