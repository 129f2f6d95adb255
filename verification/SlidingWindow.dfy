/** The arithmetic of one client's admission timestamps. */
module SlidingWindow {
  // `k` is `max_requests` and `w` is `window_seconds`; both are arbitrary integers, as in the
  // constructor of the middleware.  Times are reals.  Every function folds over the requests of
  // ONE client, oldest first, so the last element is the most recent request.


  // ---------------------------------------------------------------- the code's behaviour

  /** The list comprehension that prunes: the timestamps less than `w` seconds old at `now`. */
  function Live(ts: seq<real>, now: real, w: int): (live: seq<real>)
    ensures |live| <= |ts|
  {
    if |ts| == 0 then []
    else
      var rest := Live(ts[..|ts| - 1], now, w);
      var last := ts[|ts| - 1];
      if now - last < w as real then rest + [last] else rest
  }

  /** The decision on a request, given the list stored before it. */
  predicate Admits(k: int, w: int, stored: seq<real>, now: real) {
    |Live(stored, now, w)| < k
  }

  /** The list stored after a request. */
  function After(k: int, w: int, stored: seq<real>, now: real): seq<real> {
    if Admits(k, w, stored, now) then Live(stored, now, w) + [now] else Live(stored, now, w)
  }

  /** The list stored after a whole run of requests. */
  function Stored(k: int, w: int, arrivals: seq<real>): seq<real> {
    if |arrivals| == 0 then []
    else After(k, w, Stored(k, w, arrivals[..|arrivals| - 1]), arrivals[|arrivals| - 1])
  }

  /** Every admission of the run, including the ones the code has since pruned. */
  function Accepted(k: int, w: int, arrivals: seq<real>): (h: seq<real>)
    ensures |h| <= |arrivals|
  {
    if |arrivals| == 0 then []
    else
      var before := arrivals[..|arrivals| - 1];
      var now := arrivals[|arrivals| - 1];
      if Admits(k, w, Stored(k, w, before), now)
      then Accepted(k, w, before) + [now]
      else Accepted(k, w, before)
  }

  // ---------------------------------------------------------------- what is promised

  ghost predicate Sorted(ts: seq<real>) {
    forall i, j :: 0 <= i < j < |ts| ==> ts[i] <= ts[j]
  }

  /** How many timestamps lie in the half-open interval `[lo, hi)`. */
  function Count(ts: seq<real>, lo: real, hi: real): (n: nat)
    ensures n <= |ts|
  {
    if |ts| == 0 then 0
    else
      Count(ts[..|ts| - 1], lo, hi) + if lo <= ts[|ts| - 1] < hi then 1 else 0
  }

  /** How many timestamps lie in the window of length `w` that opens at `x`. */
  function InWindow(ts: seq<real>, x: real, w: int): nat {
    Count(ts, x, x + w as real)
  }

  /** No half-open interval of length `w` holds more than `k` timestamps. */
  ghost predicate WindowSafe(ts: seq<real>, k: int, w: int) {
    forall x: real :: InWindow(ts, x, w) <= k
  }

  /** The timestamp `k` places after another is at least `w` seconds later. */
  ghost predicate Spaced(ts: seq<real>, k: nat, w: int) {
    forall i, j :: 0 <= i && i + k == j < |ts| ==> ts[j] - ts[i] >= w as real
  }

  /** A limiter that never forgets an admission: the specification the pruning must refine. */
  function Unforgetting(k: int, w: int, arrivals: seq<real>): seq<real> {
    if |arrivals| == 0 then []
    else
      var h := Unforgetting(k, w, arrivals[..|arrivals| - 1]);
      var now := arrivals[|arrivals| - 1];
      if |Live(h, now, w)| < k then h + [now] else h
  }

  // ---------------------------------------------------------------- pruning

  lemma SortedPrefix(ts: seq<real>, n: nat)
    requires Sorted(ts) && n <= |ts|
    ensures Sorted(ts[..n])
  {
  }

  lemma SortedSnoc(ts: seq<real>, x: real)
    ensures Sorted(ts + [x]) <==> Sorted(ts) && forall y :: y in ts ==> y <= x
  {
    var all := ts + [x];
    if Sorted(all) {
      SortedPrefix(all, |ts|);
      assert all[..|ts|] == ts;
      forall y | y in ts ensures y <= x {
        var i :| 0 <= i < |ts| && ts[i] == y;
        assert all[i] <= all[|ts|];
      }
    } else if Sorted(ts) {
      var i, j :| 0 <= i < j < |all| && all[i] > all[j];
      assert j == |ts| && ts[i] in ts;
    }
  }

  lemma LiveSnoc(ts: seq<real>, x: real, now: real, w: int)
    ensures Live(ts + [x], now, w) == Live(ts, now, w) + if now - x < w as real then [x] else []
  {
    assert (ts + [x])[..|ts|] == ts;
  }

  lemma RunSnoc(k: int, w: int, arrivals: seq<real>, now: real)
    ensures Stored(k, w, arrivals + [now]) == After(k, w, Stored(k, w, arrivals), now)
    ensures Accepted(k, w, arrivals + [now])
         == Accepted(k, w, arrivals) + if Admits(k, w, Stored(k, w, arrivals), now) then [now] else []
    ensures Unforgetting(k, w, arrivals + [now])
         == Unforgetting(k, w, arrivals)
          + if |Live(Unforgetting(k, w, arrivals), now, w)| < k then [now] else []
  {
    assert (arrivals + [now])[..|arrivals|] == arrivals;
  }

  /** Pruning early never changes what a later pruning keeps. */
  lemma {:induction false} PruneTwice(ts: seq<real>, now: real, later: real, w: int)
    requires now <= later
    ensures Live(Live(ts, now, w), later, w) == Live(ts, later, w)
  {
    if |ts| > 0 {
      var init := ts[..|ts| - 1];
      PruneTwice(init, now, later, w);
      var last := ts[|ts| - 1];
      LiveSnoc(Live(init, now, w), last, later, w);
    }
  }

  lemma {:induction false} NothingLive(ts: seq<real>, now: real, w: int)
    requires forall i :: 0 <= i < |ts| ==> now - ts[i] >= w as real
    ensures Live(ts, now, w) == []
  {
    if |ts| > 0 {
      NothingLive(ts[..|ts| - 1], now, w);
    }
  }

  lemma {:induction false} AllLive(ts: seq<real>, now: real, w: int)
    requires forall i :: 0 <= i < |ts| ==> now - ts[i] < w as real
    ensures Live(ts, now, w) == ts
  {
    if |ts| > 0 {
      AllLive(ts[..|ts| - 1], now, w);
    }
  }

  /** On a sorted list the pruned list is the suffix that starts at the first live entry. */
  lemma {:induction false} LiveIsSuffix(ts: seq<real>, now: real, w: int)
    requires Sorted(ts)
    ensures var cut := |ts| - |Live(ts, now, w)|;
            && Live(ts, now, w) == ts[cut..]
            && (forall i :: 0 <= i < cut ==> now - ts[i] >= w as real)
            && (forall i :: cut <= i < |ts| ==> now - ts[i] < w as real)
  {
    if |ts| > 0 {
      var init, last := ts[..|ts| - 1], ts[|ts| - 1];
      hide Live;
      if now - last < w as real {
        LiveIsSuffix(init, now, w);
        LiveSnoc(init, last, now, w);
        assert ts == init + [last];
        var cut := |init| - |Live(init, now, w)|;
        assert ts[cut..] == init[cut..] + [last];
      } else {
        assert forall i :: 0 <= i < |ts| ==> ts[i] <= last;
        NothingLive(ts, now, w);
      }
    }
  }

  /** In whatever order the timestamps come, pruning keeps the ones less than `w` seconds old, each as often
      as it was there, and nothing else. */
  lemma {:induction false} LiveExactly(ts: seq<real>, now: real, w: int, t: real)
    ensures multiset(Live(ts, now, w))[t] == if now - t < w as real then multiset(ts)[t] else 0
  {
    if |ts| > 0 {
      LiveExactly(ts[..|ts| - 1], now, w, t);
      assert ts == ts[..|ts| - 1] + [ts[|ts| - 1]];
    }
  }

  /** The exact test a sorted history applies: fewer than `k` entries are live precisely when the
      `k`-th most recent one has expired. */
  lemma AdmitsExactly(h: seq<real>, k: nat, w: int, now: real)
    requires Sorted(h) && k >= 1
    ensures |Live(h, now, w)| < k <==> |h| < k || now >= h[|h| - k] + w as real
  {
    hide Live;
    LiveIsSuffix(h, now, w);
  }

  /** Whatever the clock does, the stored list never outgrows the limit. */
  lemma {:induction false} StoredBounded(k: int, w: int, arrivals: seq<real>)
    ensures |Stored(k, w, arrivals)| <= if k > 0 then k else 0
  {
    if |arrivals| > 0 {
      StoredBounded(k, w, arrivals[..|arrivals| - 1]);
    }
  }

  lemma {:induction false} AcceptedSorted(k: int, w: int, arrivals: seq<real>)
    requires Sorted(arrivals)
    ensures Sorted(Accepted(k, w, arrivals))
    ensures forall x :: x in Accepted(k, w, arrivals) ==> x in arrivals
  {
    if |arrivals| > 0 {
      hide Live, Stored, Accepted, Sorted;
      var before, now := arrivals[..|arrivals| - 1], arrivals[|arrivals| - 1];
      assert arrivals == before + [now];
      SortedSnoc(before, now);
      AcceptedSorted(k, w, before);
      RunSnoc(k, w, before, now);
      SortedSnoc(Accepted(k, w, before), now);
    }
  }

  /** Refinement: under a nondecreasing clock, what is live in the stored list is what is live in
      the full admission history, so the next decision is that of a limiter that never forgets. */
  lemma {:induction false} PruningLosesNothing(k: int, w: int, arrivals: seq<real>, now: real)
    requires Sorted(arrivals + [now])
    ensures Accepted(k, w, arrivals) == Unforgetting(k, w, arrivals)
    ensures Live(Stored(k, w, arrivals), now, w) == Live(Accepted(k, w, arrivals), now, w)
  {
    if |arrivals| > 0 {
      hide Live, Stored, Accepted, Unforgetting, Sorted;
      var before, last := arrivals[..|arrivals| - 1], arrivals[|arrivals| - 1];
      assert arrivals == before + [last];
      SortedSnoc(arrivals, now);
      assert last in arrivals;
      PruningLosesNothing(k, w, before, last);
      RunSnoc(k, w, before, last);
      var s, h := Stored(k, w, before), Accepted(k, w, before);
      PruneTwice(s, last, now, w);
      PruneTwice(h, last, now, w);
      LiveSnoc(Live(s, last, w), last, now, w);
      LiveSnoc(h, last, now, w);
    }
  }

  /** After every request the stored list is what the window still holds of the earlier history, and the
      request itself if it was admitted: the whole history filtered to the current window, except that an
      admission is stored even when the window has no length. */
  lemma StoredIsHistoryInWindow(k: int, w: int, arrivals: seq<real>, now: real)
    requires Sorted(arrivals + [now])
    ensures var admitted := Admits(k, w, Stored(k, w, arrivals), now);
            var history := Accepted(k, w, arrivals + [now]);
            && Stored(k, w, arrivals + [now])
               == Live(Accepted(k, w, arrivals), now, w) + (if admitted then [now] else [])
            && (Stored(k, w, arrivals + [now]) == Live(history, now, w) <==> w > 0 || !admitted)
  {
    hide Live, Stored, Accepted, Sorted;
    PruningLosesNothing(k, w, arrivals, now);
    RunSnoc(k, w, arrivals, now);
    LiveSnoc(Accepted(k, w, arrivals), now, now, w);
  }

  lemma HistorySorted(k: int, w: int, arrivals: seq<real>, now: real)
    requires Sorted(arrivals + [now])
    ensures Sorted(Accepted(k, w, arrivals))
    ensures forall i :: 0 <= i < |Accepted(k, w, arrivals)| ==> Accepted(k, w, arrivals)[i] <= now
  {
    hide Accepted, Sorted;
    SortedSnoc(arrivals, now);
    AcceptedSorted(k, w, arrivals);
    forall i | 0 <= i < |Accepted(k, w, arrivals)| ensures Accepted(k, w, arrivals)[i] <= now {
      assert Accepted(k, w, arrivals)[i] in Accepted(k, w, arrivals);
    }
  }

  /** The decision in terms of the full history alone. */
  lemma DecisionExactly(k: nat, w: int, arrivals: seq<real>, now: real)
    requires Sorted(arrivals + [now]) && k >= 1
    ensures var h := Accepted(k, w, arrivals);
            Admits(k, w, Stored(k, w, arrivals), now) <==> |h| < k || now >= h[|h| - k] + w as real
  {
    hide Live, Stored, Accepted, Sorted;
    var h := Accepted(k, w, arrivals);
    assert Live(Stored(k, w, arrivals), now, w) == Live(h, now, w) by {
      PruningLosesNothing(k, w, arrivals, now);
    }
    assert Sorted(h) by { HistorySorted(k, w, arrivals, now); }
    AdmitsExactly(h, k, w, now);
  }

  // ---------------------------------------------------------------- window safety

  lemma {:induction false} AcceptedSpaced(k: nat, w: int, arrivals: seq<real>)
    requires Sorted(arrivals)
    ensures Spaced(Accepted(k, w, arrivals), k, w)
  {
    if k == 0 {
      NothingAdmitted(k, w, arrivals);
    } else if |arrivals| > 0 {
      hide Live, Stored, Accepted, Sorted, Spaced;
      var before, now := arrivals[..|arrivals| - 1], arrivals[|arrivals| - 1];
      assert arrivals == before + [now];
      SortedSnoc(before, now);
      AcceptedSpaced(k, w, before);
      RunSnoc(k, w, before, now);
      DecisionExactly(k, w, before, now);
      SpacedSnoc(Accepted(k, w, before), now, k, w);
    }
  }

  lemma SpacedSnoc(ts: seq<real>, now: real, k: nat, w: int)
    ensures k >= 1 ==> (Spaced(ts + [now], k, w)
                        <==> Spaced(ts, k, w) && (|ts| < k || now >= ts[|ts| - k] + w as real))
    ensures k == 0 && Spaced(ts + [now], k, w) ==> w <= 0
  {
    var all := ts + [now];
    assert forall i :: 0 <= i < |ts| ==> all[i] == ts[i];
    if Spaced(all, k, w) {
      assert k <= |ts| ==> all[|ts|] - all[|ts| - k] >= w as real;
      assert forall i, j :: 0 <= i && i + k == j < |ts| ==> all[j] - all[i] >= w as real;
    }
  }

  /** Any two timestamps in the interval pull in everything between them. */
  lemma {:induction false} CountAtLeast(ts: seq<real>, i: nat, j: nat, lo: real, hi: real)
    requires Sorted(ts) && i <= j < |ts| && lo <= ts[i] && ts[j] < hi
    ensures Count(ts, lo, hi) >= j - i + 1
  {
    var init := ts[..|ts| - 1];
    if j < |ts| - 1 {
      CountAtLeast(init, i, j, lo, hi);
    } else if i < j {
      CountAtLeast(init, i, j - 1, lo, hi);
    }
  }

  /** Conversely, more than `m` timestamps in an interval include two that are `m` places apart. */
  lemma {:induction false} CountWitness(ts: seq<real>, m: nat, lo: real, hi: real) returns (i: nat, j: nat)
    requires Sorted(ts) && Count(ts, lo, hi) > m
    ensures i + m == j < |ts| && lo <= ts[i] && ts[j] < hi
  {
    var init := ts[..|ts| - 1];
    var last := ts[|ts| - 1];
    if Count(init, lo, hi) > m {
      i, j := CountWitness(init, m, lo, hi);
    } else if m == 0 {
      i, j := |ts| - 1, |ts| - 1;
    } else {
      i, j := CountWitness(init, m - 1, lo, hi);
      j := j + 1;
      assert ts[j] <= last < hi;
    }
  }

  /** Spacing and window safety are the same property of a sorted history. */
  lemma SpacedIffWindowSafe(ts: seq<real>, k: nat, w: int)
    requires Sorted(ts)
    ensures Spaced(ts, k, w) <==> WindowSafe(ts, k, w)
  {
    if Spaced(ts, k, w) {
      forall x: real ensures InWindow(ts, x, w) <= k {
        if InWindow(ts, x, w) > k {
          var i, j := CountWitness(ts, k, x, x + w as real);
          assert false;
        }
      }
    } else {
      var i, j :| 0 <= i && i + k == j < |ts| && ts[j] - ts[i] < w as real;
      CountAtLeast(ts, i, j, ts[i], ts[i] + w as real);
      assert InWindow(ts, ts[i], w) > k;
    }
  }

  /** Nothing is ever admitted when the limit is not positive. */
  lemma {:induction false} NothingAdmitted(k: int, w: int, arrivals: seq<real>)
    requires k <= 0
    ensures Accepted(k, w, arrivals) == [] && Stored(k, w, arrivals) == []
  {
    if |arrivals| > 0 {
      NothingAdmitted(k, w, arrivals[..|arrivals| - 1]);
    }
  }

  /** Window safety over whole runs. */
  lemma AcceptedWindowSafe(k: nat, w: int, arrivals: seq<real>)
    requires Sorted(arrivals)
    ensures WindowSafe(Accepted(k, w, arrivals), k, w)
    ensures Spaced(Accepted(k, w, arrivals), k, w)
  {
    hide Accepted, Sorted, Spaced, WindowSafe;
    AcceptedSorted(k, w, arrivals);
    AcceptedSpaced(k, w, arrivals);
    SpacedIffWindowSafe(Accepted(k, w, arrivals), k, w);
  }

  // ---------------------------------------------------------------- longer horizons

  lemma {:induction false} CountSplit(ts: seq<real>, lo: real, mid: real, hi: real)
    requires lo <= mid <= hi
    ensures Count(ts, lo, hi) == Count(ts, lo, mid) + Count(ts, mid, hi)
  {
    if |ts| > 0 {
      CountSplit(ts[..|ts| - 1], lo, mid, hi);
    }
  }

  lemma {:induction false} CountMonotone(ts: seq<real>, lo: real, hi: real, hi': real)
    requires hi <= hi'
    ensures Count(ts, lo, hi) <= Count(ts, lo, hi')
  {
    if |ts| > 0 {
      CountMonotone(ts[..|ts| - 1], lo, hi, hi');
    }
  }

  lemma {:induction false} CountOverWindows(ts: seq<real>, k: nat, w: int, lo: real, n: nat)
    requires WindowSafe(ts, k, w) && w > 0
    ensures Count(ts, lo, lo + n as real * w as real) <= n * k
  {
    if n == 0 {
      CountEmptyInterval(ts, lo);
    } else {
      CountOverWindows(ts, k, w, lo, n - 1);
      var mid := lo + (n - 1) as real * w as real;
      assert mid + w as real == lo + n as real * w as real;
      CountSplit(ts, lo, mid, mid + w as real);
      assert InWindow(ts, mid, w) <= k;
      assert n * k == (n - 1) * k + k;
    }
  }

  lemma {:induction false} CountEmptyInterval(ts: seq<real>, x: real)
    ensures Count(ts, x, x) == 0
  {
    if |ts| > 0 {
      CountEmptyInterval(ts[..|ts| - 1], x);
    }
  }

  /** The least integer that is not below `x`. */
  function Ceiling(x: real): int { -((-x).Floor) }

  /** Horizon bound: an interval of length `span` holds at most `k * ceiling(span / w)` admissions. */
  lemma HorizonBound(k: nat, w: int, arrivals: seq<real>, lo: real, span: real)
    requires Sorted(arrivals) && w > 0 && span >= 0.0
    ensures Count(Accepted(k, w, arrivals), lo, lo + span) <= Ceiling(span / w as real) * k
  {
    hide Accepted, Count, WindowSafe, Sorted, Ceiling;
    var h := Accepted(k, w, arrivals);
    var n := Ceiling(span / w as real);
    CeilingCovers(span, w);
    var reach := n as real * w as real;
    assert WindowSafe(h, k, w) by { AcceptedWindowSafe(k, w, arrivals); }
    CountOverWindows(h, k, w, lo, n);
    CountMonotone(h, lo, lo + span, lo + reach);
  }

  lemma CeilingCovers(span: real, w: int)
    requires span >= 0.0 && w > 0
    ensures var n := Ceiling(span / w as real); n >= 0 && span <= n as real * w as real
  {
    var q, n := span / w as real, Ceiling(span / w as real);
    assert 0.0 <= q <= n as real;
    ProductMonotone(q, n as real, w as real);
  }

  lemma ProductMonotone(x: real, y: real, z: real)
    requires x <= y && z >= 0.0
    ensures x * z <= y * z
  {
    assert (y - x) * z >= 0.0;
  }

  // ---------------------------------------------------------------- greedy optimality

  /** The arrivals that a rival policy lets in. */
  function Chosen(arrivals: seq<real>, choice: seq<bool>): seq<real>
    requires |choice| == |arrivals|
  {
    if |arrivals| == 0 then []
    else
      var n := |arrivals| - 1;
      if choice[n] then Chosen(arrivals[..n], choice[..n]) + [arrivals[n]]
      else Chosen(arrivals[..n], choice[..n])
  }

  lemma {:induction false} ChosenSorted(arrivals: seq<real>, choice: seq<bool>)
    requires |choice| == |arrivals| && Sorted(arrivals)
    ensures Sorted(Chosen(arrivals, choice))
    ensures forall x :: x in Chosen(arrivals, choice) ==> x in arrivals
  {
    if |arrivals| > 0 {
      var n := |arrivals| - 1;
      var before, now := arrivals[..n], arrivals[n];
      assert arrivals == before + [now];
      SortedSnoc(before, now);
      ChosenSorted(before, choice[..n]);
      SortedSnoc(Chosen(before, choice[..n]), now);
    }
  }

  lemma {:induction false} ChosenPrefix(arrivals: seq<real>, choice: seq<bool>, n: nat)
    requires |choice| == |arrivals| && n <= |arrivals|
    ensures Chosen(arrivals[..n], choice[..n]) <= Chosen(arrivals, choice)
    decreases |arrivals|
  {
    if n == |arrivals| {
      assert arrivals[..n] == arrivals && choice[..n] == choice;
    } else {
      var m := |arrivals| - 1;
      ChosenPrefix(arrivals[..m], choice[..m], n);
      assert arrivals[..m][..n] == arrivals[..n] && choice[..m][..n] == choice[..n];
    }
  }

  /** `greedy` has at least as many entries as `rival`, and its i-th is never later. */
  ghost predicate Dominates(greedy: seq<real>, rival: seq<real>) {
    |rival| <= |greedy| && forall i :: 0 <= i < |rival| ==> greedy[i] <= rival[i]
  }

  /** The exchange step: if the greedy limiter dominates a rival so far, no window-safe rival can
      get ahead on the next arrival. */
  lemma {:induction false} GreedyDominates(k: nat, w: int, arrivals: seq<real>, choice: seq<bool>)
    requires Sorted(arrivals) && |choice| == |arrivals|
    requires k >= 1 || w > 0
    requires Spaced(Chosen(arrivals, choice), k, w)
    ensures Dominates(Accepted(k, w, arrivals), Chosen(arrivals, choice))
  {
    if |arrivals| > 0 {
      hide Live, Stored, Accepted, Sorted, Spaced, Dominates;
      var n := |arrivals| - 1;
      var before, now := arrivals[..n], arrivals[n];
      assert arrivals == before + [now];
      SortedSnoc(before, now);
      HistorySorted(k, w, before, now);
      var rival, rival' := Chosen(before, choice[..n]), Chosen(arrivals, choice);
      SpacedPrefix(rival, rival', k, w);
      GreedyDominates(k, w, before, choice[..n]);
      RunSnoc(k, w, before, now);
      var admits := Admits(k, w, Stored(k, w, before), now);
      if choice[n] && !admits {
        RivalCannotOvertake(k, w, before, now, rival);
      }
      DominatesSnoc(Accepted(k, w, before), rival, now, admits, choice[n]);
    }
  }

  lemma DominatesSnoc(greedy: seq<real>, rival: seq<real>, now: real, admits: bool, chooses: bool)
    requires Dominates(greedy, rival)
    requires forall i :: 0 <= i < |greedy| ==> greedy[i] <= now
    requires chooses && !admits ==> |rival| < |greedy|
    ensures Dominates(greedy + if admits then [now] else [], rival + if chooses then [now] else [])
  {
  }

  lemma SpacedPrefix(short: seq<real>, long: seq<real>, k: nat, w: int)
    requires short <= long && Spaced(long, k, w)
    ensures Spaced(short, k, w)
  {
  }

  /** When the limiter refuses, a rival that accepts must have been strictly behind. */
  lemma RivalCannotOvertake(k: nat, w: int, arrivals: seq<real>, now: real, rival: seq<real>)
    requires Sorted(arrivals + [now]) && (k >= 1 || w > 0)
    requires Dominates(Accepted(k, w, arrivals), rival)
    requires !Admits(k, w, Stored(k, w, arrivals), now)
    requires Spaced(rival + [now], k, w)
    ensures |rival| < |Accepted(k, w, arrivals)|
  {
    hide Live, Stored, Accepted, Sorted;
    SpacedSnoc(rival, now, k, w);
    if k >= 1 {
      DecisionExactly(k, w, arrivals, now);
    }
  }

  /** Greedy optimality: on every prefix of the arrivals the limiter admits at least as many
      requests as any policy that keeps every window within the limit, and its i-th admission is
      never later. */
  lemma GreedyIsOptimal(k: nat, w: int, arrivals: seq<real>, choice: seq<bool>, n: nat)
    requires Sorted(arrivals) && |choice| == |arrivals| && n <= |arrivals|
    requires WindowSafe(Chosen(arrivals, choice), k, w)
    requires k >= 1 || w > 0
    ensures Dominates(Accepted(k, w, arrivals[..n]), Chosen(arrivals[..n], choice[..n]))
  {
    hide Accepted, Chosen, Sorted, Spaced, WindowSafe, Dominates;
    ChosenSorted(arrivals, choice);
    SpacedIffWindowSafe(Chosen(arrivals, choice), k, w);
    ChosenPrefix(arrivals, choice, n);
    SpacedPrefix(Chosen(arrivals[..n], choice[..n]), Chosen(arrivals, choice), k, w);
    SortedPrefix(arrivals, n);
    GreedyDominates(k, w, arrivals[..n], choice[..n]);
  }

  /** The one exception: a zero limit over an empty window forbids nothing on paper, yet the code
      refuses every request. */
  lemma ZeroLimitEmptyWindowNotOptimal(w: int)
    requires w <= 0
    ensures WindowSafe(Chosen([0.0], [true]), 0, w)
    ensures !Dominates(Accepted(0, w, [0.0]), Chosen([0.0], [true]))
  {
    var rival := Chosen([0.0], [true]);
    assert [0.0][..0] == [] && [true][..0] == [];
    assert rival == [0.0];
    NothingAdmitted(0, w, [0.0]);
    SpacedIffWindowSafe(rival, 0, w);
  }

  // ---------------------------------------------------------------- Retry-After and Reset

  /** Python's `int(x)`: truncation toward zero. */
  function Truncate(x: real): (t: int)
    ensures if x >= 0.0 then t as real <= x < t as real + 1.0 else t as real - 1.0 < x <= t as real
  {
    if x >= 0.0 then x.Floor else -((-x).Floor)
  }

  /** After a rejection, the time from which the client is let in again: the oldest live admission
      plus the window. */
  function EarliestRetry(k: nat, w: int, arrivals: seq<real>): real
    requires 1 <= k <= |Accepted(k, w, arrivals)|
  {
    var h := Accepted(k, w, arrivals);
    h[|h| - k] + w as real
  }

  /** A rejection finds exactly `k` live entries stored, and the first is the one to wait for. */
  lemma RejectionIsExact(k: nat, w: int, arrivals: seq<real>, now: real)
    requires k >= 1 && Sorted(arrivals + [now])
    requires !Admits(k, w, Stored(k, w, arrivals), now)
    ensures k <= |Accepted(k, w, arrivals)|
    ensures var live := Live(Stored(k, w, arrivals), now, w);
            && |live| == k
            && live == Live(Accepted(k, w, arrivals), now, w)
            && live[0] + w as real == EarliestRetry(k, w, arrivals)
    ensures now < EarliestRetry(k, w, arrivals) <= now + w as real
  {
    hide Stored, Accepted, Sorted, Live;
    var h := Accepted(k, w, arrivals);
    assert Live(Stored(k, w, arrivals), now, w) == Live(h, now, w) by {
      PruningLosesNothing(k, w, arrivals, now);
    }
    assert |Live(h, now, w)| == k by { StoredBounded(k, w, arrivals); }
    HistorySorted(k, w, arrivals, now);
    LiveIsSuffix(h, now, w);
  }

  /** `Retry-After` is sufficient, and exactly how early a retry may come: after a rejection at
      `now` and any number of further requests none of which is admitted, the next request is
      admitted if and only if it comes no earlier than `EarliestRetry`. */
  lemma RetryAfterIsSufficient(k: nat, w: int, arrivals: seq<real>, now: real, upto: seq<real>, t: real)
    requires k >= 1 && Sorted(upto + [t]) && arrivals + [now] <= upto
    requires !Admits(k, w, Stored(k, w, arrivals), now)
    requires Accepted(k, w, upto) == Accepted(k, w, arrivals)
    ensures k <= |Accepted(k, w, arrivals)|
    ensures Admits(k, w, Stored(k, w, upto), t) <==> t >= EarliestRetry(k, w, arrivals)
    ensures t >= now + w as real ==> Admits(k, w, Stored(k, w, upto), t)
  {
    hide Live, Stored, Accepted, Sorted, Admits;
    assert Sorted(arrivals + [now]) by {
      SortedSnoc(upto, t);
      SortedPrefix(upto, |arrivals| + 1);
      assert upto[..|arrivals| + 1] == arrivals + [now];
    }
    RejectionIsExact(k, w, arrivals, now);
    DecisionExactly(k, w, upto, t);
  }

  /** The `X-RateLimit-Reset` value is too early exactly when the oldest live admission came after
      the start of the second in which the rejection happens. */
  lemma ResetTooEarlyExactly(k: nat, w: int, arrivals: seq<real>, now: real)
    requires k >= 1 && Sorted(arrivals + [now]) && now + w as real >= 0.0
    requires !Admits(k, w, Stored(k, w, arrivals), now)
    ensures k <= |Accepted(k, w, arrivals)|
    ensures Truncate(now + w as real) as real < EarliestRetry(k, w, arrivals)
            <==> Live(Stored(k, w, arrivals), now, w)[0] > now.Floor as real
  {
    hide Live, Stored, Accepted, Sorted, Admits;
    RejectionIsExact(k, w, arrivals, now);
    assert (now + w as real).Floor == now.Floor + w;
  }

  /** Such a rejection: admitted at 0.5, rejected at 0.75, told 60, let in only from 60.5. */
  lemma ResetTooEarlyExample()
    ensures !Admits(1, 60, Stored(1, 60, [0.5]), 0.75)
    ensures Truncate(0.75 + 60 as real) == 60
    ensures !Admits(1, 60, Stored(1, 60, [0.5, 0.75]), 60.0)
    ensures Admits(1, 60, Stored(1, 60, [0.5, 0.75]), 60.5)
  {
    assert [0.5][..0] == [] && [0.5, 0.75][..1] == [0.5];
    assert Stored(1, 60, [0.5]) == [0.5];
    assert Live([0.5], 0.75, 60) == [0.5] && Live([0.5], 60.0, 60) == [0.5] && Live([0.5], 60.5, 60) == [];
    assert Stored(1, 60, [0.5, 0.75]) == [0.5];
  }
}
