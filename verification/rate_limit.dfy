/** The per-bucket dual-window admission rule of `waitForRateLimit`
    (backend/src/clients/riotApiClient.ts): a bucket keeps the timestamps
    (in milliseconds) of the requests it admitted; a request is admitted at
    time `now` only while fewer than 20 of them fall in the last second and
    fewer than 100 in the last two minutes, otherwise the caller is told how
    long to wait. The clock is a parameter. */
module RateLimit {

  const RATE_LIMIT_PER_SECOND: nat := 20
  const RATE_LIMIT_PER_2_MINUTES: nat := 100
  const SECOND_WINDOW: int := 1000
  const TWO_MINUTE_WINDOW: int := 120000
  /** The fixed safety margin added to every computed wait. */
  const WAIT_MARGIN: int := 50

  /** `ts.filter(t => now - t < window)`. */
  function Recent(ts: seq<int>, now: int, window: int): (r: seq<int>)
    ensures |r| <= |ts|
    ensures forall i :: 0 <= i < |r| ==> now - r[i] < window
  {
    if ts == [] then []
    else (if now - ts[0] < window then [ts[0]] else []) + Recent(ts[1..], now, window)
  }

  /** Filtering distributes over concatenation: the kept timestamps stay in
      their original order. */
  lemma {:induction false} RecentAppend(a: seq<int>, b: seq<int>, now: int, window: int)
    ensures Recent(a + b, now, window) == Recent(a, now, window) + Recent(b, now, window)
  {
    if a == [] {
      assert a + b == b;
    } else {
      assert (a + b)[1..] == a[1..] + b;
      RecentAppend(a[1..], b, now, window);
    }
  }

  /** Exactly the timestamps younger than the window are kept, each as often
      as it occurs in the input. */
  lemma {:induction false} RecentKeepsExactly(ts: seq<int>, now: int, window: int)
    ensures forall t :: t in Recent(ts, now, window) <==> t in ts && now - t < window
    ensures forall t :: multiset(Recent(ts, now, window))[t] == if now - t < window then multiset(ts)[t] else 0
  {
    if ts != [] {
      RecentKeepsExactly(ts[1..], now, window);
      assert ts == [ts[0]] + ts[1..];
    }
  }

  /** A list every element of which is young enough is kept whole. */
  lemma {:induction false} RecentOfYoung(ts: seq<int>, now: int, window: int)
    requires forall i :: 0 <= i < |ts| ==> now - ts[i] < window
    ensures Recent(ts, now, window) == ts
  {
    if ts != [] {
      RecentOfYoung(ts[1..], now, window);
      assert [ts[0]] + ts[1..] == ts;
    }
  }

  /** Filtering at a later time, or with a narrower window, after filtering is
      the same as filtering once. */
  lemma {:induction false} RecentLater(ts: seq<int>, now: int, later: int, wide: int, narrow: int)
    requires now <= later && narrow <= wide
    ensures Recent(Recent(ts, now, wide), later, narrow) == Recent(ts, later, narrow)
  {
    if ts != [] {
      RecentLater(ts[1..], now, later, wide, narrow);
      var head := if later - ts[0] < narrow then [ts[0]] else [];
      assert Recent(ts, later, narrow) == head + Recent(ts[1..], later, narrow);
      if now - ts[0] < wide {
        assert Recent(ts, now, wide) == [ts[0]] + Recent(ts[1..], now, wide);
        RecentAppend([ts[0]], Recent(ts[1..], now, wide), later, narrow);
        assert Recent([ts[0]], later, narrow) == head + Recent([], later, narrow) by {
          assert [ts[0]][1..] == [];
        }
        assert head + Recent([], later, narrow) == head;
      } else {
        assert Recent(ts, now, wide) == [] + Recent(ts[1..], now, wide);
        assert [] + Recent(ts[1..], now, wide) == Recent(ts[1..], now, wide);
        assert head == [];
      }
    }
  }

  /** As time passes a window can only lose timestamps. */
  lemma {:induction false} RecentShrinks(ts: seq<int>, now: int, later: int, window: int)
    requires now <= later
    ensures |Recent(ts, later, window)| <= |Recent(ts, now, window)|
  {
    if ts != [] {
      RecentShrinks(ts[1..], now, later, window);
    }
  }

  /** Filtering drops at least one element when some element is too old. */
  lemma {:induction false} RecentDropsOld(ts: seq<int>, now: int, window: int, x: int)
    requires x in ts && now - x >= window
    ensures |Recent(ts, now, window)| < |ts|
  {
    if ts[0] != x {
      RecentDropsOld(ts[1..], now, window, x);
    }
  }

  function Max(s: seq<int>): (m: int)
    requires |s| > 0
    ensures m in s && forall i :: 0 <= i < |s| ==> s[i] <= m
  {
    if |s| == 1 then s[0]
    else
      var m := Max(s[1..]);
      assert forall i :: 1 <= i < |s| ==> s[i] == s[1..][i - 1];
      if s[0] >= m then s[0] else m
  }

  function Min(s: seq<int>): (m: int)
    requires |s| > 0
    ensures m in s && forall i :: 0 <= i < |s| ==> m <= s[i]
  {
    if |s| == 1 then s[0]
    else
      var m := Min(s[1..]);
      assert forall i :: 1 <= i < |s| ==> s[i] == s[1..][i - 1];
      if s[0] <= m then s[0] else m
  }

  /** Step one of an admission attempt: drop the timestamps older than two
      minutes. */
  function Prune(ts: seq<int>, now: int): seq<int> {
    Recent(ts, now, TWO_MINUTE_WINDOW)
  }

  datatype Admission = Admit | Wait(ms: int)

  /** The outcome of one admission attempt at time `now` on a bucket whose
      stored timestamps are `ts`. The second-limit check comes first; its wait
      is measured from the NEWEST timestamp of the last second (the source
      takes `Math.max` of them), the window wait from the oldest of the two
      minutes. */
  function Decide(ts: seq<int>, now: int): (d: Admission)
    ensures d == Admit <==>
              |Recent(Prune(ts, now), now, SECOND_WINDOW)| < RATE_LIMIT_PER_SECOND
              && |Prune(ts, now)| < RATE_LIMIT_PER_2_MINUTES
  {
    var kept := Prune(ts, now);
    var inSecond := Recent(kept, now, SECOND_WINDOW);
    if |inSecond| >= RATE_LIMIT_PER_SECOND then
      Wait(SECOND_WINDOW - (now - Max(inSecond)) + WAIT_MARGIN)
    else if |kept| >= RATE_LIMIT_PER_2_MINUTES then
      Wait(TWO_MINUTE_WINDOW - (now - Min(kept)) + WAIT_MARGIN)
    else
      Admit
  }

  /** The stored list after an admission at `now`. */
  function Admitted(ts: seq<int>, now: int): seq<int> {
    Prune(ts, now) + [now]
  }

  /** Both limits, read at time `now`. */
  predicate WithinLimits(ts: seq<int>, now: int) {
    |Recent(ts, now, SECOND_WINDOW)| <= RATE_LIMIT_PER_SECOND
    && |Recent(ts, now, TWO_MINUTE_WINDOW)| <= RATE_LIMIT_PER_2_MINUTES
  }

  /** Right after any admission the bucket holds at most 20 timestamps in the
      last second and at most 100 in the last two minutes, and its stored list
      is already pruned. */
  lemma AdmissionKeepsLimits(ts: seq<int>, now: int)
    requires Decide(ts, now) == Admit
    ensures WithinLimits(Admitted(ts, now), now)
    ensures Prune(Admitted(ts, now), now) == Admitted(ts, now)
  {
    var kept := Prune(ts, now);
    RecentAppend(kept, [now], now, SECOND_WINDOW);
    RecentAppend(kept, [now], now, TWO_MINUTE_WINDOW);
    RecentOfYoung(kept, now, TWO_MINUTE_WINDOW);
  }

  /** Limits that hold at one instant hold at every later instant, so after an
      admission no trailing one-second or two-minute window of the future ever
      sees more than 20 or 100 of the recorded admissions. */
  lemma LimitsPersist(ts: seq<int>, now: int, later: int)
    requires WithinLimits(ts, now) && now <= later
    ensures WithinLimits(ts, later)
  {
    RecentShrinks(ts, now, later, SECOND_WINDOW);
    RecentShrinks(ts, now, later, TWO_MINUTE_WINDOW);
  }

  /** Every computed wait is longer than the margin, whatever the bucket
      holds. */
  lemma WaitPositive(ts: seq<int>, now: int)
    requires Decide(ts, now).Wait?
    ensures Decide(ts, now).ms > WAIT_MARGIN
  {
    var kept := Prune(ts, now);
    var inSecond := Recent(kept, now, SECOND_WINDOW);
    if |inSecond| >= RATE_LIMIT_PER_SECOND {
      var m := Max(inSecond);
      var i :| 0 <= i < |inSecond| && inSecond[i] == m;
    } else {
      var m := Min(kept);
      var i :| 0 <= i < |kept| && kept[i] == m;
    }
  }

  /** With no timestamp in the future, every computed wait lies in
      (50, 120050]; when the second limit is hit it lies in (50, 1050]. */
  lemma WaitBounds(ts: seq<int>, now: int)
    requires forall i :: 0 <= i < |ts| ==> ts[i] <= now
    requires Decide(ts, now).Wait?
    ensures WAIT_MARGIN < Decide(ts, now).ms <= TWO_MINUTE_WINDOW + WAIT_MARGIN
    ensures (|Recent(Prune(ts, now), now, SECOND_WINDOW)| >= RATE_LIMIT_PER_SECOND)
              ==> Decide(ts, now).ms <= SECOND_WINDOW + WAIT_MARGIN
  {
    var kept := Prune(ts, now);
    RecentKeepsExactly(ts, now, TWO_MINUTE_WINDOW);
    var inSecond := Recent(kept, now, SECOND_WINDOW);
    RecentKeepsExactly(kept, now, SECOND_WINDOW);
    if |inSecond| >= RATE_LIMIT_PER_SECOND {
      var m := Max(inSecond);
      assert m in ts;
    } else {
      var m := Min(kept);
      assert m in ts;
    }
  }

  /** Waiting out a second-limit wait empties the last second: the second
      check passes when the attempt is re-evaluated. */
  lemma SecondWaitClearsSecond(ts: seq<int>, now: int)
    requires |Recent(Prune(ts, now), now, SECOND_WINDOW)| >= RATE_LIMIT_PER_SECOND
    ensures Recent(ts, now + Decide(ts, now).ms, SECOND_WINDOW) == []
  {
    var kept := Prune(ts, now);
    var inSecond := Recent(kept, now, SECOND_WINDOW);
    var w := Decide(ts, now).ms;
    var m := Max(inSecond);
    assert w == SECOND_WINDOW - (now - m) + WAIT_MARGIN;
    SecondWaitFrom(ts, now, m, w);
  }

  /** Sleeping until the newest timestamp `m` of the last second has been
      out of it for the margin leaves nothing in the last second. */
  lemma SecondWaitFrom(ts: seq<int>, now: int, m: int, w: int)
    requires m in Recent(Prune(ts, now), now, SECOND_WINDOW)
    requires forall i :: 0 <= i < |Recent(Prune(ts, now), now, SECOND_WINDOW)| ==> Recent(Prune(ts, now), now, SECOND_WINDOW)[i] <= m
    requires w == SECOND_WINDOW - (now - m) + WAIT_MARGIN
    ensures w > WAIT_MARGIN
    ensures Recent(ts, now + w, SECOND_WINDOW) == []
  {
    var inSecond := Recent(Prune(ts, now), now, SECOND_WINDOW);
    assert now - m < SECOND_WINDOW by {
      var i :| 0 <= i < |inSecond| && inSecond[i] == m;
    }
    forall t | t in ts ensures now + w - t >= SECOND_WINDOW {
      if now - t < SECOND_WINDOW {
        assert t in inSecond by {
          SecondOfPruned(ts, now);
          RecentKeepsExactly(ts, now, SECOND_WINDOW);
        }
        var i :| 0 <= i < |inSecond| && inSecond[i] == t;
      }
    }
    var late := Recent(ts, now + w, SECOND_WINDOW);
    if late != [] {
      assert late[0] in ts by {
        RecentKeepsExactly(ts, now + w, SECOND_WINDOW);
      }
    }
  }

  /** Waiting out a window wait retires the oldest timestamp; a bucket that
      never held more than 100 is then admitted on re-evaluation. */
  lemma WindowWaitAdmits(ts: seq<int>, now: int)
    requires |Recent(Prune(ts, now), now, SECOND_WINDOW)| < RATE_LIMIT_PER_SECOND
    requires |Prune(ts, now)| >= RATE_LIMIT_PER_2_MINUTES
    ensures |Prune(ts, now + Decide(ts, now).ms)| < |Prune(ts, now)|
    ensures |Prune(ts, now)| <= RATE_LIMIT_PER_2_MINUTES ==> Decide(ts, now + Decide(ts, now).ms) == Admit
  {
    var kept := Prune(ts, now);
    var w := Decide(ts, now).ms;
    var m := Min(kept);
    assert w == TWO_MINUTE_WINDOW - (now - m) + WAIT_MARGIN;
    WindowWaitRetires(ts, now, m, w);
  }

  /** Sleeping until the oldest kept timestamp `m` has been out of the
      window for the margin drops it, and does not add to the last
      second. */
  lemma WindowWaitRetires(ts: seq<int>, now: int, m: int, w: int)
    requires m in Prune(ts, now)
    requires w == TWO_MINUTE_WINDOW - (now - m) + WAIT_MARGIN
    ensures w > 0
    ensures |Prune(ts, now + w)| < |Prune(ts, now)|
    ensures |Recent(Prune(ts, now + w), now + w, SECOND_WINDOW)| <= |Recent(Prune(ts, now), now, SECOND_WINDOW)|
  {
    var kept := Prune(ts, now);
    assert now - m < TWO_MINUTE_WINDOW by {
      var i :| 0 <= i < |kept| && kept[i] == m;
    }
    assert Prune(kept, now + w) == Prune(ts, now + w) by {
      DecideAfterPrune(ts, now, now + w);
    }
    assert |Prune(kept, now + w)| < |kept| by {
      RecentDropsOld(kept, now + w, TWO_MINUTE_WINDOW, m);
    }
    assert |Recent(Prune(ts, now + w), now + w, SECOND_WINDOW)| <= |Recent(kept, now, SECOND_WINDOW)| by {
      SecondOfPruned(ts, now + w);
      SecondOfPruned(ts, now);
      RecentShrinks(ts, now, now + w, SECOND_WINDOW);
    }
  }

  /** The load a bucket presents at time `now`: its timestamps in the window
      plus those in the last second. Every wait strictly lowers it. */
  function Load(ts: seq<int>, now: int): nat {
    |Prune(ts, now)| + |Recent(ts, now, SECOND_WINDOW)|
  }

  /** The last second's count is the same whether or not the list was pruned
      first. */
  lemma SecondOfPruned(ts: seq<int>, now: int)
    ensures Recent(Prune(ts, now), now, SECOND_WINDOW) == Recent(ts, now, SECOND_WINDOW)
  {
    RecentLater(ts, now, now, TWO_MINUTE_WINDOW, SECOND_WINDOW);
  }

  lemma WaitLowersLoad(ts: seq<int>, now: int)
    requires Decide(ts, now).Wait?
    ensures Load(ts, now + Decide(ts, now).ms) < Load(ts, now)
  {
    SecondOfPruned(ts, now);
    if |Recent(Prune(ts, now), now, SECOND_WINDOW)| >= RATE_LIMIT_PER_SECOND {
      SecondWaitLowersLoad(ts, now);
    } else {
      WindowWaitLowersLoad(ts, now);
    }
  }

  lemma SecondWaitLowersLoad(ts: seq<int>, now: int)
    requires |Recent(Prune(ts, now), now, SECOND_WINDOW)| >= RATE_LIMIT_PER_SECOND
    ensures Load(ts, now + Decide(ts, now).ms) < Load(ts, now)
  {
    var inSecond := Recent(Prune(ts, now), now, SECOND_WINDOW);
    var w := Decide(ts, now).ms;
    var m := Max(inSecond);
    assert w == SECOND_WINDOW - (now - m) + WAIT_MARGIN;
    SecondWaitFrom(ts, now, m, w);
    SecondLoadDrop(ts, now, w);
  }

  /** The load argument of a wait after which the last second is empty. */
  lemma SecondLoadDrop(ts: seq<int>, now: int, w: int)
    requires w > 0
    requires |Recent(Prune(ts, now), now, SECOND_WINDOW)| >= RATE_LIMIT_PER_SECOND
    requires Recent(ts, now + w, SECOND_WINDOW) == []
    ensures Load(ts, now + w) < Load(ts, now)
  {
    SecondOfPruned(ts, now);
    RecentShrinks(ts, now, now + w, TWO_MINUTE_WINDOW);
  }

  lemma WindowWaitLowersLoad(ts: seq<int>, now: int)
    requires |Recent(Prune(ts, now), now, SECOND_WINDOW)| < RATE_LIMIT_PER_SECOND
    requires |Prune(ts, now)| >= RATE_LIMIT_PER_2_MINUTES
    ensures Load(ts, now + Decide(ts, now).ms) < Load(ts, now)
  {
    var w := Decide(ts, now).ms;
    WaitPositive(ts, now);
    WindowWaitAdmits(ts, now);
    RecentShrinks(ts, now, now + w, SECOND_WINDOW);
  }

  /** The time at which the re-evaluating wait loop of an attempt started at
      `now` admits the request: each wait is slept out and the attempt
      re-evaluated. It always exists, so the limiter never waits forever. */
  function AdmissionTime(ts: seq<int>, now: int): (t: int)
    ensures now <= t
    ensures Decide(ts, t) == Admit
    decreases Load(ts, now)
  {
    match Decide(ts, now)
    case Admit => now
    case Wait(ms) =>
      WaitLowersLoad(ts, now);
      WaitPositive(ts, now);
      AdmissionTime(ts, now + ms)
  }

  /** Sleeping out a wait does not move the eventual admission. */
  lemma AdmissionTimeAfterWait(ts: seq<int>, now: int)
    requires Decide(ts, now).Wait?
    ensures Decide(ts, now).ms > 0
    ensures Load(ts, now + Decide(ts, now).ms) < Load(ts, now)
    ensures AdmissionTime(ts, now + Decide(ts, now).ms) == AdmissionTime(ts, now)
  {
    WaitPositive(ts, now);
    WaitLowersLoad(ts, now);
  }

  /** Pruning at an earlier time does not change a later decision. */
  lemma DecideAfterPrune(ts: seq<int>, earlier: int, now: int)
    requires earlier <= now
    ensures Prune(Prune(ts, earlier), now) == Prune(ts, now)
    ensures Decide(Prune(ts, earlier), now) == Decide(ts, now)
  {
    RecentLater(ts, earlier, now, TWO_MINUTE_WINDOW, TWO_MINUTE_WINDOW);
  }
}
