/** Rising sequences of timestamps: how a minimum spacing bounds the number that fall in any interval. */
module Timelines {
  import opened Basics

  ghost predicate Rising(ts: seq<int>) {
    forall i, j :: 0 <= i <= j < |ts| ==> ts[i] <= ts[j]
  }

  /** Any entry is more than `gap` after the one `m` places before it. */
  ghost predicate Spread(ts: seq<int>, m: nat, gap: int) {
    forall j :: m <= j < |ts| ==> ts[j] - ts[j - m] > gap
  }

  /** How many entries lie in the closed interval from `a` to `b`. */
  function CountIn(ts: seq<int>, a: int, b: int): nat {
    if ts == [] then 0
    else CountIn(ts[..|ts| - 1], a, b) + if a <= ts[|ts| - 1] <= b then 1 else 0
  }

  lemma CountInAppend(ts: seq<int>, t: int, a: int, b: int)
    ensures CountIn(ts + [t], a, b) == CountIn(ts, a, b) + if a <= t <= b then 1 else 0
  {
    assert (ts + [t])[..|ts|] == ts;
  }

  lemma {:induction false} NoneBelow(ts: seq<int>, a: int, b: int)
    requires forall i :: 0 <= i < |ts| ==> ts[i] < a
    ensures CountIn(ts, a, b) == 0
  {
    if ts != [] {
      NoneBelow(ts[..|ts| - 1], a, b);
    }
  }

  lemma {:induction false} CountTail(ts: seq<int>, k: nat, a: int, b: int)
    requires k <= |ts|
    ensures CountIn(ts, a, b) <= CountIn(ts[..k], a, b) + (|ts| - k)
  {
    if k < |ts| {
      CountTail(ts[..|ts| - 1], k, a, b);
      assert ts[..|ts| - 1][..k] == ts[..k];
    } else {
      assert ts[..k] == ts;
    }
  }

  /** With every `m + 1` consecutive entries spanning more than `gap`, no closed interval of length `gap`
      holds more than `m`. */
  lemma {:induction false} AtMostInWindow(ts: seq<int>, m: nat, gap: int, a: int)
    requires Rising(ts) && Spread(ts, m, gap)
    ensures CountIn(ts, a, a + gap) <= m
  {
    if ts != [] {
      var n := |ts|;
      if ts[n - 1] > a + gap {
        AtMostInWindow(ts[..n - 1], m, gap, a);
      } else {
        var k := if n <= m then 0 else n - m;
        if n > m {
          assert ts[n - 1] - ts[n - 1 - m] > gap;
        }
        NoneBelow(ts[..k], a, a + gap);
        CountTail(ts, k, a, a + gap);
      }
    }
  }

  /** How many entries are at or after `since`. */
  function CountFrom(ts: seq<int>, since: int): nat {
    if ts == [] then 0
    else CountFrom(ts[..|ts| - 1], since) + if ts[|ts| - 1] >= since then 1 else 0
  }

  lemma {:induction false} LateTail(ts: seq<int>, m: nat, since: int)
    requires Rising(ts) && 1 <= m <= |ts| && ts[|ts| - m] >= since
    ensures CountFrom(ts, since) >= m
  {
    if m > 1 {
      LateTail(ts[..|ts| - 1], m - 1, since);
    }
  }

  /** Appending an entry that finds fewer than `m` entries within `gap` before it keeps the spread. */
  lemma SpreadAppend(ts: seq<int>, m: nat, gap: int, t: int)
    requires Rising(ts) && Spread(ts, m, gap) && 1 <= m
    requires forall i :: 0 <= i < |ts| ==> ts[i] <= t
    requires CountFrom(ts, t - gap) < m
    ensures Rising(ts + [t]) && Spread(ts + [t], m, gap)
  {
    if m <= |ts| && ts[|ts| - m] >= t - gap {
      LateTail(ts, m, t - gap);
    }
  }

  lemma {:induction false} CountFromIsIn(ts: seq<int>, since: int, now: int)
    requires forall i :: 0 <= i < |ts| ==> ts[i] <= now
    ensures CountIn(ts, since, now) == CountFrom(ts, since)
  {
    if ts != [] {
      CountFromIsIn(ts[..|ts| - 1], since, now);
    }
  }

  lemma CountFromAppend(ts: seq<int>, t: int, since: int)
    ensures CountFrom(ts + [t], since) == CountFrom(ts, since) + if t >= since then 1 else 0
  {
    assert (ts + [t])[..|ts|] == ts;
  }

  /** Shrinking an interval past nothing changes no count. */
  lemma {:induction false} CountInShorter(ts: seq<int>, a: int, b: int, b': int)
    requires forall i :: 0 <= i < |ts| ==> ts[i] <= b'
    requires b' <= b
    ensures CountIn(ts, a, b) == CountIn(ts, a, b')
  {
    if ts != [] {
      CountInShorter(ts[..|ts| - 1], a, b, b');
    }
  }

  /** With consecutive entries at least `gap` apart, the entries in an interval span all gaps but one. */
  lemma {:induction false} SpacedSpan(ts: seq<int>, gap: int, a: int, span: int)
    requires Rising(ts) && Spread(ts, 1, gap - 1) && gap > 0 && span >= 0
    ensures CountIn(ts, a, a + span) > 0 ==> Repeated(CountIn(ts, a, a + span) - 1, gap) <= span
  {
    if ts != [] {
      var init, last := ts[..|ts| - 1], ts[|ts| - 1];
      SpacedInit(ts, gap);
      if last > a + span {
        SpacedSpan(init, gap, a, span);
      } else if last < a {
        NoneBelow(ts, a, a + span);
      } else if last - gap < a {
        NoneBelow(init, a, a + span);
      } else {
        SpacedSpan(init, gap, a, last - gap - a);
        CountInShorter(init, a, a + span, last - gap);
        assert a + (last - gap - a) == last - gap;
      }
    }
  }

  lemma SpacedInit(ts: seq<int>, gap: int)
    requires Rising(ts) && Spread(ts, 1, gap - 1) && ts != []
    ensures var init := ts[..|ts| - 1];
            && Rising(init) && Spread(init, 1, gap - 1)
            && (forall i :: 0 <= i < |init| ==> init[i] <= ts[|ts| - 1] - gap)
            && (forall i :: 0 <= i < |ts| ==> ts[i] <= ts[|ts| - 1])
  {
    BeforeLast(ts, gap);
  }

  /** Appending an entry at least `gap` after one that covers all others keeps the spacing. */
  lemma SpacedAppend(ts: seq<int>, last: int, gap: int, t: int)
    requires Rising(ts) && Spread(ts, 1, gap - 1) && t - last >= gap && last <= t
    requires forall i :: 0 <= i < |ts| ==> ts[i] <= last
    ensures Rising(ts + [t]) && Spread(ts + [t], 1, gap - 1)
  {
  }

  lemma BeforeLast(ts: seq<int>, gap: int)
    requires Rising(ts) && Spread(ts, 1, gap - 1) && ts != []
    ensures forall i :: 0 <= i < |ts| - 1 ==> ts[i] <= ts[|ts| - 1] - gap
  {
    if |ts| > 1 {
      assert ts[|ts| - 1] - ts[|ts| - 1 - 1] > gap - 1;
    }
  }

  /** At most one entry more than the whole gaps that fit in the interval. */
  lemma SpacedCount(ts: seq<int>, gap: int, a: int, span: int)
    requires Rising(ts) && Spread(ts, 1, gap - 1) && gap > 0 && span >= 0
    ensures CountIn(ts, a, a + span) <= 1 + span / gap
  {
    SpacedSpan(ts, gap, a, span);
    if CountIn(ts, a, a + span) > 0 {
      RepeatedFits(CountIn(ts, a, a + span) - 1, gap, span);
    }
  }
}
