/** include/qrmci/PublicationThrottle.h: at most one publication slot per interval. */
module Throttle {
  import opened Protocol

  predicate Due(last: Option<int>, interval: int, now: int) {
    last.None? || now - last.value >= interval
  }

  function Last(claims: seq<int>): Option<int> {
    if claims == [] then None else Some(claims[|claims| - 1])
  }

  /** The granted times among the call times `calls`. */
  ghost function Claims(interval: int, calls: seq<int>): seq<int> {
    if calls == [] then []
    else
      var earlier, now := Claims(interval, calls[..|calls| - 1]), calls[|calls| - 1];
      if Due(Last(earlier), interval, now) then earlier + [now] else earlier
  }

  ghost predicate Sorted(ts: seq<int>) {
    forall i, j :: 0 <= i <= j < |ts| ==> ts[i] <= ts[j]
  }

  ghost predicate Spaced(ts: seq<int>, interval: int) {
    forall i, j :: 0 <= i < j < |ts| ==> ts[j] - ts[i] >= interval
  }

  /** The members of `ts` within [from, to]. */
  ghost function Within(ts: seq<int>, from: int, to: int): seq<int> {
    if ts == [] then []
    else
      var t := ts[|ts| - 1];
      Within(ts[..|ts| - 1], from, to) + if from <= t <= to then [t] else []
  }

  class PublicationThrottle {
    const interval: int
    var lastClaimed: Option<int>
    ghost var calls: seq<int>

    ghost predicate Valid()
      reads this
    {
      lastClaimed == Last(Claims(interval, calls))
    }

    constructor (interval: int)
      ensures Valid() && this.interval == interval && calls == [] && lastClaimed == None
    {
      this.interval, lastClaimed, calls := interval, None, [];
    }

    method Claim(now: int) returns (granted: bool)
      requires Valid()
      modifies this
      ensures Valid() && calls == old(calls) + [now]
      ensures granted <==> Due(old(lastClaimed), interval, now)
      ensures lastClaimed == if granted then Some(now) else old(lastClaimed)
      ensures Claims(interval, calls) == Claims(interval, old(calls)) + if granted then [now] else []
    {
      ghost var before := calls;
      calls := calls + [now];
      assert calls[..|calls| - 1] == before;
      if lastClaimed.Some? && now - lastClaimed.value < interval {
        return false;
      }
      lastClaimed := Some(now);
      granted := true;
    }
  }

  lemma ClaimsPush(interval: int, calls: seq<int>, now: int)
    ensures var earlier := Claims(interval, calls);
            Claims(interval, calls + [now]) == if Due(Last(earlier), interval, now) then earlier + [now] else earlier
  {
    assert (calls + [now])[..|calls|] == calls;
  }

  lemma SortedPush(ts: seq<int>, t: int)
    requires Sorted(ts) && forall x :: x in ts ==> x <= t
    ensures Sorted(ts + [t])
  {
    assert forall i :: 0 <= i < |ts| ==> ts[i] in ts;
  }

  lemma LastPush(ts: seq<int>, t: int)
    ensures Last(ts + [t]) == Some(t)
  {
  }

  /** Granted slots are call times, in order, at least one interval apart. */
  lemma {:induction false} ClaimsAreSpaced(interval: int, calls: seq<int>)
    requires interval > 0
    ensures Spaced(Claims(interval, calls), interval)
    ensures forall c :: c in Claims(interval, calls) ==> c in calls
  {
    if calls != [] {
      ClaimsAreSpaced(interval, calls[..|calls| - 1]);
    }
  }

  /** At most floor(length / interval) + 1 slots fall in any window of that length. */
  lemma PublicationBound(interval: int, claims: seq<int>, from: int, length: nat)
    requires interval > 0 && Spaced(claims, interval)
    ensures |Within(claims, from, from + length)| <= length / interval + 1
  {
    hide Within, Spaced;
    var w := Within(claims, from, from + length);
    WithinIsSpaced(claims, interval, from, from + length);
    if w != [] {
      SpreadOfSpaced(w, interval);
      assert w[0] in w && w[|w| - 1] in w;
      assert (|w| - 1) * interval <= length;
      Quotient(|w| - 1, interval, length);
    }
  }

  lemma Quotient(n: nat, d: int, length: nat)
    requires d > 0 && n * d <= length
    ensures n <= length / d
  {
    assert length == d * (length / d) + length % d;
    LessByFactor(n, length / d + 1, d);
  }

  lemma LessByFactor(n: int, m: int, d: int)
    requires d > 0 && n * d < d * m
    ensures n < m
  {
  }

  lemma {:induction false} WithinIsSpaced(ts: seq<int>, interval: int, from: int, to: int)
    requires Spaced(ts, interval)
    ensures Spaced(Within(ts, from, to), interval)
    ensures forall t :: t in Within(ts, from, to) ==> t in ts && from <= t <= to
  {
    if ts != [] {
      var n := |ts| - 1;
      var earlier := Within(ts[..n], from, to);
      WithinIsSpaced(ts[..n], interval, from, to);
      forall i | 0 <= i < |earlier|
        ensures ts[n] - earlier[i] >= interval
      {
        assert earlier[i] in earlier;
        var k :| 0 <= k < n && ts[..n][k] == earlier[i];
        assert ts[k] == earlier[i];
      }
    }
  }

  lemma {:induction false} SpreadOfSpaced(ts: seq<int>, interval: int)
    requires ts != [] && Spaced(ts, interval)
    ensures ts[|ts| - 1] - ts[0] >= (|ts| - 1) * interval
  {
    var n := |ts| - 1;
    if n > 0 {
      SpreadOfSpaced(ts[..n], interval);
      assert n * interval == (n - 1) * interval + interval;
    }
  }

  // ---- What is done in the slots ----------------------------------------------------

  /** Something done in the slot claimed at `claim`, at time `at`. */
  datatype Act = Act(claim: int, at: int)

  function Times(acts: seq<Act>): seq<int> {
    seq(|acts|, i requires 0 <= i < |acts| => acts[i].at)
  }

  /** Each act comes after its own slot was claimed and before any later one was. */
  ghost predicate Trails(acts: seq<Act>, interval: int) {
    && (forall i :: 0 <= i < |acts| ==> acts[i].claim <= acts[i].at)
    && (forall i, j :: 0 <= i < j < |acts| ==>
          acts[j].claim - acts[i].claim >= interval && acts[i].at <= acts[j].claim)
  }

  ghost function During(acts: seq<Act>, from: int, to: int): seq<Act> {
    if acts == [] then []
    else
      var a := acts[|acts| - 1];
      During(acts[..|acts| - 1], from, to) + if from <= a.at <= to then [a] else []
  }

  lemma {:induction false} DuringTrails(acts: seq<Act>, interval: int, from: int, to: int)
    requires Trails(acts, interval)
    ensures Trails(During(acts, from, to), interval)
    ensures forall a :: a in During(acts, from, to) ==> a in acts && from <= a.at <= to
  {
    if acts != [] {
      var n := |acts| - 1;
      var earlier := During(acts[..n], from, to);
      DuringTrails(acts[..n], interval, from, to);
      forall a | a in earlier
        ensures acts[n].claim - a.claim >= interval && a.at <= acts[n].claim
      {
        var k :| 0 <= k < n && acts[..n][k] == a;
        assert acts[k] == a;
      }
      if from <= acts[n].at <= to {
        TrailsPush(earlier, acts[n], interval);
      }
    }
  }

  lemma TrailsPush(acts: seq<Act>, a: Act, interval: int)
    requires Trails(acts, interval) && a.claim <= a.at
    requires forall b :: b in acts ==> a.claim - b.claim >= interval && b.at <= a.claim
    ensures Trails(acts + [a], interval)
  {
  }

  lemma {:induction false} TimesDuring(acts: seq<Act>, from: int, to: int)
    ensures Times(During(acts, from, to)) == Within(Times(acts), from, to)
  {
    if acts != [] {
      var n := |acts| - 1;
      TimesDuring(acts[..n], from, to);
      assert Times(acts)[..n] == Times(acts[..n]);
    }
  }

  /** Acts may lag behind their slots, so a window can catch one more act than slots: at
      most floor(length / interval) + 2. */
  lemma ActBound(interval: int, acts: seq<Act>, from: int, length: nat)
    requires interval > 0 && Trails(acts, interval)
    ensures |Within(Times(acts), from, from + length)| <= length / interval + 2
  {
    hide Within, During;
    var w := During(acts, from, from + length);
    DuringTrails(acts, interval, from, from + length);
    TimesDuring(acts, from, from + length);
    if |w| > 1 {
      var later := Claimed(w[1..]);
      assert Spaced(later, interval);
      SpreadOfSpaced(later, interval);
      assert w[0] in w && w[|w| - 1] in w;
      Quotient(|w| - 2, interval, length);
    }
  }

  function Claimed(acts: seq<Act>): seq<int> {
    seq(|acts|, i requires 0 <= i < |acts| => acts[i].claim)
  }

  ghost predicate WithinSlots(acts: seq<Act>, interval: int)
    requires interval > 0
  {
    forall from, to :: from <= to ==> |Within(Times(acts), from, to)| <= (to - from) / interval + 1
  }

  ghost predicate LagNeverShrinks(acts: seq<Act>) {
    forall i, j :: 0 <= i < j < |acts| ==> acts[i].at - acts[i].claim <= acts[j].at - acts[j].claim
  }

  /** The bound of the slots themselves, floor(length / interval) + 1 in every window, means
      of sorted acts that no two are less than an interval apart. */
  lemma SlotBoundIsSpacing(interval: int, acts: seq<Act>)
    requires interval > 0 && Trails(acts, interval)
    ensures WithinSlots(acts, interval) <==> Spaced(Times(acts), interval)
    ensures LagNeverShrinks(acts) ==> WithinSlots(acts, interval)
  {
    hide Within, WithinSlots, Spaced;
    if Spaced(Times(acts), interval) {
      SpacedMeetsSlotBound(interval, acts);
    } else {
      CloseActsBreakSlotBound(interval, acts);
    }
    if LagNeverShrinks(acts) {
      SteadyLagIsSpaced(interval, acts);
    }
  }

  lemma SpacedMeetsSlotBound(interval: int, acts: seq<Act>)
    requires interval > 0 && Spaced(Times(acts), interval)
    ensures WithinSlots(acts, interval)
  {
    hide Within, Spaced, Times;
    forall from, to | from <= to ensures |Within(Times(acts), from, to)| <= (to - from) / interval + 1 {
      PublicationBound(interval, Times(acts), from, to - from);
    }
  }

  lemma CloseActsBreakSlotBound(interval: int, acts: seq<Act>)
    requires interval > 0 && Trails(acts, interval) && !Spaced(Times(acts), interval)
    ensures !WithinSlots(acts, interval)
  {
    hide Within, WithinSlots;
    var i, j :| 0 <= i < j < |acts| && Times(acts)[j] - Times(acts)[i] < interval;
    assert acts[i].at <= acts[j].claim <= acts[j].at;
    TwoWithin(Times(acts), i, j, acts[i].at, acts[j].at);
    TwoInShortWindow(interval, acts, acts[i].at, acts[j].at);
  }

  lemma TwoInShortWindow(interval: int, acts: seq<Act>, from: int, to: int)
    requires 0 <= to - from < interval && |Within(Times(acts), from, to)| >= 2
    ensures !WithinSlots(acts, interval)
  {
    hide Within, Times;
    ShortWindow(to - from, interval);
  }

  lemma ShortWindow(length: int, interval: int)
    requires 0 <= length < interval
    ensures length / interval == 0
  {
  }

  lemma SteadyLagIsSpaced(interval: int, acts: seq<Act>)
    requires Trails(acts, interval) && LagNeverShrinks(acts)
    ensures Spaced(Times(acts), interval)
  {
  }

  /** Every act comes between `lo` and `hi` after its slot was claimed. */
  ghost predicate Latency(acts: seq<Act>, lo: int, hi: int) {
    forall i :: 0 <= i < |acts| ==> lo <= acts[i].at - acts[i].claim <= hi
  }

  /** Latencies that are all equal, or all at least an interval. */
  predicate Steady(interval: int, lo: int, hi: int) {
    lo == hi || lo >= interval
  }

  lemma SteadyActsMeetSlotBound(interval: int, acts: seq<Act>, lo: int, hi: int)
    requires interval > 0 && Trails(acts, interval) && Latency(acts, lo, hi) && Steady(interval, lo, hi)
    ensures WithinSlots(acts, interval)
  {
    SlotBoundIsSpacing(interval, acts);
  }

  /** The shortest act after the longest one, as early as its slot can come. */
  function LateThenEarly(interval: int, start: int, lo: int, hi: int): seq<Act> {
    var c := start + if hi > interval then hi else interval;
    [Act(start, start + hi), Act(c, c + lo)]
  }

  lemma UnsteadyActsBreakSlotBound(interval: int, start: int, lo: int, hi: int)
    requires interval > 0 && 0 <= lo <= hi && !Steady(interval, lo, hi)
    ensures var acts := LateThenEarly(interval, start, lo, hi);
            Trails(acts, interval) && Latency(acts, lo, hi) && !WithinSlots(acts, interval)
  {
    var acts := LateThenEarly(interval, start, lo, hi);
    SlotBoundIsSpacing(interval, acts);
    assert Times(acts)[1] - Times(acts)[0] < interval;
  }

  /** Which latencies meet the slots' bound, whatever is done in whichever slots: exactly
      the steady ones. */
  lemma SlotBoundHoldsExactlyForSteadyLatency(interval: int, lo: int, hi: int)
    requires interval > 0 && 0 <= lo <= hi
    ensures (forall acts :: Trails(acts, interval) && Latency(acts, lo, hi) ==> WithinSlots(acts, interval))
       <==> Steady(interval, lo, hi)
  {
    hide Trails, Latency, WithinSlots;
    if Steady(interval, lo, hi) {
      forall acts | Trails(acts, interval) && Latency(acts, lo, hi) ensures WithinSlots(acts, interval) {
        SteadyActsMeetSlotBound(interval, acts, lo, hi);
      }
    } else {
      UnsteadyActsBreakSlotBound(interval, 0, lo, hi);
    }
  }

  /** In general jitter lengthens the window: latencies within [lo, hi] allow at most
      floor((length + hi - lo) / interval) + 1 acts. */
  lemma JitterBound(interval: int, acts: seq<Act>, lo: int, hi: int, from: int, length: nat)
    requires interval > 0 && Trails(acts, interval) && Latency(acts, lo, hi) && lo <= hi
    ensures |Within(Times(acts), from, from + length)| <= (length + hi - lo) / interval + 1
  {
    hide Within, During;
    var w := During(acts, from, from + length);
    DuringTrails(acts, interval, from, from + length);
    TimesDuring(acts, from, from + length);
    if w != [] {
      assert Spaced(Claimed(w), interval);
      SpreadOfSpaced(Claimed(w), interval);
      assert w[0] in w && w[|w| - 1] in w;
      Quotient(|w| - 1, interval, length + hi - lo);
    }
  }

  lemma {:induction false} TwoWithin(ts: seq<int>, i: nat, j: nat, from: int, to: int)
    requires i < j < |ts| && from <= ts[i] <= to && from <= ts[j] <= to
    ensures |Within(ts, from, to)| >= 2
  {
    var n := |ts| - 1;
    if j < n {
      TwoWithin(ts[..n], i, j, from, to);
    } else {
      OneWithin(ts[..n], i, from, to);
    }
  }

  lemma {:induction false} OneWithin(ts: seq<int>, i: nat, from: int, to: int)
    requires i < |ts| && from <= ts[i] <= to
    ensures |Within(ts, from, to)| >= 1
  {
    var n := |ts| - 1;
    if i < n {
      OneWithin(ts[..n], i, from, to);
    }
  }

  /** Calls at most `g` apart keep consecutive slots less than interval + g apart, and
      the last call never trails the last slot by a whole interval. */
  lemma {:induction false} ClaimGaps(interval: int, calls: seq<int>, g: int)
    requires interval > 0 && calls != [] && Sorted(calls)
    requires forall i :: 0 <= i < |calls| - 1 ==> calls[i + 1] - calls[i] <= g
    ensures var cs := Claims(interval, calls);
            && cs != []
            && 0 <= calls[|calls| - 1] - cs[|cs| - 1] < interval
            && forall i :: 0 <= i < |cs| - 1 ==> cs[i + 1] - cs[i] < interval + g
  {
    var n := |calls| - 1;
    if n > 0 {
      var earlier := calls[..n];
      ClaimGaps(interval, earlier, g);
      assert calls[n] - earlier[n - 1] <= g;
    } else {
      assert calls[..n] == [];
    }
  }
}
