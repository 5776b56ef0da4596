/** How many recent messages a compaction keeps: as many as fit a quarter of the token threshold. */
module KeepRecent {
  import opened Messages
  import opened ToolGroups

  /** `keep` is the setting, `window` the model's context window (0 when unknown). */
  datatype KeepConfig = KeepConfig(keep: int, window: nat, threshold: nat, reported: int)

  function BaseKeep(c: KeepConfig): int {
    if c.window != 0 && c.window / 100_000 > c.keep then c.window / 100_000 else c.keep
  }

  /** The estimate runs high; the provider's count scales it down, never up. */
  function Scale(h: seq<Message>, reported: int): (s: real)
    ensures 0.0 < s <= 1.0
  {
    if reported > 0 && Estimate(h) > 0 && reported < Estimate(h)
    then reported as real / Estimate(h) as real
    else 1.0
  }

  /** The setting, or one message for each 100K of a known window where that is more. */
  lemma BaseKeepIsLarger(c: KeepConfig)
    ensures BaseKeep(c) >= c.keep && (BaseKeep(c) == c.keep || BaseKeep(c) * 100_000 <= c.window)
    ensures c.window != 0 ==> c.window < (BaseKeep(c) + 1) * 100_000
  {
  }

  /** Scaled, the estimate of the history is the provider's count where that is lower, and itself otherwise. */
  lemma ScaleMeetsReport(h: seq<Message>, reported: int)
    ensures reported > 0 && Estimate(h) > 0 ==>
              Estimate(h) as real * Scale(h, reported)
                  == (if reported < Estimate(h) then reported else Estimate(h)) as real
    ensures reported <= 0 ==> Scale(h, reported) == 1.0
  {
  }

  function Floor(keep: int): int {
    if keep < 2 then keep else 2
  }

  /** The largest number of messages that can be asked for. */
  function Top(h: seq<Message>, keep: int): int {
    if keep < |h| then keep else |h|
  }

  /** At least two messages are kept, or the setting if that is lower; at most the setting, or all there are. */
  lemma FloorAndTop(h: seq<Message>, keep: int)
    ensures Floor(keep) <= 2 && Floor(keep) <= keep && (Floor(keep) == 2 || Floor(keep) == keep)
    ensures Top(h, keep) <= keep && Top(h, keep) <= |h| && (Top(h, keep) == keep || Top(h, keep) == |h|)
  {
  }

  /** What the cut for k messages, walked back over tool groups, really keeps. */
  function CutCost(h: seq<Message>, k: int): nat
    requires k > 0
  {
    SplitDefined(h, k);
    SplitIsTight(h, k);
    Estimate(h[SplitPoint(h, k).value..])
  }

  predicate Fits(h: seq<Message>, k: int, scale: real, budget: nat)
    requires k > 0
  {
    CutCost(h, k) as real * scale <= budget as real
  }

  /** r is the largest fitting count above the floor, or the floor when none fits. */
  ghost predicate IsKeepCount(h: seq<Message>, c: KeepConfig, r: int) {
    var keep := BaseKeep(c);
    if h == [] || keep <= 0 then r == keep
    else
      var floor, top := Floor(keep), Top(h, keep);
      var scale, budget := Scale(h, c.reported), c.threshold / 4;
      && (if floor < r then r <= top && Fits(h, r, scale, budget) else r == Top(h, floor))
      && forall k :: floor < k <= top && r < k ==> !Fits(h, k, scale, budget)
  }

  /** The count is determined: at most one number qualifies. */
  lemma KeepCountUnique(h: seq<Message>, c: KeepConfig, a: int, b: int)
    requires IsKeepCount(h, c, a) && IsKeepCount(h, c, b)
    ensures a == b
  {
  }

  /** Per-message estimates, each rounded down. */
  /**
   * In plain terms: more than two messages are kept only if what the cut for them really keeps, scaled,
   * fits a quarter of the threshold, and no larger number within the setting and the history would fit.
   */
  lemma KeepCountMeaning(h: seq<Message>, c: KeepConfig, r: int, k: int)
    requires IsKeepCount(h, c, r) && h != [] && BaseKeep(c) > 0
    ensures r <= BaseKeep(c) && r <= |h| && (r >= 2 || r == BaseKeep(c) || r == |h|)
    ensures r > 2 ==>
              && SplitPoint(h, r).Some? && SplitPoint(h, r).value <= |h|
              && Estimate(h[SplitPoint(h, r).value..]) as real * Scale(h, c.reported) <= (c.threshold / 4) as real
    ensures r < k <= BaseKeep(c) && 2 < k <= |h| ==>
              && SplitPoint(h, k).Some? && SplitPoint(h, k).value <= |h|
              && Estimate(h[SplitPoint(h, k).value..]) as real * Scale(h, c.reported) > (c.threshold / 4) as real
  {
    hide Estimate, Scale, SplitPoint, BaseKeep;
    if r > 2 {
      SplitDefined(h, r);
      SplitIsTight(h, r);
      assert Fits(h, r, Scale(h, c.reported), c.threshold / 4);
    }
    if r < k <= BaseKeep(c) && 2 < k <= |h| {
      SplitDefined(h, k);
      SplitIsTight(h, k);
      assert !Fits(h, k, Scale(h, c.reported), c.threshold / 4);
    }
  }

  function RoundedCost(h: seq<Message>): nat {
    if h == [] then 0 else |h[0].content| / 3 + RoundedCost(h[1..])
  }

  lemma {:induction false} RoundingLoses(h: seq<Message>)
    ensures RoundedCost(h) <= Estimate(h)
  {
    if h != [] {
      RoundingLoses(h[1..]);
    }
  }

  lemma {:induction false} CostOfSuffix(h: seq<Message>, i: nat, j: nat)
    requires i <= j <= |h|
    ensures RoundedCost(h[j..]) <= RoundedCost(h[i..])
    decreases j - i
  {
    if i < j {
      assert h[i..][1..] == h[i + 1..];
      CostOfSuffix(h, i + 1, j);
    }
  }

  lemma ScaleMonotone(a: nat, b: nat, scale: real)
    requires a <= b && 0.0 < scale
    ensures a as real * scale <= b as real * scale
  {
    assert (b as real - a as real) * scale >= 0.0;
  }

  lemma CutCostsAtLeast(h: seq<Message>, m: int, k: int)
    requires 0 < m <= k <= |h|
    ensures RoundedCost(h[|h| - m..]) <= CutCost(h, k)
  {
    hide SplitPoint, Chars, RoundedCost;
    SplitDefined(h, k);
    SplitIsTight(h, k);
    var split := SplitPoint(h, k).value;
    CostOfSuffix(h, split, |h| - m);
    RoundingLoses(h[split..]);
  }

  /** Once the rounded costs of the last m messages overrun, no cut keeping m or more can fit. */
  lemma OverrunNeverFits(h: seq<Message>, m: int, k: int, scale: real, budget: nat)
    requires 0 < m <= k <= |h| && 0.0 < scale
    requires RoundedCost(h[|h| - m..]) as real * scale > budget as real
    ensures !Fits(h, k, scale, budget)
  {
    hide CutCost, RoundedCost;
    CutCostsAtLeast(h, m, k);
    ScaleMonotone(RoundedCost(h[|h| - m..]), CutCost(h, k), scale);
  }

  /** First pass: count back from the newest message while the rounded costs fit. */
  method CountNewest(h: seq<Message>, floor: int, top: int, scale: real, budget: nat) returns (kept: int)
    requires 0 <= top <= |h| && 0.0 < scale
    ensures 0 <= kept <= top
    ensures kept < top ==> kept >= floor && RoundedCost(h[|h| - kept - 1..]) as real * scale > budget as real
  {
    kept := 0;
    var used := 0.0;
    while kept < top
      invariant 0 <= kept <= top
      invariant used == RoundedCost(h[|h| - kept..]) as real * scale
    {
      var i := |h| - 1 - kept;
      var cost := (|h[i].content| / 3) as real * scale;
      assert h[i..][1..] == h[i + 1..];
      assert RoundedCost(h[i..]) as real * scale == used + cost;
      if kept >= floor && used + cost > budget as real {
        break;
      }
      kept := kept + 1;
      used := used + cost;
    }
  }

  method CutFits(h: seq<Message>, k: int, scale: real, budget: nat) returns (fits: bool)
    requires k > 0
    ensures fits == Fits(h, k, scale, budget)
  {
    var split := FindSplitPoint(h, k);
    SplitDefined(h, k);
    SplitIsTight(h, k);
    fits := Estimate(h[split.value..]) as real * scale <= budget as real;
  }

  /** Second pass: give messages up until the cut that is really made fits. */
  method ShrinkToCut(h: seq<Message>, floor: int, start: int, scale: real, budget: nat) returns (kept: int)
    requires 0 <= floor && start <= |h|
    ensures kept <= start
    ensures start <= floor ==> kept == start
    ensures start > floor ==> kept >= floor
    ensures kept > floor ==> Fits(h, kept, scale, budget)
    ensures forall k :: kept < k <= start && floor < k ==> !Fits(h, k, scale, budget)
  {
    kept := start;
    while kept > floor
      invariant kept <= start
      invariant start <= floor ==> kept == start
      invariant start > floor ==> kept >= floor
      invariant forall k :: kept < k <= start && floor < k ==> !Fits(h, k, scale, budget)
    {
      var fits := CutFits(h, kept, scale, budget);
      if fits {
        break;
      }
      kept := kept - 1;
    }
  }

  method KeepRecentCount(h: seq<Message>, c: KeepConfig) returns (r: int)
    ensures IsKeepCount(h, c, r)
  {
    hide Fits, RoundedCost, Chars, SplitPoint;
    var keep := BaseKeep(c);
    if h == [] || keep <= 0 {
      return keep;
    }
    var budget := c.threshold / 4;
    var scale := Scale(h, c.reported);
    var floor, top := Floor(keep), Top(h, keep);
    var newest := CountNewest(h, floor, top, scale, budget);
    r := ShrinkToCut(h, floor, newest, scale, budget);
    forall k | newest < k <= top && floor < k
      ensures !Fits(h, k, scale, budget)
    {
      OverrunNeverFits(h, newest + 1, k, scale, budget);
    }
  }
}
