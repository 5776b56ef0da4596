/** Token thresholds, and what the next request is taken to carry. */
module Budget {
  import opened Options
  import opened Messages

  const AUTO_THRESHOLD_CAP := 272_000
  const FALLBACK_THRESHOLD := 100_000

  /** The absolute boundary cap; a window of zero is unknown. */
  function HardCap(window: nat): nat {
    if window == 0 then FALLBACK_THRESHOLD
    else if window < AUTO_THRESHOLD_CAP then window
    else AUTO_THRESHOLD_CAP
  }

  /**
   * The cap is the smaller of a known window and the ceiling of 272K, and 100K for an unknown window: it
   * is at most each of the two and one of them.
   */
  lemma CapIsWindowOrCeiling(window: nat)
    ensures window == 0 ==> HardCap(window) == 100_000
    ensures window > 0 ==>
              && HardCap(window) <= window && HardCap(window) <= 272_000
              && (HardCap(window) == window || HardCap(window) == 272_000)
  {
  }

  function Clamp(x: real, low: real, high: real): real {
    var y := if x < high then x else high;
    if low > y then low else y
  }

  /** A clamped value lies within its bounds and is the value itself where that does. */
  lemma ClampIsNearest(x: real, low: real, high: real)
    requires low <= high
    ensures low <= Clamp(x, low, high) <= high
    ensures low <= x <= high ==> Clamp(x, low, high) == x
    ensures x < low ==> Clamp(x, low, high) == low
    ensures x > high ==> Clamp(x, low, high) == high
  {
  }

  /** The part of the window the ratio setting allows, clamped. */
  function Share(window: nat, ratio: real): int {
    (window as real * Clamp(ratio, 0.5, 0.95)).Floor
  }

  datatype Source = Automatic | Fallback | Manual

  /** The automatic trigger and the policy that set it; `tokenK` is the manual setting in thousands. */
  function TokenThreshold(window: nat, ratio: real, tokenK: int): (int, Source) {
    var provider := if window > 0 then Share(window, ratio) else FALLBACK_THRESHOLD;
    var safe := if provider < AUTO_THRESHOLD_CAP then provider else AUTO_THRESHOLD_CAP;
    if tokenK > 0 && tokenK * 1000 < safe then (tokenK * 1000, Manual)
    else (safe, if window > 0 then Automatic else Fallback)
  }

  /** Whatever the settings, the trigger is at or below the cap, and a manual one is strictly the lowest. */
  lemma TriggerBelowCap(window: nat, ratio: real, tokenK: int)
    ensures var (t, source) := TokenThreshold(window, ratio, tokenK);
            && 0 <= t <= HardCap(window)
            && (source == Manual <==> tokenK > 0 && tokenK * 1000 < TokenThreshold(window, ratio, 0).0)
            && (window > 0 ==> t < window)
            && t <= TokenThreshold(window, ratio, 0).0
  {
    hide Share;
    ShareBelowWindow(window, ratio);
  }

  /** The automatic limits, whichever apply. */
  predicate Limits(window: nat, ratio: real, tokenK: int, t: int) {
    || t == 272_000
    || (window == 0 && t == 100_000)
    || (window > 0 && t == Share(window, ratio))
    || (tokenK > 0 && t == tokenK * 1000)
  }

  /** The trigger is the least of the ceiling, the share of the window or 100K, and a manual setting. */
  lemma TriggerIsLeastLimit(window: nat, ratio: real, tokenK: int)
    ensures Limits(window, ratio, tokenK, TokenThreshold(window, ratio, tokenK).0)
    ensures forall t :: Limits(window, ratio, tokenK, t) ==> TokenThreshold(window, ratio, tokenK).0 <= t
    ensures TokenThreshold(window, ratio, tokenK).1
         == if tokenK > 0 && tokenK * 1000 < TokenThreshold(window, ratio, 0).0 then Manual
            else if window > 0 then Automatic else Fallback
  {
    hide Share;
  }

  /** The share is the clamped ratio of the window, rounded down. */
  lemma ShareIsRatio(window: nat, ratio: real)
    ensures var r := Clamp(ratio, 0.5, 0.95);
            Share(window, ratio) as real <= window as real * r < Share(window, ratio) as real + 1.0
  {
    hide Clamp;
  }

  lemma ShareBelowWindow(window: nat, ratio: real)
    ensures 0 <= Share(window, ratio) <= window && (window > 0 ==> Share(window, ratio) < window)
  {
    var x, r := window as real, Clamp(ratio, 0.5, 0.95);
    FloorBelow(window, r);
  }

  lemma FloorBelow(n: nat, r: real)
    requires 0.5 <= r <= 0.95
    ensures 0 <= (n as real * r).Floor <= n && (n > 0 ==> (n as real * r).Floor < n)
  {
    var x := n as real;
    TimesMonotone(x, 0.0, r);
    TimesMonotone(x, r, 0.95);
    var y := x * r;
    assert 0.0 <= y <= x * 0.95;
    assert n > 0 ==> y < x;
  }

  lemma TimesMonotone(x: real, a: real, b: real)
    requires x >= 0.0 && a <= b
    ensures x * a <= x * b
  {
    assert x * (b - a) >= 0.0;
  }

  lemma RatioTimes(e: real, r: real)
    requires e > 0.0
    ensures e * (r / e) == r
  {
  }

  /** The provider's last count, whether a swap made it stale, and the calibrated scale. */
  datatype Meter = Meter(reported: int, stale: bool, scale: Option<real>)

  function EstimatedPrompt(h: seq<Message>, m: Meter): nat {
    if m.scale.None? then Estimate(h)
    else
      var x := Estimate(h) as real * m.scale.value;
      if x <= 0.0 then 0 else x.Floor
  }

  function Effective(h: seq<Message>, m: Meter): int {
    if m.stale || m.reported <= 0 then EstimatedPrompt(h, m) else m.reported
  }

  function Outgoing(h: seq<Message>, m: Meter): int {
    if Effective(h, m) < EstimatedPrompt(h, m) then EstimatedPrompt(h, m) else Effective(h, m)
  }

  /** What a request carries: no less than the estimate, and no less than a count that is still valid. */
  lemma OutgoingIsLarger(h: seq<Message>, m: Meter)
    ensures Outgoing(h, m) >= EstimatedPrompt(h, m)
    ensures m.reported > 0 && !m.stale ==> Outgoing(h, m) >= m.reported
    ensures Outgoing(h, m) == EstimatedPrompt(h, m) || (m.reported > 0 && !m.stale && Outgoing(h, m) == m.reported)
  {
    hide EstimatedPrompt;
  }

  /** The estimate is the scaled third of the characters, rounded down. */
  lemma EstimateIsScaled(h: seq<Message>, m: Meter)
    ensures m.scale == None ==> EstimatedPrompt(h, m) == Estimate(h)
    ensures m.scale.Some? && m.scale.value >= 0.0 ==>
              var x := Estimate(h) as real * m.scale.value;
              EstimatedPrompt(h, m) as real <= x < EstimatedPrompt(h, m) as real + 1.0
  {
    hide Estimate;
    if m.scale.Some? && m.scale.value >= 0.0 {
      TimesMonotone(Estimate(h) as real, 0.0, m.scale.value);
    }
  }

  /** Calibrates against a finished request for h. */
  function Recorded(h: seq<Message>, m: Meter): Meter {
    m.(stale := false,
       scale := if m.reported > 0 && Estimate(h) > 0
       then Some(Clamp(m.reported as real / Estimate(h) as real, 0.10, 1.50))
       else m.scale)
  }

  /** Whatever was reported, the scale stays between a tenth and one and a half, and the count is fresh again. */
  lemma CalibrationIsBounded(h: seq<Message>, m: Meter)
    ensures !Recorded(h, m).stale && Recorded(h, m).reported == m.reported
    ensures m.reported > 0 && Estimate(h) > 0 ==>
              Recorded(h, m).scale.Some? && 0.10 <= Recorded(h, m).scale.value <= 1.50
    ensures m.reported <= 0 || Estimate(h) == 0 ==> Recorded(h, m).scale == m.scale
  {
    hide Estimate;
  }

  /** The signature of a history: its length and its characters. */
  function Signature(h: seq<Message>): (nat, nat) {
    (|h|, Chars(h))
  }

  /** A boundary check that let a history pass under the cap of the moment. */
  datatype Pass = Pass(turn: nat, history: seq<Message>, meter: Meter, cap: nat)

  /** The guard fields, if set, are the turn and the signature of such a pass. */
  ghost predicate Honest(turn: Option<nat>, signature: Option<(nat, nat)>, pass: Option<Pass>) {
    turn.Some? && signature.Some? ==>
      && pass.Some? && pass.value.turn == turn.value && Signature(pass.value.history) == signature.value
      && Outgoing(pass.value.history, pass.value.meter) < pass.value.cap
  }

  /** Histories with one signature weigh the same on the same meter. */
  lemma SignatureDecidesWeight(h: seq<Message>, h': seq<Message>, m: Meter)
    requires Signature(h) == Signature(h')
    ensures Outgoing(h, m) == Outgoing(h', m) && |h| == |h'| && Chars(h) == Chars(h')
  {
    hide Chars;
  }

  /**
   * A guarded repeat: this turn has let a history of the same signature pass, this history would have
   * passed then too, and it is over the cap now exactly because the meter or the cap has changed.
   */
  lemma RepeatNeedsNewMeter(turn: nat, h: seq<Message>, pass: Option<Pass>, m: Meter, cap: nat)
    requires Honest(Some(turn), Some(Signature(h)), pass)
    ensures pass.Some? && pass.value.turn == turn && Outgoing(h, pass.value.meter) < pass.value.cap
    ensures Outgoing(h, m) >= cap ==> m != pass.value.meter || cap < pass.value.cap
  {
    SignatureDecidesWeight(h, pass.value.history, pass.value.meter);
  }

  /**
   * Right after a request whose count lies within the calibration range, the sent history weighs
   * exactly what the provider reported, and whatever is appended can only add to it.
   */
  lemma CalibrationIsExact(h: seq<Message>, m: Meter, more: seq<Message>)
    requires m.reported > 0 && Estimate(h) > 0
    requires 0.10 <= m.reported as real / Estimate(h) as real <= 1.50
    ensures Outgoing(h, Recorded(h, m)) == m.reported
    ensures Outgoing(h + more, Recorded(h, m)) >= m.reported
    ensures Outgoing(h + more, Recorded(h, m)) == EstimatedPrompt(h + more, Recorded(h, m))
  {
    hide Chars;
    CharsConcat(h, more);
    var a, b, r := Estimate(h), Estimate(h + more), m.reported;
    var s := r as real / a as real;
    assert Recorded(h, m) == Meter(r, false, Some(s));
    RatioTimes(a as real, r as real);
    assert s > 0.0;
    TimesMonotone(s, a as real, b as real);
    assert b as real * s >= r as real;
  }
}
