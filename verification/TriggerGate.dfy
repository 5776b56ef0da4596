/**
 * The automatic trigger and its can't-shrink stop: after a round is applied, a prompt that is still
 * over the threshold pauses the trigger until it has grown by a tenth of the threshold.
 */
module TriggerGate {
  import opened Options

  /** A round was just applied; the paused floor; the count at the last trigger. */
  datatype Gate = Gate(justApplied: bool, floor: Option<int>, atTrigger: int)

  /** One look at the prompt: its count, and whether the human-turn gate would let it pass. */
  datatype Look = Look(count: int, pass: bool)

  function Observe(g: Gate, look: Look, threshold: nat): Gate {
    if look.count < threshold then g.(justApplied := false, floor := None)
    else if g.justApplied then
      if look.count == g.atTrigger then g else g.(justApplied := false, floor := Some(look.count))
    else if g.floor.Some? && look.count < g.floor.value + threshold / 10 then g
    else g.(floor := None, atTrigger := if look.pass then look.count else g.atTrigger)
  }

  predicate Fires(g: Gate, look: Look, threshold: nat) {
    && look.count >= threshold && !g.justApplied
    && (g.floor.Some? ==> look.count >= g.floor.value + threshold / 10)
    && look.pass
  }

  /** The gate after a number of looks. */
  function After(g: Gate, looks: seq<Look>, threshold: nat): Gate
    decreases |looks|
  {
    if looks == [] then g
    else Observe(After(g, looks[..|looks| - 1], threshold), looks[|looks| - 1], threshold)
  }

  // ---------------------------------------------------------------- the law in terms of counts alone

  /** Where the first count is that is not just the count at the trigger again, or the end. */
  function FreshAt(looks: seq<Look>, stuck: int): (f: nat)
    ensures f <= |looks| && (f < |looks| ==> looks[f].count != stuck)
    ensures forall k :: 0 <= k < f ==> looks[k].count == stuck
  {
    if looks == [] || looks[0].count != stuck then 0 else 1 + FreshAt(looks[1..], stuck)
  }

  predicate FellBelow(looks: seq<Look>, threshold: nat) {
    exists k :: 0 <= k < |looks| && looks[k].count < threshold
  }

  /** The prompt grew by a tenth of the threshold over its first fresh count. */
  predicate Regrew(looks: seq<Look>, stuck: int, threshold: nat) {
    var f := FreshAt(looks, stuck);
    exists e :: f < e < |looks| && looks[e].count >= looks[f].count + threshold / 10
  }

  /** What the gate is after looks that never fell below the threshold. */
  predicate Paused(g: Gate, stuck: int, looks: seq<Look>, threshold: nat) {
    var f := FreshAt(looks, stuck);
    if f == |looks| then g.justApplied && g.atTrigger == stuck
    else !g.justApplied && g.floor == if Regrew(looks, stuck, threshold) then None else Some(looks[f].count)
  }

  lemma {:induction false} FreshStaysFirst(looks: seq<Look>, look: Look, stuck: int)
    ensures var f := FreshAt(looks, stuck);
            FreshAt(looks + [look], stuck) == if f == |looks| && look.count == stuck then f + 1 else f
  {
    var all := looks + [look];
    if looks == [] {
      assert all == [look] && all[1..] == [];
    } else if looks[0].count == stuck {
      assert all[1..] == looks[1..] + [look];
      FreshStaysFirst(looks[1..], look, stuck);
    }
  }

  lemma RegrewStep(looks: seq<Look>, look: Look, stuck: int, threshold: nat)
    ensures var f := FreshAt(looks, stuck);
            Regrew(looks + [look], stuck, threshold)
            <==> Regrew(looks, stuck, threshold) || (f < |looks| && look.count >= looks[f].count + threshold / 10)
  {
    var f, n, all := FreshAt(looks, stuck), |looks|, looks + [look];
    FreshStaysFirst(looks, look, stuck);
    assert forall k :: 0 <= k < n ==> all[k] == looks[k];
    if Regrew(looks, stuck, threshold) {
      var e :| f < e < n && looks[e].count >= looks[f].count + threshold / 10;
      assert all[e].count >= all[f].count + threshold / 10;
    } else if f < n && look.count >= looks[f].count + threshold / 10 {
      assert all[n].count >= all[f].count + threshold / 10;
    }
  }

  lemma PausedStep(g: Gate, stuck: int, looks: seq<Look>, look: Look, threshold: nat)
    requires Paused(g, stuck, looks, threshold) && look.count >= threshold
    ensures Paused(Observe(g, look, threshold), stuck, looks + [look], threshold)
  {
    hide Regrew, FreshAt;
    FreshStaysFirst(looks, look, stuck);
    RegrewStep(looks, look, stuck, threshold);
    if FreshAt(looks, stuck) == |looks| {
      NothingYet(looks, stuck, threshold);
    }
  }

  lemma NothingYet(looks: seq<Look>, stuck: int, threshold: nat)
    requires FreshAt(looks, stuck) == |looks|
    ensures !Regrew(looks, stuck, threshold)
  {
  }

  /** A gate that stays open once a count fell below the threshold. */
  predicate Open(g: Gate) {
    !g.justApplied && g.floor == None
  }

  lemma FellBelowStep(looks: seq<Look>, look: Look, threshold: nat)
    ensures FellBelow(looks + [look], threshold) <==> FellBelow(looks, threshold) || look.count < threshold
  {
    var n, all := |looks|, looks + [look];
    assert all[n] == look && forall k :: 0 <= k < n ==> all[k] == looks[k];
  }

  /** The gate remembers of the looks exactly this. */
  lemma {:induction false} GateIsHistory(g: Gate, looks: seq<Look>, threshold: nat)
    requires g.justApplied
    ensures if FellBelow(looks, threshold) then Open(After(g, looks, threshold))
            else Paused(After(g, looks, threshold), g.atTrigger, looks, threshold)
    decreases |looks|
  {
    hide FellBelow, Paused;
    if looks == [] {
      NothingSeen(g, threshold);
    } else {
      var n := |looks| - 1;
      var init, last := looks[..n], looks[n];
      GateIsHistory(g, init, threshold);
      assert looks == init + [last];
      FellBelowStep(init, last, threshold);
      if !FellBelow(looks, threshold) {
        PausedStep(After(g, init, threshold), g.atTrigger, init, last, threshold);
      }
    }
  }

  lemma NothingSeen(g: Gate, threshold: nat)
    requires g.justApplied
    ensures !FellBelow([], threshold) && Paused(g, g.atTrigger, [], threshold)
  {
  }

  /**
   * After a swap the trigger fires at a look exactly when the look is over the threshold and passes
   * the turn gate, and the count once fell below the threshold or regrew by a tenth of it.
   */
  lemma FiresIff(g: Gate, looks: seq<Look>, look: Look, threshold: nat)
    requires g.justApplied
    ensures Fires(After(g, looks, threshold), look, threshold)
       <==> look.count >= threshold && look.pass
            && (FellBelow(looks, threshold) || Regrew(looks + [look], g.atTrigger, threshold))
  {
    hide Regrew, FellBelow, FreshAt, After;
    GateIsHistory(g, looks, threshold);
    RegrewStep(looks, look, g.atTrigger, threshold);
    if FreshAt(looks, g.atTrigger) == |looks| {
      NothingYet(looks, g.atTrigger, threshold);
    }
  }

  /** Where no round was applied, or the pause is forgotten, every look over the threshold that passes fires. */
  lemma {:induction false} OpenFiresIff(g: Gate, looks: seq<Look>, look: Look, threshold: nat)
    requires Open(g)
    ensures Open(After(g, looks, threshold))
    ensures Fires(After(g, looks, threshold), look, threshold) <==> look.count >= threshold && look.pass
    decreases |looks|
  {
    if looks != [] {
      OpenFiresIff(g, looks[..|looks| - 1], look, threshold);
    }
  }

  /** The gate remembers the count of the last look that fired. */
  lemma {:induction false} RemembersLastTrigger(g: Gate, looks: seq<Look>, threshold: nat)
    requires looks != []
    ensures var n := |looks| - 1;
            var before := After(g, looks[..n], threshold);
            After(g, looks, threshold).atTrigger
            == if Fires(before, looks[n], threshold) then looks[n].count else before.atTrigger
  {
  }

  // ---------------------------------------------------------------- whole runs

  datatype Event =
    | Saw(look: Look)
    | Applied        // a staged round was swapped in
    | Cleared        // an overflow error or a session switch

  function Step(g: Gate, e: Event, threshold: nat): Gate {
    match e
    case Saw(look) => Observe(g, look, threshold)
    case Applied => g.(justApplied := true)
    case Cleared => g.(justApplied := false, floor := None)
  }

  ghost predicate IsTrace(gs: seq<Gate>, es: seq<Event>, threshold: nat) {
    |gs| == |es| + 1 && forall i :: 0 <= i < |es| ==> gs[i + 1] == Step(gs[i], es[i], threshold)
  }

  /** The looks of a stretch of events that holds nothing else. */
  function Looks(es: seq<Event>): (r: seq<Look>)
    requires forall e :: e in es ==> e.Saw?
    ensures |r| == |es|
  {
    seq(|es|, i requires 0 <= i < |es| => assert es[i] in es; es[i].look)
  }

  lemma {:induction false} StretchIsAfter(gs: seq<Gate>, es: seq<Event>, threshold: nat, i: nat, j: nat)
    requires IsTrace(gs, es, threshold) && i <= j <= |es|
    requires forall e :: e in es[i..j] ==> e.Saw?
    ensures gs[j] == After(gs[i], Looks(es[i..j]), threshold)
    decreases j
  {
    if i < j {
      var stretch := es[i..j];
      assert stretch[..|stretch| - 1] == es[i..j - 1] && stretch[|stretch| - 1] == es[j - 1];
      assert es[j - 1] in stretch;
      StretchIsAfter(gs, es, threshold, i, j - 1);
      assert Looks(stretch)[..|stretch| - 1] == Looks(es[i..j - 1]);
      assert gs[j] == Step(gs[j - 1], es[j - 1], threshold);
    }
  }

  /**
   * Over every run: since the last applied round, with no overflow error and no session switch in
   * between, a trigger has been preceded by a count below the threshold or by the regrowth, and the
   * first look that is over the threshold, passes the turn gate and is so preceded does fire.
   */
  lemma NoEarlyTrigger(gs: seq<Gate>, es: seq<Event>, threshold: nat, applied: nat, i: nat)
    requires IsTrace(gs, es, threshold) && applied < i < |es|
    requires es[applied] == Applied && forall e :: e in es[applied + 1..i + 1] ==> e.Saw?
    ensures es[i].Saw?
    ensures var before := Looks(es[applied + 1..i]);
            Fires(gs[i], es[i].look, threshold)
            <==> es[i].look.count >= threshold && es[i].look.pass
                 && (FellBelow(before, threshold) || Regrew(before + [es[i].look], gs[applied].atTrigger, threshold))
  {
    assert es[applied + 1..i + 1] == es[applied + 1..i] + [es[i]];
    assert es[i] in es[applied + 1..i + 1];
    StretchIsAfter(gs, es, threshold, applied + 1, i);
    assert gs[applied + 1] == Step(gs[applied], es[applied], threshold);
    FiresIff(gs[applied + 1], Looks(es[applied + 1..i]), es[i].look, threshold);
  }
}
