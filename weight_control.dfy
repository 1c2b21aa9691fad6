/** The weight arithmetic shared by both AdaptiveRouter variants: two blend
    weights, a nudge of a fixed step towards one of them, and an independent
    clamp of each weight to [0.1, 0.9]. Exact real arithmetic stands in for
    Python floats. */
module WeightControl {

  /** The pair (weight_cost, weight_risk). */
  datatype Weights = Weights(cost: real, risk: real)

  const Lo: real := 0.1
  const Hi: real := 0.9

  /** Both routers start at (0.5, 0.5). */
  const Start: Weights := Weights(0.5, 0.5)

  predicate InBounds(w: Weights) {
    Lo <= w.cost <= Hi && Lo <= w.risk <= Hi
  }

  /** In bounds and summing to exactly 1: the shape every reachable state has. */
  predicate Balanced(w: Weights) {
    InBounds(w) && w.cost + w.risk == 1.0
  }

  /** max(0.1, min(0.9, x)) */
  function Clamp(x: real): (r: real)
    ensures Lo <= r <= Hi
    ensures Lo <= x <= Hi ==> r == x
    ensures x < Lo ==> r == Lo
    ensures x > Hi ==> r == Hi
  {
    if x < Lo then Lo else if x > Hi then Hi else x
  }

  /** Move `step` of weight towards risk (or towards cost), then clamp each
      weight on its own. */
  function Nudge(w: Weights, towardRisk: bool, step: real): (w': Weights)
    requires 0.0 <= step
    ensures InBounds(w')
    ensures InBounds(w) ==> w.cost - step <= w'.cost <= w.cost + step
    ensures InBounds(w) ==> w.risk - step <= w'.risk <= w.risk + step
    ensures InBounds(w) && towardRisk ==> w'.risk >= w.risk && w'.cost <= w.cost
    ensures InBounds(w) && !towardRisk ==> w'.cost >= w.cost && w'.risk <= w.risk
  {
    if towardRisk then Weights(Clamp(w.cost - step), Clamp(w.risk + step))
    else Weights(Clamp(w.cost + step), Clamp(w.risk - step))
  }

  /** Opposite nudges and bounds symmetric about 0.5 keep the sum at 1. */
  lemma NudgeKeepsBalance(w: Weights, towardRisk: bool, step: real)
    requires Balanced(w) && 0.0 <= step
    ensures Balanced(Nudge(w, towardRisk, step))
  {
    var w' := Nudge(w, towardRisk, step);
    if towardRisk {
      if w.risk + step > Hi {
        assert w.cost - step < Lo;
      } else {
        assert w.cost - step >= Lo;
      }
    } else {
      if w.cost + step > Hi {
        assert w.risk - step < Lo;
      } else {
        assert w.risk - step >= Lo;
      }
    }
  }

  /** weight_cost * total_cost + weight_risk * total_risk */
  function Score(w: Weights, totalCost: real, totalRisk: real): real {
    w.cost * totalCost + w.risk * totalRisk
  }

  lemma MulNonneg(x: real, y: real)
    requires 0.0 <= x && 0.0 <= y
    ensures 0.0 <= x * y
  {
  }

  /** With balanced weights the score is a convex blend: it lies between the two totals. */
  lemma ScoreBetween(w: Weights, totalCost: real, totalRisk: real)
    ensures Balanced(w) && totalCost <= totalRisk ==> totalCost <= Score(w, totalCost, totalRisk) <= totalRisk
    ensures Balanced(w) && totalRisk <= totalCost ==> totalRisk <= Score(w, totalCost, totalRisk) <= totalCost
  {
    if Balanced(w) {
      var s := Score(w, totalCost, totalRisk);
      assert s == totalCost + w.risk * (totalRisk - totalCost);
      assert s == totalRisk + w.cost * (totalCost - totalRisk);
      if totalCost <= totalRisk {
        MulNonneg(w.risk, totalRisk - totalCost);
        MulNonneg(w.cost, totalRisk - totalCost);
      } else {
        MulNonneg(w.cost, totalCost - totalRisk);
        MulNonneg(w.risk, totalCost - totalRisk);
      }
    }
  }

  /** With in-bound weights and non-negative totals, the score is within
      [0.1, 0.9] times the sum of the totals. */
  lemma ScoreBounds(w: Weights, totalCost: real, totalRisk: real)
    requires InBounds(w) && 0.0 <= totalCost && 0.0 <= totalRisk
    ensures Lo * (totalCost + totalRisk) <= Score(w, totalCost, totalRisk) <= Hi * (totalCost + totalRisk)
  {
    MulNonneg(w.cost - Lo, totalCost);
    MulNonneg(w.risk - Lo, totalRisk);
    MulNonneg(Hi - w.cost, totalCost);
    MulNonneg(Hi - w.risk, totalRisk);
  }

  /** `n` nudges in the same direction. */
  function Repeat(w: Weights, towardRisk: bool, step: real, n: nat): Weights
    requires 0.0 <= step
  {
    if n == 0 then w else Nudge(Repeat(w, towardRisk, step, n - 1), towardRisk, step)
  }

  /** The weight that `towardRisk` favours, and the other one. */
  function Favoured(w: Weights, towardRisk: bool): real {
    if towardRisk then w.risk else w.cost
  }

  function Other(w: Weights, towardRisk: bool): real {
    if towardRisk then w.cost else w.risk
  }

  /** n * step, unfolded one nudge at a time. */
  function Drift(n: nat, step: real): real {
    if n == 0 then 0.0 else Drift(n - 1, step) + step
  }

  lemma {:induction false} DriftIsProduct(n: nat, step: real)
    ensures Drift(n, step) == n as real * step
  {
    if n > 0 {
      DriftIsProduct(n - 1, step);
      assert (n - 1) as real * step + step == n as real * step;
    }
  }

  /** Before any clamp bites, n nudges from (0.5, 0.5) move each weight by exactly n * step. */
  lemma {:induction false} RepeatFromStart(towardRisk: bool, step: real, n: nat)
    requires 0.0 <= step && Drift(n, step) <= 0.4
    ensures Favoured(Repeat(Start, towardRisk, step, n), towardRisk) == 0.5 + Drift(n, step)
    ensures Other(Repeat(Start, towardRisk, step, n), towardRisk) == 0.5 - Drift(n, step)
  {
    if n > 0 {
      RepeatFromStart(towardRisk, step, n - 1);
      NudgeFavours(Repeat(Start, towardRisk, step, n - 1), towardRisk, step);
    }
  }

  /** A nudge that no clamp touches moves the favoured weight up by exactly
      `step` and the other one down by exactly `step`. */
  lemma NudgeFavours(w: Weights, towardRisk: bool, step: real)
    requires 0.0 <= step
    requires Favoured(w, towardRisk) + step <= Hi && Lo <= Favoured(w, towardRisk) + step
    requires Lo <= Other(w, towardRisk) - step && Other(w, towardRisk) - step <= Hi
    ensures Favoured(Nudge(w, towardRisk, step), towardRisk) == Favoured(w, towardRisk) + step
    ensures Other(Nudge(w, towardRisk, step), towardRisk) == Other(w, towardRisk) - step
  {
  }

  /** The saturated state is a fixed point of further nudges in the same direction. */
  lemma {:induction false} RepeatSaturated(w: Weights, towardRisk: bool, step: real, n: nat)
    requires 0.0 <= step
    requires Favoured(w, towardRisk) == Hi && Other(w, towardRisk) == Lo
    ensures Repeat(w, towardRisk, step, n) == w
  {
    if n > 0 {
      RepeatSaturated(w, towardRisk, step, n - 1);
    }
  }

  /** Nudges compose: m more nudges after n. */
  lemma {:induction false} RepeatAdd(w: Weights, towardRisk: bool, step: real, n: nat, m: nat)
    requires 0.0 <= step
    ensures Repeat(Repeat(w, towardRisk, step, n), towardRisk, step, m) == Repeat(w, towardRisk, step, n + m)
  {
    if m > 0 {
      RepeatAdd(w, towardRisk, step, n, m - 1);
    }
  }

  /** The weights after a sequence of nudges, one direction per decision, applied in order. */
  function Run(w: Weights, directions: seq<bool>, step: real): Weights
    requires 0.0 <= step
  {
    if directions == [] then w
    else Nudge(Run(w, directions[..|directions| - 1], step), directions[|directions| - 1], step)
  }

  /** One more decision nudges the weights the previous ones reached. */
  lemma RunSnoc(w: Weights, directions: seq<bool>, d: bool, step: real)
    requires 0.0 <= step
    ensures Run(w, directions + [d], step) == Nudge(Run(w, directions, step), d, step)
  {
    assert (directions + [d])[..|directions|] == directions;
  }

  /** Any sequence of decisions from a balanced state ends balanced (exact arithmetic). */
  lemma {:induction false} RunKeepsBalance(w: Weights, directions: seq<bool>, step: real)
    requires Balanced(w) && 0.0 <= step
    ensures Balanced(Run(w, directions, step))
  {
    if directions != [] {
      RunKeepsBalance(w, directions[..|directions| - 1], step);
      NudgeKeepsBalance(Run(w, directions[..|directions| - 1], step), directions[|directions| - 1], step);
    }
  }

  /** Decisions that all point the same way are `Repeat`. */
  lemma {:induction false} RunUniform(w: Weights, directions: seq<bool>, towardRisk: bool, step: real)
    requires 0.0 <= step
    requires forall i :: 0 <= i < |directions| ==> directions[i] == towardRisk
    ensures Run(w, directions, step) == Repeat(w, towardRisk, step, |directions|)
  {
    if directions != [] {
      RunUniform(w, directions[..|directions| - 1], towardRisk, step);
    }
  }
}
