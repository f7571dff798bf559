/** The loss-recovery plan of the Recovery Advisor screen (components/recovery-advisor.tsx):
    from a loss, the odds and an optional stake it lists the bets that win the loss back. */
module RecoveryAdvisor {
  import opened Wrappers

  /** One row of the plan; `bet` is the 1-based number of the bet. */
  datatype RecoveryStep = RecoveryStep(
    bet: int,
    betAmount: real,
    potentialProfit: real,
    remainingLoss: real,
    totalInvestment: real,
    netPosition: real)

  /** The loss, the odds and the stake once the early-return check has passed. */
  datatype PlanInputs = PlanInputs(loss: real, odds: real, bet: real)

  /** Inputs that pass the check: a positive loss, odds above 1 and a nonzero stake. */
  predicate Accepted(p: PlanInputs)
  {
    p.loss > 0.0 && p.odds > 1.0 && p.bet != 0.0
  }

  /** `Math.max(0, x)`. */
  function ClampAtZero(x: real): (r: real)
    ensures r >= 0.0 && r >= x
    ensures r == x || r == 0.0
  {
    if x < 0.0 then 0.0 else x
  }

  /** `Math.ceil`: the least integer that is not below `x`. */
  function Ceil(x: real): (c: int)
    ensures x <= c as real < x + 1.0
  {
    -((-x).Floor)
  }

  /** `Number.parseFloat(betAmount) || loss * 0.1`: NaN and 0 are falsy and fall back
      to a tenth of the loss; any other number, negative ones included, is kept. */
  function DefaultBet(bet: Option<real>, loss: real): (b: real)
    ensures bet.Some? && bet.value != 0.0 ==> b == bet.value
    ensures bet.None? || bet.value == 0.0 ==> b == loss / 10.0
  {
    if bet.Some? && bet.value != 0.0 then bet.value else loss * 0.1
  }

  /** The early return of `calculateRecovery`: `None` when the function returns
      without touching the state, else the inputs the plan is built from. */
  function CheckInputs(loss: Option<real>, odds: Option<real>, bet: Option<real>): (r: Option<PlanInputs>)
    ensures r.None? <==> loss.None? || odds.None? || loss.value <= 0.0 || odds.value <= 1.0
    ensures r.Some? ==> r.value == PlanInputs(loss.value, odds.value, DefaultBet(bet, loss.value))
    ensures r.Some? ==> Accepted(r.value)
  {
    if loss.None? || odds.None? || loss.value <= 0.0 || odds.value <= 1.0 then None
    else Some(PlanInputs(loss.value, odds.value, DefaultBet(bet, loss.value)))
  }

  /** A product with a positive factor has the sign of the other factor. */
  lemma ProductSign(a: real, b: real)
    requires b > 0.0
    ensures a * b > 0.0 <==> a > 0.0
    ensures a * b < 0.0 <==> a < 0.0
  {
    if a > 0.0 {
      assert a * b > 0.0;
    } else if a < 0.0 {
      assert (-a) * b > 0.0;
    }
  }

  /** The profit of one winning bet, `bet * (odds - 1)`; for accepted inputs it is
      never zero and has the sign of the stake. */
  function Profit(p: PlanInputs): (r: real)
    ensures Accepted(p) ==> r != 0.0 && (r > 0.0 <==> p.bet > 0.0)
  {
    if p.odds > 1.0 then ProductSign(p.bet, p.odds - 1.0); p.bet * (p.odds - 1.0)
    else p.bet * (p.odds - 1.0)
  }

  /** `Math.ceil(loss / profit)`. */
  function BetsNeeded(p: PlanInputs): int
    requires Accepted(p)
  {
    Ceil(p.loss / Profit(p))
  }

  /** `n * x`, as the sum of `n` copies of `x` that the loop accumulates. */
  function Times(n: nat, x: real): real
  {
    if n == 0 then 0.0 else Times(n - 1, x) + x
  }

  /** The accumulated sum is the product. */
  lemma {:induction false} TimesIsProduct(n: nat, x: real)
    ensures Times(n, x) == n as real * x
  {
    if n > 0 {
      TimesIsProduct(n - 1, x);
      assert (n - 1) as real * x + x == n as real * x;
    }
  }

  /** More copies of a non-negative amount add up to no less. */
  lemma {:induction false} TimesMonotone(i: nat, j: nat, x: real)
    requires i <= j && x >= 0.0
    ensures Times(i, x) <= Times(j, x)
  {
    if i < j {
      TimesMonotone(i, j - 1, x);
    }
  }

  /** `n * x + n * y == n * (x + y)`. */
  lemma {:induction false} TimesSum(n: nat, x: real, y: real)
    ensures Times(n, x) + Times(n, y) == Times(n, x + y)
  {
    if n > 0 {
      TimesSum(n - 1, x, y);
    }
  }

  /** Step `i` (1-based) in closed form: after `i` bets the stakes total `i * bet`
      and the loss still to recover is `loss - i * profit`, shown clamped at 0. */
  function StepAt(loss: real, bet: real, profit: real, i: nat): RecoveryStep
  {
    RecoveryStep(
      i, bet, profit,
      ClampAtZero(loss - Times(i, profit)),
      Times(i, bet),
      Times(i, bet) - loss + Times(i, profit))
  }

  /** The first `n` steps (none when `n` is not positive). */
  function PlanSpec(loss: real, bet: real, profit: real, n: int): seq<RecoveryStep>
  {
    seq(if n < 0 then 0 else n, k requires 0 <= k => StepAt(loss, bet, profit, k + 1))
  }

  /** A plan one step longer ends with the next step. */
  lemma PlanSpecSnoc(loss: real, bet: real, profit: real, n: nat)
    ensures PlanSpec(loss, bet, profit, n + 1) == PlanSpec(loss, bet, profit, n) + [StepAt(loss, bet, profit, n + 1)]
  {
    var a, b := PlanSpec(loss, bet, profit, n + 1), PlanSpec(loss, bet, profit, n) + [StepAt(loss, bet, profit, n + 1)];
    assert |a| == |b|;
    forall k | 0 <= k < |a| ensures a[k] == b[k] {
    }
  }

  /** The plan `calculateRecovery` stores for accepted inputs. */
  function RecoveryPlan(p: PlanInputs): seq<RecoveryStep>
    requires Accepted(p)
  {
    PlanSpec(p.loss, p.bet, Profit(p), BetsNeeded(p))
  }

  /** Multiplying by a positive factor keeps a non-strict order. */
  lemma MulLe(a: real, b: real, c: real)
    requires a <= b && c > 0.0
    ensures a * c <= b * c
  {
    ProductSign(b - a, c);
    assert b * c - a * c == (b - a) * c;
  }

  /** Multiplying by a positive factor keeps a strict order. */
  lemma MulLt(a: real, b: real, c: real)
    requires a < b && c > 0.0
    ensures a * c < b * c
  {
    ProductSign(b - a, c);
    assert b * c - a * c == (b - a) * c;
  }

  /** A count `n` that is the ceiling of the quotient `q = loss / profit`, for a
      positive loss and profit, is the least count of profits that covers the loss. */
  lemma CeilingCovers(loss: real, profit: real, q: real, n: int)
    requires loss > 0.0 && profit > 0.0 && q * profit == loss
    requires q <= n as real < q + 1.0
    ensures n >= 1
    ensures n as real * profit >= loss
    ensures (n - 1) as real * profit < loss
  {
    assert (n - 1) as real * profit < loss by {
      MulLt((n - 1) as real, q, profit);
    }
    assert n as real * profit >= loss by {
      MulLe(q, n as real, profit);
    }
    assert q > 0.0 by {
      ProductSign(q, profit);
    }
  }

  /** With a positive stake the plan has the least number of bets whose profits
      cover the loss: `n * profit >= loss` and `(n - 1) * profit < loss`. */
  lemma BetsNeededIsLeastCover(p: PlanInputs)
    requires Accepted(p) && p.bet > 0.0
    ensures BetsNeeded(p) >= 1
    ensures BetsNeeded(p) as real * Profit(p) >= p.loss
    ensures (BetsNeeded(p) - 1) as real * Profit(p) < p.loss
  {
    var profit := Profit(p);
    assert profit > 0.0;
    var q := p.loss / profit;
    CeilingCovers(p.loss, profit, q, Ceil(q));
  }

  /** A negative explicit stake makes the profit negative, the ceiling at most 0
      and the plan empty. */
  lemma NegativeStakeGivesEmptyPlan(p: PlanInputs)
    requires Accepted(p) && p.bet < 0.0
    ensures BetsNeeded(p) <= 0
    ensures RecoveryPlan(p) == []
  {
    var profit := Profit(p);
    var q := p.loss / profit;
    assert q * profit == p.loss;
    ProductSign(-q, -profit);
    assert (-q) * (-profit) == q * profit;
  }

  /** Step `k` (0-based) of the plan of accepted inputs, in closed form. */
  lemma PlanStep(p: PlanInputs, k: int)
    requires Accepted(p) && 0 <= k < |RecoveryPlan(p)|
    ensures RecoveryPlan(p)[k] == StepAt(p.loss, p.bet, Profit(p), k + 1)
  {
  }

  /** The plan of accepted inputs has `Math.ceil(loss / profit)` steps, at least one
      when the stake is positive, and it is exactly the plan that stops at the first
      step where the remaining loss reaches 0: every earlier step still has a loss to
      recover. */
  lemma RemainingLossReachesZeroOnlyAtLastStep(p: PlanInputs)
    requires Accepted(p)
    ensures |RecoveryPlan(p)| == if BetsNeeded(p) < 0 then 0 else BetsNeeded(p)
    ensures p.bet > 0.0 ==> |RecoveryPlan(p)| >= 1
    ensures |RecoveryPlan(p)| > 0 ==> RecoveryPlan(p)[|RecoveryPlan(p)| - 1].remainingLoss == 0.0
    ensures forall k :: 0 <= k < |RecoveryPlan(p)| - 1 ==> RecoveryPlan(p)[k].remainingLoss > 0.0
  {
    var plan, profit, n := RecoveryPlan(p), Profit(p), BetsNeeded(p);
    if p.bet < 0.0 {
      NegativeStakeGivesEmptyPlan(p);
    } else {
      assert profit > 0.0;
      assert n >= 1 by {
        BetsNeededIsLeastCover(p);
      }
      assert Times(n, profit) >= p.loss by {
        BetsNeededIsLeastCover(p);
        TimesIsProduct(n, profit);
      }
      assert Times(n - 1, profit) < p.loss by {
        BetsNeededIsLeastCover(p);
        TimesIsProduct(n - 1, profit);
      }
      PlanStep(p, n - 1);
      forall k | 0 <= k < |plan| - 1 ensures plan[k].remainingLoss > 0.0 {
        PlanStep(p, k);
        TimesMonotone(k + 1, n - 1, profit);
      }
    }
  }

  /** Along the plan the remaining loss never grows and never goes below 0, and the
      total investment never shrinks. */
  lemma PlanIsMonotone(p: PlanInputs)
    requires Accepted(p)
    ensures forall k :: 0 <= k < |RecoveryPlan(p)| ==> RecoveryPlan(p)[k].remainingLoss >= 0.0
    ensures forall j, k :: 0 <= j <= k < |RecoveryPlan(p)| ==>
      RecoveryPlan(p)[k].remainingLoss <= RecoveryPlan(p)[j].remainingLoss &&
      RecoveryPlan(p)[j].totalInvestment <= RecoveryPlan(p)[k].totalInvestment
  {
    var plan, profit := RecoveryPlan(p), Profit(p);
    if p.bet < 0.0 {
      NegativeStakeGivesEmptyPlan(p);
    } else {
      assert profit > 0.0;
      forall k | 0 <= k < |plan| ensures plan[k].remainingLoss >= 0.0 {
        PlanStep(p, k);
      }
      forall j, k | 0 <= j <= k < |plan|
        ensures plan[k].remainingLoss <= plan[j].remainingLoss
        ensures plan[j].totalInvestment <= plan[k].totalInvestment
      {
        PlanStep(p, j);
        PlanStep(p, k);
        TimesMonotone(j + 1, k + 1, profit);
        TimesMonotone(j + 1, k + 1, p.bet);
      }
    }
  }

  /** Step `k + 1`'s net position `(k + 1) * bet - loss + (k + 1) * profit` is
      `(k + 1) * (bet + profit) - loss`. */
  lemma PlanSpecNetPosition(loss: real, bet: real, profit: real, n: int, k: int)
    requires 0 <= k < |PlanSpec(loss, bet, profit, n)|
    ensures PlanSpec(loss, bet, profit, n)[k].netPosition == Times(k + 1, bet + profit) - loss
  {
    TimesSum(k + 1, bet, profit);
  }

  /** The net position after `i` bets is `i * bet * odds - loss`, so it rises by
      `bet * odds` from one step to the next. */
  lemma NetPositionRisesByStakeTimesOdds(p: PlanInputs)
    requires Accepted(p)
    ensures forall k :: 0 <= k < |RecoveryPlan(p)| ==>
      RecoveryPlan(p)[k].netPosition == (k + 1) as real * (p.bet * p.odds) - p.loss
    ensures forall k :: 0 < k < |RecoveryPlan(p)| ==>
      RecoveryPlan(p)[k].netPosition == RecoveryPlan(p)[k - 1].netPosition + p.bet * p.odds
  {
    var plan, profit, stake := RecoveryPlan(p), Profit(p), p.bet * p.odds;
    assert stake == p.bet + profit by {
      assert profit == p.bet * (p.odds - 1.0);
    }
    forall k | 0 <= k < |plan|
      ensures plan[k].netPosition == Times(k + 1, stake) - p.loss
    {
      PlanSpecNetPosition(p.loss, p.bet, profit, BetsNeeded(p), k);
    }
    forall k | 0 <= k < |plan|
      ensures plan[k].netPosition == (k + 1) as real * stake - p.loss
    {
      TimesIsProduct(k + 1, stake);
    }
  }

  /** A loss of 100 at odds 2.0 with no stake entered: the stake defaults to 10, the
      profit per bet is 10, and the ten steps recover 10 each while the stakes add up
      to 10, 20, ..., 100. */
  lemma DefaultStakeExample()
    ensures CheckInputs(Some(100.0), Some(2.0), None) == Some(PlanInputs(100.0, 2.0, 10.0))
    ensures Profit(PlanInputs(100.0, 2.0, 10.0)) == 10.0
    ensures |RecoveryPlan(PlanInputs(100.0, 2.0, 10.0))| == 10
    ensures forall k :: 0 <= k < 10 ==>
      RecoveryPlan(PlanInputs(100.0, 2.0, 10.0))[k].remainingLoss == 90.0 - 10.0 * k as real &&
      RecoveryPlan(PlanInputs(100.0, 2.0, 10.0))[k].totalInvestment == 10.0 * (k + 1) as real
  {
    var p := PlanInputs(100.0, 2.0, 10.0);
    assert Ceil(10.0) == 10;
    assert BetsNeeded(p) == 10;
    forall k | 0 <= k < 10
      ensures RecoveryPlan(p)[k].remainingLoss == 90.0 - 10.0 * k as real
      ensures RecoveryPlan(p)[k].totalInvestment == 10.0 * (k + 1) as real
    {
      PlanStep(p, k);
      TimesIsProduct(k + 1, 10.0);
    }
  }

  /** The row the loop pushes after its `i + 1`-th update is step `i + 1`. */
  lemma LoopStepIsStepAt(loss: real, bet: real, profit: real, i: nat, totalInvestment: real, remainingLoss: real)
    requires totalInvestment == Times(i + 1, bet) && remainingLoss == loss - Times(i + 1, profit)
    ensures RecoveryStep(i + 1, bet, profit, ClampAtZero(remainingLoss), totalInvestment,
      totalInvestment - loss + (i + 1) as real * profit) == StepAt(loss, bet, profit, i + 1)
  {
    TimesIsProduct(i + 1, profit);
  }

  /** The counted loop of `calculateRecovery`: it accumulates the stakes and the
      remaining loss step by step and pushes one row per bet. */
  method BuildPlan(loss: real, bet: real, profit: real, betsNeeded: int) returns (plan: seq<RecoveryStep>)
    ensures plan == PlanSpec(loss, bet, profit, betsNeeded)
  {
    plan := [];
    var remainingLoss := loss;
    var totalInvestment := 0.0;
    var i := 0;
    while i < betsNeeded
      invariant 0 <= i <= (if betsNeeded < 0 then 0 else betsNeeded)
      invariant totalInvestment == Times(i, bet)
      invariant remainingLoss == loss - Times(i, profit)
      invariant plan == PlanSpec(loss, bet, profit, i)
    {
      totalInvestment := totalInvestment + bet;
      remainingLoss := remainingLoss - profit;
      var step := RecoveryStep(
        i + 1, bet, profit,
        ClampAtZero(remainingLoss),
        totalInvestment,
        totalInvestment - loss + (i + 1) as real * profit);
      LoopStepIsStepAt(loss, bet, profit, i, totalInvestment, remainingLoss);
      PlanSpecSnoc(loss, bet, profit, i);
      plan := plan + [step];
      i := i + 1;
    }
  }

  /** `disabled={!lossAmount || Number.parseFloat(lossAmount) <= 0}` on the Calculate
      button; `parsedLoss` is the parse of `lossAmount` (NaN is `None`, and NaN <= 0 is false). */
  function CalculateDisabled(lossAmount: string, parsedLoss: Option<real>): bool
  {
    lossAmount == "" || (parsedLoss.Some? && parsedLoss.value <= 0.0)
  }

  /** The Calculate button is disabled only for inputs `calculateRecovery` would reject
      anyway; when it is enabled and the loss parses, the loss is positive, so only
      the odds can still make the function return early. */
  lemma DisabledButtonOnlyBlocksRejectedInputs(lossAmount: string, parsedLoss: Option<real>, odds: Option<real>, bet: Option<real>)
    requires lossAmount == "" ==> parsedLoss.None?
    ensures CalculateDisabled(lossAmount, parsedLoss) ==> CheckInputs(parsedLoss, odds, bet).None?
    ensures !CalculateDisabled(lossAmount, parsedLoss) && parsedLoss.Some? ==>
      parsedLoss.value > 0.0 &&
      (CheckInputs(parsedLoss, odds, bet).None? <==> odds.None? || odds.value <= 1.0)
  {
  }

  /** The screen's state: the plan shown and whether the results are visible. */
  class Advisor {
    var recoveryPlan: seq<RecoveryStep>
    var showResults: bool

    constructor ()
      ensures recoveryPlan == [] && !showResults
    {
      recoveryPlan, showResults := [], false;
    }

    /** `calculateRecovery`, given the parses of the three text fields. */
    method CalculateRecovery(lossAmount: Option<real>, odds: Option<real>, betAmount: Option<real>)
      modifies this
      ensures CheckInputs(lossAmount, odds, betAmount).None? ==>
        recoveryPlan == old(recoveryPlan) && showResults == old(showResults)
      ensures CheckInputs(lossAmount, odds, betAmount).Some? ==>
        recoveryPlan == RecoveryPlan(CheckInputs(lossAmount, odds, betAmount).value) && showResults
    {
      var inputs := CheckInputs(lossAmount, odds, betAmount);
      if inputs.None? {
        return;
      }
      var p := inputs.value;
      var plan := BuildPlan(p.loss, p.bet, Profit(p), BetsNeeded(p));
      recoveryPlan := plan;
      showResults := true;
    }
  }
}
