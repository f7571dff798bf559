/** The bet calculator and its history ledger (components/home-screen.tsx): a bet
    projection is built from three parsed fields, put at the front of the history,
    persisted under "betCalculations", resolved later as a win or a loss, and the
    win and loss totals are folded from the stored history. */
module HomeScreen {
  import opened Wrappers
  import opened LocalStorage

  /** The record `calculateBet` builds from the parses of its three fields, or
      `None` (the early return) when one of them is NaN. */
  function NewCalculation(amount: Option<real>, odds: Option<real>, percentage: Option<real>, date: string): (r: Option<BetCalculation>)
    ensures r.None? <==> amount.None? || odds.None? || percentage.None?
    ensures r.Some? ==>
      && r.value.amount == amount.value
      && r.value.odds == odds.value
      && r.value.percentage == percentage.value
      && r.value.potentialWin == amount.value * odds.value * (percentage.value / 100.0)
      && r.value.potentialLoss == amount.value
      && r.value.date == date
      && r.value.isWin == None
  {
    if amount.None? || odds.None? || percentage.None? then None
    else
      var potentialWin := amount.value * odds.value * (percentage.value / 100.0);
      Some(BetCalculation(amount.value, odds.value, percentage.value, potentialWin, amount.value, date, None))
  }

  /** The history after `markAsWin(index)` (`win`) or `markAsLoss(index)` (`!win`):
      entry `index` is resolved and every other entry is as it was. */
  function WithOutcome(calcs: seq<BetCalculation>, index: nat, win: bool): (r: seq<BetCalculation>)
    requires index < |calcs|
    ensures |r| == |calcs|
    ensures r[index] == calcs[index].(isWin := Some(win))
    ensures forall k :: 0 <= k < |calcs| && k != index ==> r[k] == calcs[k]
  {
    calcs[index := calcs[index].(isWin := Some(win))]
  }

  /** What one record adds to the wins: its potential win when it is marked a win. */
  function WinOf(c: BetCalculation): real
  {
    if c.isWin == Some(true) then c.potentialWin else 0.0
  }

  /** What one record adds to the losses: its potential loss when it is marked a loss. */
  function LossOf(c: BetCalculation): real
  {
    if c.isWin == Some(false) then c.potentialLoss else 0.0
  }

  /** The wins of a history, summed front to back. */
  function Wins(calcs: seq<BetCalculation>): real
  {
    if calcs == [] then 0.0 else Wins(calcs[..|calcs| - 1]) + WinOf(calcs[|calcs| - 1])
  }

  /** The losses of a history, summed front to back. */
  function Losses(calcs: seq<BetCalculation>): real
  {
    if calcs == [] then 0.0 else Losses(calcs[..|calcs| - 1]) + LossOf(calcs[|calcs| - 1])
  }

  /** The `forEach` of `calculateTotals`: wins add the potential win of records
      marked a win, losses the potential loss of records marked a loss, and
      unresolved records add nothing. */
  method SumTotals(calcs: seq<BetCalculation>) returns (wins: real, losses: real)
    ensures wins == Wins(calcs) && losses == Losses(calcs)
  {
    wins, losses := 0.0, 0.0;
    for i := 0 to |calcs|
      invariant wins == Wins(calcs[..i]) && losses == Losses(calcs[..i])
    {
      assert calcs[..i + 1][..i] == calcs[..i];
      if calcs[i].isWin == Some(true) {
        wins := wins + calcs[i].potentialWin;
      } else if calcs[i].isWin == Some(false) {
        losses := losses + calcs[i].potentialLoss;
      }
    }
    assert calcs[..|calcs|] == calcs;
  }

  /** The totals of a history with one more record at the front. */
  lemma {:induction false} TotalsOfPrepend(c: BetCalculation, calcs: seq<BetCalculation>)
    ensures Wins([c] + calcs) == WinOf(c) + Wins(calcs)
    ensures Losses([c] + calcs) == LossOf(c) + Losses(calcs)
  {
    if calcs != [] {
      var n := |calcs|;
      assert ([c] + calcs)[..n] == [c] + calcs[..n - 1];
      TotalsOfPrepend(c, calcs[..n - 1]);
    }
  }

  /** A new (unresolved) calculation at the front leaves the totals unchanged. */
  lemma NewCalculationKeepsTotals(c: BetCalculation, calcs: seq<BetCalculation>)
    requires c.isWin == None
    ensures Wins([c] + calcs) == Wins(calcs) && Losses([c] + calcs) == Losses(calcs)
  {
    TotalsOfPrepend(c, calcs);
  }

  /** Resolving entry `index` replaces its share of the totals by its new share. */
  lemma {:induction false} TotalsOfOutcome(calcs: seq<BetCalculation>, index: nat, win: bool)
    requires index < |calcs|
    ensures Wins(WithOutcome(calcs, index, win)) ==
      Wins(calcs) - WinOf(calcs[index]) + WinOf(calcs[index].(isWin := Some(win)))
    ensures Losses(WithOutcome(calcs, index, win)) ==
      Losses(calcs) - LossOf(calcs[index]) + LossOf(calcs[index].(isWin := Some(win)))
  {
    var n := |calcs|;
    var r := WithOutcome(calcs, index, win);
    if index == n - 1 {
      assert r[..n - 1] == calcs[..n - 1];
    } else {
      assert r[..n - 1] == WithOutcome(calcs[..n - 1], index, win);
      TotalsOfOutcome(calcs[..n - 1], index, win);
    }
  }

  /** Marking an unresolved bet a win adds its potential win to the wins and leaves
      the losses alone; marking it a loss adds its potential loss to the losses and
      leaves the wins alone. */
  lemma ResolvingAddsItsShare(calcs: seq<BetCalculation>, index: nat, win: bool)
    requires index < |calcs| && calcs[index].isWin == None
    ensures win ==> Wins(WithOutcome(calcs, index, win)) == Wins(calcs) + calcs[index].potentialWin
    ensures Losses(WithOutcome(calcs, index, win)) == Losses(calcs) + (if win then 0.0 else calcs[index].potentialLoss)
    ensures !win ==> Wins(WithOutcome(calcs, index, win)) == Wins(calcs)
  {
    TotalsOfOutcome(calcs, index, win);
  }

  /** Marking a record again with the outcome it already has changes nothing,
      neither the history nor its totals. */
  lemma RemarkingKeepsTotals(calcs: seq<BetCalculation>, index: nat, win: bool)
    requires index < |calcs| && calcs[index].isWin == Some(win)
    ensures WithOutcome(calcs, index, win) == calcs
    ensures Wins(WithOutcome(calcs, index, win)) == Wins(calcs)
    ensures Losses(WithOutcome(calcs, index, win)) == Losses(calcs)
  {
    assert calcs[index].(isWin := Some(win)) == calcs[index];
  }

  /** Two bets of 10 and 20 marked wins and one of 5 marked a loss give wins of 30
      and losses of 5. */
  lemma TotalsExample()
    ensures var calcs := [
      BetCalculation(10.0, 2.0, 50.0, 10.0, 10.0, "", Some(true)),
      BetCalculation(20.0, 2.0, 50.0, 20.0, 20.0, "", Some(true)),
      BetCalculation(5.0, 2.0, 50.0, 5.0, 5.0, "", Some(false))];
      Wins(calcs) == 30.0 && Losses(calcs) == 5.0
  {
    var calcs := [
      BetCalculation(10.0, 2.0, 50.0, 10.0, 10.0, "", Some(true)),
      BetCalculation(20.0, 2.0, 50.0, 20.0, 20.0, "", Some(true)),
      BetCalculation(5.0, 2.0, 50.0, 5.0, 5.0, "", Some(false))];
    assert calcs[..1][..0] == [];
    assert Wins(calcs[..1]) == 10.0 && Losses(calcs[..1]) == 0.0;
    assert calcs[..2][..1] == calcs[..1];
    assert Wins(calcs[..2]) == 30.0 && Losses(calcs[..2]) == 0.0;
    assert calcs[..2] == calcs[..|calcs| - 1];
  }

  /** The home screen's state, with the store it reads and writes. */
  class Home {
    const store: Store
    var calculations: seq<BetCalculation>
    var showCalculator: bool
    var totalWins: real
    var totalLosses: real

    /** The in-memory history is what "betCalculations" holds (`[]` while the key is
        missing), and the totals are those of that history. */
    ghost predicate Valid()
      reads this, store
    {
      && (store.betCalculations.None? ==> calculations == [])
      && (store.betCalculations.Some? ==> store.betCalculations.value == calculations)
      && totalWins == Wins(calculations)
      && totalLosses == Losses(calculations)
    }

    /** Mounting the screen: the history is loaded from the store (left empty when
        the key is missing) and the totals are computed. */
    constructor (store: Store)
      ensures this.store == store && Valid()
      ensures calculations == store.betCalculations.GetOr([])
      ensures !showCalculator
    {
      this.store := store;
      calculations := [];
      showCalculator := false;
      totalWins, totalLosses := 0.0, 0.0;
      new;
      if store.betCalculations.Some? {
        calculations := store.betCalculations.value;
      }
      CalculateTotals();
    }

    /** `calculateTotals`: recomputed from the store; without the key the totals stay. */
    method CalculateTotals()
      modifies this`totalWins, this`totalLosses
      ensures store.betCalculations.None? ==> totalWins == old(totalWins) && totalLosses == old(totalLosses)
      ensures store.betCalculations.Some? ==>
        totalWins == Wins(store.betCalculations.value) && totalLosses == Losses(store.betCalculations.value)
    {
      if store.betCalculations.Some? {
        var wins, losses := SumTotals(store.betCalculations.value);
        totalWins, totalLosses := wins, losses;
      }
    }

    /** `calculateBet`, given the parses of the three fields and the current time. */
    method CalculateBet(amountNum: Option<real>, oddsNum: Option<real>, percentageNum: Option<real>, date: string)
      requires Valid()
      modifies this, store`betCalculations
      ensures Valid()
      ensures NewCalculation(amountNum, oddsNum, percentageNum, date).None? ==>
        unchanged(this) && unchanged(store)
      ensures NewCalculation(amountNum, oddsNum, percentageNum, date).Some? ==>
        && calculations == [NewCalculation(amountNum, oddsNum, percentageNum, date).value] + old(calculations)
        && store.betCalculations == Some(calculations)
        && !showCalculator
        && totalWins == old(totalWins) && totalLosses == old(totalLosses)
    {
      var calculation := NewCalculation(amountNum, oddsNum, percentageNum, date);
      if calculation.None? {
        return;
      }
      var newCalculation := calculation.value;
      var updatedCalculations := [newCalculation] + calculations;
      calculations := updatedCalculations;
      store.betCalculations := Some(updatedCalculations);
      showCalculator := false;
      NewCalculationKeepsTotals(newCalculation, old(calculations));
      CalculateTotals();
    }

    /** `markAsWin(index)`: entry `index` becomes a win, in memory and in the store. */
    method MarkAsWin(index: nat)
      requires Valid() && index < |calculations|
      modifies this`calculations, this`totalWins, this`totalLosses, store`betCalculations
      ensures Valid()
      ensures calculations == WithOutcome(old(calculations), index, true)
      ensures store.betCalculations == Some(calculations)
    {
      var updatedCalculations := WithOutcome(calculations, index, true);
      calculations := updatedCalculations;
      store.betCalculations := Some(updatedCalculations);
      CalculateTotals();
    }

    /** `markAsLoss(index)`: entry `index` becomes a loss, in memory and in the store. */
    method MarkAsLoss(index: nat)
      requires Valid() && index < |calculations|
      modifies this`calculations, this`totalWins, this`totalLosses, store`betCalculations
      ensures Valid()
      ensures calculations == WithOutcome(old(calculations), index, false)
      ensures store.betCalculations == Some(calculations)
    {
      var updatedCalculations := WithOutcome(calculations, index, false);
      calculations := updatedCalculations;
      store.betCalculations := Some(updatedCalculations);
      CalculateTotals();
    }

    /** The Balance figure, `totalWins - totalLosses`. */
    function Balance(): (b: real)
      reads this, store
      requires Valid()
      ensures b == Wins(calculations) - Losses(calculations)
    {
      totalWins - totalLosses
    }

    /** The Win/Loss buttons are offered for entry `index` exactly while it is
        unresolved, that is while it adds nothing to either total. */
    function OffersMarking(index: nat): (r: bool)
      reads this
      requires index < |calculations|
      ensures r ==> WinOf(calculations[index]) == 0.0 && LossOf(calculations[index]) == 0.0
      ensures r <==> calculations[index].isWin == None
    {
      calculations[index].isWin == None
    }
  }
}
