/** The bankroll plan catalogue of the home screen (components/CurrentPlanBankroll.tsx):
    three built-in plans followed by the custom plans kept under "customPlans", the
    selected plan's chart series, the custom-plan form and today's expense list. */
module BankrollPlans {
  import opened Wrappers
  import opened Seqs
  import opened LocalStorage

  /** The "Create Custom Bankroll Plan" form (`newPlan`). */
  datatype PlanForm = PlanForm(name: string, risk: string, dailyLimits: seq<real>)

  /** One entry of `todayExpenses`; `time` is the `Date.now()` of the entry. */
  datatype Expense = Expense(time: int, amount: real)

  /** One point of the plan chart: `{ day: "Day i", Plan: limit }`. */
  datatype DayPoint = DayPoint(day: string, plan: real)

  /** One point of the expense chart: `{ day: i, Spent: amount }`. */
  datatype ExpensePoint = ExpensePoint(day: int, spent: real)

  /** The built-in plans, in the order they are listed. */
  const DefaultPlans: seq<BankrollPlan> := [
    BankrollPlan("conservative", "Conservative", "Low",
      [5.0, 6.0, 4.0, 7.0, 5.0, 6.0, 3.0, 8.0, 5.0, 6.0]),
    BankrollPlan("balanced", "Balanced", "Medium",
      [10.0, 12.0, 8.0, 15.0, 10.0, 11.0, 9.0, 14.0, 10.0, 12.0]),
    BankrollPlan("aggressive", "Aggressive", "High",
      [20.0, 25.0, 15.0, 30.0, 22.0, 18.0, 27.0, 24.0, 20.0, 25.0])
  ]

  /** A blank form: empty name and risk and ten zero limits (`Array(10).fill(0)`). */
  const EmptyForm: PlanForm := PlanForm("", "", seq(10, _ => 0.0))

  /** The decimal digit for `d`. */
  function DigitChar(d: nat): (c: char)
    requires d < 10
    ensures '0' <= c <= '9' && c as int - '0' as int == d
  {
    ('0' as int + d) as char
  }

  /** Every character of `s` is a decimal digit. */
  predicate AllDigits(s: string)
  {
    forall k :: 0 <= k < |s| ==> '0' <= s[k] <= '9'
  }

  /** The number a string of decimal digits spells, read most significant first. */
  function DigitsValue(s: string): nat
    requires AllDigits(s)
  {
    if s == [] then 0
    else DigitsValue(s[..|s| - 1]) * 10 + (s[|s| - 1] as int - '0' as int)
  }

  /** The decimal representation of `n`, as a template literal renders it: digits
      that spell `n`, without a leading zero. */
  function DecimalString(n: nat): (s: string)
    ensures |s| >= 1 && AllDigits(s)
    ensures DigitsValue(s) == n
    ensures n > 0 ==> s[0] != '0'
    ensures |s| > 1 ==> s[0] != '0'
  {
    if n < 10 then [DigitChar(n)]
    else
      var prefix := DecimalString(n / 10);
      var s := prefix + [DigitChar(n % 10)];
      assert s[..|s| - 1] == prefix;
      s
  }

  /** The chart label of day `n`. */
  function DayLabel(n: nat): string
  {
    "Day " + DecimalString(n)
  }

  /** The index of the first plan with the given id, or `|plans|` when there is none. */
  function FirstIndex(plans: seq<BankrollPlan>, id: string): (i: nat)
    ensures i <= |plans|
    ensures i < |plans| ==> plans[i].id == id
    ensures forall j :: 0 <= j < i ==> plans[j].id != id
  {
    if plans == [] then 0
    else if plans[0].id == id then 0
    else 1 + FirstIndex(plans[1..], id)
  }

  /** `plans.find((p) => p.id === id)`. */
  function FindPlan(plans: seq<BankrollPlan>, id: string): (r: Option<BankrollPlan>)
    ensures r.None? <==> forall j :: 0 <= j < |plans| ==> plans[j].id != id
    ensures r.Some? ==> r.value == plans[FirstIndex(plans, id)]
  {
    var i := FirstIndex(plans, id);
    if i < |plans| then Some(plans[i]) else None
  }

  /** `bankrollData`: the selected plan's daily limits as chart points, or `None`
      (`undefined`) when no plan has the selected id. */
  function BankrollData(plans: seq<BankrollPlan>, selectedPlan: string): (r: Option<seq<DayPoint>>)
    ensures r.None? <==> forall j :: 0 <= j < |plans| ==> plans[j].id != selectedPlan
    ensures r.Some? ==>
      var limits := plans[FirstIndex(plans, selectedPlan)].dailyLimits;
      |r.value| == |limits| &&
      forall i :: 0 <= i < |limits| ==> r.value[i] == DayPoint(DayLabel(i + 1), limits[i])
  {
    match FindPlan(plans, selectedPlan)
    case None => None
    case Some(p) => Some(seq(|p.dailyLimits|, i requires 0 <= i < |p.dailyLimits| => DayPoint(DayLabel(i + 1), p.dailyLimits[i])))
  }

  /** The data of the "Today's Expenses" chart: point `i` is entry `i` at x = i + 1. */
  function ExpenseSeries(expenses: seq<Expense>): (r: seq<ExpensePoint>)
    ensures |r| == |expenses|
    ensures forall i :: 0 <= i < |r| ==> r[i] == ExpensePoint(i + 1, expenses[i].amount)
  {
    seq(|expenses|, i requires 0 <= i < |expenses| => ExpensePoint(i + 1, expenses[i].amount))
  }

  /** `storagePlan.filter((p) => p.id !== id)`. */
  function WithoutPlan(ps: seq<BankrollPlan>, id: string): seq<BankrollPlan>
  {
    Filter(ps, (p: BankrollPlan) => p.id != id)
  }

  /** Removal keeps exactly the plans with another id, in their order. */
  lemma WithoutPlanKeepsOthers(ps: seq<BankrollPlan>, qs: seq<BankrollPlan>, id: string)
    ensures forall p :: p in WithoutPlan(ps, id) <==> p in ps && p.id != id
    ensures WithoutPlan(ps + qs, id) == WithoutPlan(ps, id) + WithoutPlan(qs, id)
  {
    FilterAppend(ps, qs, (p: BankrollPlan) => p.id != id);
  }

  /** Removing an id no custom plan has changes nothing. */
  lemma WithoutUnknownIdIsIdentity(ps: seq<BankrollPlan>, id: string)
    requires forall j :: 0 <= j < |ps| ==> ps[j].id != id
    ensures WithoutPlan(ps, id) == ps
  {
    FilterKeepsAll(ps, (p: BankrollPlan) => p.id != id);
  }

  /** The three built-in plans have the ids conservative, balanced and aggressive, in
      that order, and ten daily limits each; they come first in every catalogue, so
      the initial selection "conservative" always charts the built-in Conservative
      plan, whatever the store holds. */
  lemma DefaultPlansComeFirst(custom: seq<BankrollPlan>)
    ensures |DefaultPlans| == 3
    ensures DefaultPlans[0].id == "conservative" && DefaultPlans[1].id == "balanced" && DefaultPlans[2].id == "aggressive"
    ensures forall j :: 0 <= j < 3 ==> |DefaultPlans[j].dailyLimits| == 10
    ensures FindPlan(DefaultPlans + custom, "conservative") == Some(DefaultPlans[0])
    ensures BankrollData(DefaultPlans + custom, "conservative").Some?
  {
    assert (DefaultPlans + custom)[0] == DefaultPlans[0];
  }

  /** The plan catalogue component's state, with the store it reads and writes. */
  class Bankroll {
    const store: Store
    var plans: seq<BankrollPlan>
    var selectedPlan: string
    var showTodayGraph: bool
    var storagePlan: seq<BankrollPlan>
    var newPlan: PlanForm
    var todayExpenses: seq<Expense>
    var newExpense: real

    /** The catalogue is the built-in plans followed by what "customPlans" holds;
        `storagePlan` is a prefix of it (it misses the plans added since the last
        load or removal); the form always has ten limits. */
    ghost predicate Valid()
      reads this, store
    {
      && plans == DefaultPlans + store.StoredPlans()
      && storagePlan <= store.StoredPlans()
      && |newPlan.dailyLimits| == 10
    }

    /** Mounting the component and running its load effect. */
    constructor (store: Store)
      ensures this.store == store && Valid()
      ensures storagePlan == store.StoredPlans()
      ensures plans == DefaultPlans + store.StoredPlans()
      ensures selectedPlan == "conservative" && !showTodayGraph
      ensures newPlan == EmptyForm && todayExpenses == [] && newExpense == 0.0
    {
      this.store := store;
      var storedPlans := store.StoredPlans();
      storagePlan := storedPlans;
      plans := DefaultPlans + storedPlans;
      selectedPlan := "conservative";
      showTodayGraph := false;
      newPlan := EmptyForm;
      todayExpenses := [];
      newExpense := 0.0;
    }

    /** `addCustomPlan`: the form becomes a plan with id `now` (`Date.now().toString()`),
        appended to the stored list and to the catalogue; `storagePlan` is not updated. */
    method AddCustomPlan(now: string)
      requires Valid()
      modifies this`plans, this`newPlan, store`customPlans
      ensures Valid()
      ensures var added := BankrollPlan(now, old(newPlan.name), old(newPlan.risk), old(newPlan.dailyLimits));
        && store.customPlans == Some(old(store.StoredPlans()) + [added])
        && plans == old(plans) + [added]
      ensures newPlan == EmptyForm
      ensures storagePlan == old(storagePlan)
    {
      var newCustom := BankrollPlan(now, newPlan.name, newPlan.risk, newPlan.dailyLimits);
      var storedPlans := store.StoredPlans();
      store.customPlans := Some(storedPlans + [newCustom]);
      plans := plans + [newCustom];
      newPlan := EmptyForm;
      assert DefaultPlans + (storedPlans + [newCustom]) == DefaultPlans + storedPlans + [newCustom];
    }

    /** `handleRemovePlan(id)`: the store and `storagePlan` become `storagePlan`
        without the plans with that id, and the catalogue is rebuilt from them. */
    method HandleRemovePlan(id: string)
      requires Valid()
      modifies this`storagePlan, this`plans, store`customPlans
      ensures Valid()
      ensures storagePlan == WithoutPlan(old(storagePlan), id)
      ensures store.customPlans == Some(storagePlan)
      ensures plans == DefaultPlans + storagePlan
    {
      var updatedPlans := WithoutPlan(storagePlan, id);
      store.customPlans := Some(updatedPlans);
      storagePlan := updatedPlans;
      plans := DefaultPlans + updatedPlans;
    }

    /** The trash button is shown for a plan exactly when `storagePlan` has its id. */
    function HasDeleteButton(id: string): (r: bool)
      reads this
      ensures r <==> exists j :: 0 <= j < |storagePlan| && storagePlan[j].id == id
    {
      FirstIndex(storagePlan, id) < |storagePlan|
    }

    /** The Select button of a plan. */
    method SelectPlan(id: string)
      modifies this`selectedPlan
      ensures selectedPlan == id
    {
      selectedPlan := id;
    }

    /** The "Show/Hide Today's Graph" button. */
    method ToggleTodayGraph()
      modifies this`showTodayGraph
      ensures showTodayGraph == !old(showTodayGraph)
    {
      showTodayGraph := !showTodayGraph;
    }

    /** Typing a plan name. */
    method SetName(name: string)
      requires Valid()
      modifies this`newPlan
      ensures Valid()
      ensures newPlan == old(newPlan).(name := name)
    {
      newPlan := newPlan.(name := name);
    }

    /** Typing a risk level. */
    method SetRisk(risk: string)
      requires Valid()
      modifies this`newPlan
      ensures Valid()
      ensures newPlan == old(newPlan).(risk := risk)
    {
      newPlan := newPlan.(risk := risk);
    }

    /** Typing the limit of day `index + 1`: only that slot of the form changes. */
    method SetDailyLimit(index: nat, value: real)
      requires Valid() && index < |newPlan.dailyLimits|
      modifies this`newPlan
      ensures Valid()
      ensures newPlan.name == old(newPlan.name) && newPlan.risk == old(newPlan.risk)
      ensures newPlan.dailyLimits == old(newPlan.dailyLimits)[index := value]
    {
      var updatedLimits := newPlan.dailyLimits[index := value];
      newPlan := newPlan.(dailyLimits := updatedLimits);
    }

    /** Typing an expense amount. */
    method SetNewExpense(amount: real)
      modifies this`newExpense
      ensures newExpense == amount
    {
      newExpense := amount;
    }

    /** `addExpense`: `{time: now, amount: newExpense}` goes to the end of today's list. */
    method AddExpense(now: int)
      modifies this`todayExpenses, this`newExpense
      ensures todayExpenses == old(todayExpenses) + [Expense(now, old(newExpense))]
      ensures newExpense == 0.0
    {
      todayExpenses := todayExpenses + [Expense(now, newExpense)];
      newExpense := 0.0;
    }
  }

  /** Adding a custom plan and then removing any plan writes back the list the
      component held before the addition, less the removed id: the added plan is
      lost from the store and the catalogue, because `addCustomPlan` leaves
      `storagePlan` as it was. */
  method AddThenRemoveDropsAddedPlan(store: Store, now: string, otherId: string) returns (b: Bankroll)
    modifies store
    ensures store.customPlans == Some(WithoutPlan(old(store.StoredPlans()), otherId))
    ensures b.plans == DefaultPlans + WithoutPlan(old(store.StoredPlans()), otherId)
    ensures forall j :: 0 <= j < |b.plans| ==> b.plans[j] in DefaultPlans || b.plans[j] in old(store.StoredPlans())
  {
    b := new Bankroll(store);
    b.AddCustomPlan(now);
    assert |store.StoredPlans()| == |b.storagePlan| + 1;
    b.HandleRemovePlan(otherId);
    WithoutPlanKeepsOthers(b.storagePlan, [], otherId);
  }
}
