/** The browser's `localStorage` as the components use it: one entry per key,
    each holding a list of records that `JSON.stringify` writes and `JSON.parse`
    reads back unchanged (these shapes hold only numbers, strings and booleans).
    A key that was never written is `None`. */
module LocalStorage {
  import opened Wrappers

  /** One bet projection of the home screen (`BetCalculation` in home-screen.tsx).
      `isWin` is `None` while the bet is unresolved. */
  datatype BetCalculation = BetCalculation(
    amount: real,
    odds: real,
    percentage: real,
    potentialWin: real,
    potentialLoss: real,
    date: string,
    isWin: Option<bool>)

  /** A bankroll plan: ten daily risk limits, in percent. */
  datatype BankrollPlan = BankrollPlan(id: string, name: string, risk: string, dailyLimits: seq<real>)

  /** A strategy the user wrote; `image` is the data URL of the uploaded picture. */
  datatype UserStrategy = UserStrategy(id: int, title: string, description: string, content: string, image: string)

  /** The keys "betCalculations", "customPlans" and "ownStrategies". */
  class Store {
    var betCalculations: Option<seq<BetCalculation>>
    var customPlans: Option<seq<BankrollPlan>>
    var ownStrategies: Option<seq<UserStrategy>>

    /** The stored custom plans, with a missing key read as `[]`. */
    function StoredPlans(): (r: seq<BankrollPlan>)
      reads this
      ensures customPlans.Some? ==> r == customPlans.value
      ensures customPlans.None? ==> r == []
    {
      customPlans.GetOr([])
    }

    /** The stored user strategies, with a missing key read as `[]` (`getItem(...) || "[]"`). */
    function StoredStrategies(): (r: seq<UserStrategy>)
      reads this
      ensures ownStrategies.Some? ==> r == ownStrategies.value
      ensures ownStrategies.None? ==> r == []
    {
      ownStrategies.GetOr([])
    }
  }
}
