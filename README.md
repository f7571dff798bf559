# Plinko Strategy: betting ledger and strategy engine in Dafny

This project models the logic inside the React components of the Plinko Strategy
betting assistant. It covers:

- the **loss-recovery plan** (`calculateRecovery`): the input check, the default stake
  of a tenth of the loss, the profit per bet, the bet count `Math.ceil(loss / profit)`
  and the counted loop that builds the steps;
- the **bet calculator and history ledger** of the home screen: the projection
  formulas, the history with the newest record first, marking a record as a win or
  a loss, and the win/loss totals folded from the stored history;
- the **bankroll plan catalogue**: three built-in plans followed by the stored custom
  plans, adding and removing custom plans, the chart series of the selected plan,
  the plan form and today's expense list;
- the **user strategy list**: saving a strategy from the dialog, loading the list,
  removing by id, and the tab and empty-state conditions;
- two small state machines: the **onboarding slideshow** and the **myth-swipe game**.

Each component that keeps state is a `class`. Its fields are the `useState`
variables that its handlers read or change, and each event handler is a method with
a `modifies` clause. Text inputs whose contents only reach a handler through
`Number.parseFloat` are not fields: the handler receives the parse.
`localStorage` is the class `LocalStorage.Store`, which has one field per key
("betCalculations", "customPlans", "ownStrategies"). A field is `None` while its key
has never been written. A component gets its store when it is constructed, and
the constructor runs the component's mount effect. `JSON.stringify` followed by
`JSON.parse` gives back the same value for these shapes, so the store holds the
typed lists themselves.

Modelling conventions:

- Amounts are exact `real`s.
- `Number.parseFloat` results are passed in as `Option<real>`, where `None` stands
  for `NaN`.
- `Date.now()` and `new Date().toLocaleString()` are passed in as parameters.
- `Number(e.target.value)` on the `type="number"` inputs is a `real`. Such an input
  yields either `""` or a numeric string, and `Number("")` is 0.

Where the code and its written design disagree, the model follows the code:

- A negative explicit stake is kept, not defaulted. Its profit is negative, the
  ceiling is at most 0, and the plan is empty while `showResults` still becomes true.
  There is no error for a non-positive profit.
- Only `NaN` is rejected by the calculator. There is no range check on the amount,
  the odds or the percentage.
- There is no fallback for a selected plan id that no plan has: `bankrollData` is
  then `undefined` (`None`).
- `markAsWin(i)` / `markAsLoss(i)` with `i` out of range throws in the source. The
  UI only calls them with indices of the list, so the methods require an index in
  range.
- Custom-plan and strategy ids are wall-clock milliseconds. The model does not
  assume they are unique.
- `addCustomPlan` does not update `storagePlan`. As a result, removing any plan
  afterwards drops the newly added plan from the store and from the catalogue
  (`BankrollPlans.AddThenRemoveDropsAddedPlan`). The same happens between the
  strategy dialog and the strategy list (`StrategyDatabase.SaveThenRemoveDropsSaved`).
  The model keeps this behaviour, as the code has it.

## Model

| member | source | states |
|---|---|---|
| `RecoveryAdvisor.CheckInputs` | components/recovery-advisor.tsx:34-40 | returns early (`None`, state untouched) exactly when the loss or the odds is NaN, the loss is ≤ 0 or the odds are ≤ 1; otherwise the inputs are accepted with the defaulted stake, which is nonzero |
| `RecoveryAdvisor.DefaultBet` | components/recovery-advisor.tsx:36 | a parsed nonzero stake is kept (negative ones included); NaN or 0 falls back to `loss / 10` |
| `RecoveryAdvisor.Profit` | components/recovery-advisor.tsx:42 | for accepted inputs the profit per bet is never zero and is positive exactly when the stake is |
| `RecoveryAdvisor.Ceil` | components/recovery-advisor.tsx:43 | `Math.ceil`: the result is the least integer not below its argument |
| `RecoveryAdvisor.ClampAtZero` | components/recovery-advisor.tsx:57 | `Math.max(0, x)` is non-negative, at least `x`, and either `x` or 0 |
| `RecoveryAdvisor.BuildPlan` | components/recovery-advisor.tsx:45-61 | the loop that accumulates `totalInvestment += bet` and the unclamped `remainingLoss -= profit` yields exactly the closed-form plan: step i (1-based) has `bet = i`, the stake, the profit, `remainingLoss = max(0, loss − i·profit)`, `totalInvestment = i·bet`, `netPosition = i·bet − loss + i·profit`, and there are `max(0, betsNeeded)` steps |
| `RecoveryAdvisor.TimesIsProduct` | components/recovery-advisor.tsx:50-52 | adding an amount once per iteration, as the loop does with `bet` and `profit`, leaves `i` times that amount after `i` iterations |
| `RecoveryAdvisor.BetsNeededIsLeastCover` | components/recovery-advisor.tsx:42-43 | with a positive stake the bet count n is at least 1 and is the least count that covers the loss: `n·profit ≥ loss` and `(n−1)·profit < loss` |
| `RecoveryAdvisor.NegativeStakeGivesEmptyPlan` | components/recovery-advisor.tsx:36-49 | a negative explicit stake gives a ceiling ≤ 0 and an empty plan |
| `RecoveryAdvisor.RemainingLossReachesZeroOnlyAtLastStep` | components/recovery-advisor.tsx:43-60 | the plan has `ceil(loss / profit)` steps (at least one for a positive stake); `remainingLoss` is 0 at the last step and positive at every earlier step |
| `RecoveryAdvisor.PlanIsMonotone` | components/recovery-advisor.tsx:50-58 | along the plan `remainingLoss` is never negative and never grows, and `totalInvestment` never shrinks |
| `RecoveryAdvisor.NetPositionRisesByStakeTimesOdds` | components/recovery-advisor.tsx:59 | step i's net position is `i·bet·odds − loss`, so it rises by `bet·odds` from one step to the next |
| `RecoveryAdvisor.DefaultStakeExample` | components/recovery-advisor.tsx:34-61 | a loss of 100 at odds 2 without a stake defaults the stake to 10, the profit to 10, and gives ten steps with remaining loss 90, 80, …, 0 and investment 10, 20, …, 100 |
| `RecoveryAdvisor.DisabledButtonOnlyBlocksRejectedInputs` | components/recovery-advisor.tsx:127 | a disabled Calculate button (empty loss field or a parsed loss ≤ 0) only blocks inputs `calculateRecovery` rejects; when enabled with a parsed loss, the loss is positive and only the odds can still cause the early return |
| `RecoveryAdvisor.Advisor.constructor` | components/recovery-advisor.tsx:30-31 | the screen starts with an empty plan and hidden results |
| `RecoveryAdvisor.Advisor.CalculateRecovery` | components/recovery-advisor.tsx:33-65 | on rejected inputs `recoveryPlan` and `showResults` are unchanged; otherwise `recoveryPlan` is the plan of the accepted inputs and `showResults` is true |
| `HomeScreen.NewCalculation` | components/home-screen.tsx:71-89 | no record (early return) exactly when one of amount, odds, percentage is NaN; otherwise the record keeps the three numbers and the date, `potentialWin = amount·odds·(percentage/100)`, `potentialLoss = amount`, and `isWin` is unset |
| `HomeScreen.WithOutcome` | components/home-screen.tsx:108-128 | marking entry i sets its `isWin` to true/false; the length and every other entry are unchanged |
| `HomeScreen.SumTotals` | components/home-screen.tsx:54-63 | the `forEach` accumulators end as the sum of `potentialWin` over records with `isWin === true` and of `potentialLoss` over records with `isWin === false` |
| `HomeScreen.TotalsOfPrepend` | components/home-screen.tsx:91 | putting a record at the front adds its own share to each total |
| `HomeScreen.NewCalculationKeepsTotals` | components/home-screen.tsx:82-105 | a new (unresolved) record at the front leaves both totals unchanged |
| `HomeScreen.TotalsOfOutcome` | components/home-screen.tsx:108-128 | marking entry i replaces its old share of each total by its new share |
| `HomeScreen.ResolvingAddsItsShare` | components/home-screen.tsx:57-62 | marking an unresolved bet a win adds its potential win to the wins only; marking it a loss adds its potential loss to the losses only |
| `HomeScreen.RemarkingKeepsTotals` | components/home-screen.tsx:110 | marking a record again with the outcome it already has leaves the history and both totals unchanged |
| `HomeScreen.TotalsExample` | components/home-screen.tsx:54-63 | wins of 10 and 20 and a loss of 5 give totals 30 and 5 |
| `HomeScreen.Home.constructor` | components/home-screen.tsx:38-47 | on mount the history is what the store holds (empty when the key is missing) and the totals are those of that history |
| `HomeScreen.Home.CalculateTotals` | components/home-screen.tsx:49-68 | without the "betCalculations" key the totals stay as they were; otherwise they are the fold of the stored history |
| `HomeScreen.Home.CalculateBet` | components/home-screen.tsx:70-106 | when a field is NaN nothing changes, in memory or in the store; otherwise the new record is put at the front of the earlier history, the store holds the same list, the calculator dialog closes and the totals are unchanged; the store/history/totals invariant is kept |
| `HomeScreen.Home.MarkAsWin` | components/home-screen.tsx:108-117 | entry i becomes a win, nothing else changes, the store holds the new list and the totals are recomputed from it |
| `HomeScreen.Home.MarkAsLoss` | components/home-screen.tsx:119-128 | entry i becomes a loss, nothing else changes, the store holds the new list and the totals are recomputed from it |
| `HomeScreen.Home.Balance` | components/home-screen.tsx:170 | the balance `totalWins − totalLosses` equals the wins minus the losses of the current history |
| `HomeScreen.Home.OffersMarking` | components/home-screen.tsx:369 | the Win/Loss buttons show exactly for unresolved records, which add nothing to either total |
| `LocalStorage.Store.StoredPlans` | components/CurrentPlanBankroll.tsx:52 | the stored custom plans, with a missing key read as the empty list |
| `LocalStorage.Store.StoredStrategies` | components/addOwnStrategy.tsx:49-51 | the stored strategies, with a missing key read as the empty list |
| `Seqs.Filter` | components/strategy-database.tsx:114-116 | `Array.prototype.filter`: the result holds exactly the elements that pass the test and is no longer than the input |
| `Seqs.FilterAppend` | components/CurrentPlanBankroll.tsx:84 | filtering distributes over concatenation, so kept elements keep their order |
| `Seqs.FilterKeepsAll` | components/strategy-database.tsx:114-116 | a filter every element passes returns its input unchanged |
| `BankrollPlans.DefaultPlansComeFirst` | components/CurrentPlanBankroll.tsx:17-40 | exactly three built-in plans with ids conservative, balanced, aggressive in that order and ten limits each; ahead of any custom list, the initial selection "conservative" finds the built-in plan and has chart data |
| `BankrollPlans.FirstIndex` | components/CurrentPlanBankroll.tsx:77 | the position `find` stops at: the first plan with the id, or the end when none has it |
| `BankrollPlans.FindPlan` | components/CurrentPlanBankroll.tsx:76-77 | `undefined` exactly when no plan has the id; otherwise the first plan with it |
| `BankrollPlans.BankrollData` | components/CurrentPlanBankroll.tsx:76-81 | `undefined` exactly when no plan has the selected id; otherwise one point per daily limit of the first such plan, in order, labelled "Day i+1" with the limit as value |
| `BankrollPlans.ExpenseSeries` | components/CurrentPlanBankroll.tsx:187-190 | one chart point per expense, in order, with x = index + 1 and the expense amount |
| `BankrollPlans.DecimalString` | components/CurrentPlanBankroll.tsx:79 | the number in a day label is the decimal numeral of `n`: a non-empty string of digits that spells `n` when read back (`DigitsValue`), with no leading zero |
| `BankrollPlans.WithoutPlanKeepsOthers` | components/CurrentPlanBankroll.tsx:84 | removal keeps exactly the plans with another id, in their original order |
| `BankrollPlans.WithoutUnknownIdIsIdentity` | components/CurrentPlanBankroll.tsx:83-88 | removing an id no held custom plan has returns the held list unchanged |
| `BankrollPlans.Bankroll.constructor` | components/CurrentPlanBankroll.tsx:39-55 | after the load effect `storagePlan` is the stored list (empty when missing), `plans` is the defaults followed by it, the selection is "conservative", the form is blank with ten zero limits and there are no expenses |
| `BankrollPlans.Bankroll.AddCustomPlan` | components/CurrentPlanBankroll.tsx:57-66 | the form plan with the new id goes to the end of the stored list and of `plans`; the form is reset; `storagePlan` is left as it was; the catalogue invariant (`plans` = defaults + stored, `storagePlan` a prefix of stored) is kept |
| `BankrollPlans.Bankroll.HandleRemovePlan` | components/CurrentPlanBankroll.tsx:83-88 | `storagePlan` becomes the old `storagePlan` without that id, the store holds the same list, and `plans` is the defaults followed by it |
| `BankrollPlans.Bankroll.HasDeleteButton` | components/CurrentPlanBankroll.tsx:111 | a plan has a trash button exactly when `storagePlan` holds a plan with its id |
| `BankrollPlans.Bankroll.SelectPlan` | components/CurrentPlanBankroll.tsx:107 | the selection becomes the plan's id, without an existence check |
| `BankrollPlans.Bankroll.ToggleTodayGraph` | components/CurrentPlanBankroll.tsx:177 | the expense chart's visibility flips |
| `BankrollPlans.Bankroll.SetName` | components/CurrentPlanBankroll.tsx:134 | only the form's name changes |
| `BankrollPlans.Bankroll.SetRisk` | components/CurrentPlanBankroll.tsx:138 | only the form's risk changes |
| `BankrollPlans.Bankroll.SetDailyLimit` | components/CurrentPlanBankroll.tsx:146-149 | only slot i of the form's daily limits changes |
| `BankrollPlans.Bankroll.SetNewExpense` | components/CurrentPlanBankroll.tsx:213 | the pending expense amount becomes the typed number |
| `BankrollPlans.Bankroll.AddExpense` | components/CurrentPlanBankroll.tsx:68-74 | `{time, amount}` goes to the end of today's expenses and the pending amount resets to 0 |
| `BankrollPlans.AddThenRemoveDropsAddedPlan` | components/CurrentPlanBankroll.tsx:57-88 | mounting, adding a plan and removing any id leaves the store and the catalogue with only the plans held at mount time, less that id: the added plan is lost |
| `AddOwnStrategy.SavedList` | components/addOwnStrategy.tsx:49-53 | the written list is the stored list (empty when missing) followed by the new strategy, one longer |
| `AddOwnStrategy.StrategyForm.constructor` | components/addOwnStrategy.tsx:18-23 | the dialog starts closed with empty fields, no image and no error |
| `AddOwnStrategy.StrategyForm.OpenDialog` | components/addOwnStrategy.tsx:69 | the floating button opens the dialog |
| `AddOwnStrategy.StrategyForm.SetFields` | components/addOwnStrategy.tsx:86-110 | the three text fields take the typed values |
| `AddOwnStrategy.StrategyForm.SetImage` | components/addOwnStrategy.tsx:29-31 | the image becomes the data URL the file reader produced |
| `AddOwnStrategy.StrategyForm.HandleSave` | components/addOwnStrategy.tsx:36-61 | with a field empty or the image missing, the error reads "All fields must be filled." and the fields, the dialog and the store are untouched; otherwise `{id: now, title, description, content, image}` is appended to the stored list, and the fields, the image and the error are cleared and the dialog closes |
| `StrategyDatabase.WithoutStrategyKeepsOthers` | components/strategy-database.tsx:113-116 | removal keeps exactly the strategies with another id, in order, and removing again changes nothing |
| `StrategyDatabase.WithoutAbsentIdIsIdentity` | components/strategy-database.tsx:113-119 | removing an id no strategy has leaves the list unchanged |
| `StrategyDatabase.Database.constructor` | components/strategy-database.tsx:101-110 | the screen opens on the "strategies" tab with the stored list, or an empty one when the key is missing |
| `StrategyDatabase.Database.HandleClick` | components/strategy-database.tsx:112 | the tab becomes the clicked one |
| `StrategyDatabase.Database.RemoveStrategy` | components/strategy-database.tsx:113-119 | the list loses every entry with the id, the others keep their order, and the store holds the same list |
| `StrategyDatabase.Database.ShowsEmptyState` | components/strategy-database.tsx:170-174 | the empty-state message shows exactly on the "own" tab with an empty list |
| `StrategyDatabase.TabsAreExclusive` | components/strategy-database.tsx:140-174 | the built-in list and the user list never show together; the empty-state message implies the built-in list is hidden and the user list is empty |
| `StrategyDatabase.SaveThenRemoveDropsSaved` | components/strategy-database.tsx:104-119 | a strategy saved after the screen mounted is lost from the store by the next removal of any id |
| `Onboarding.Slideshow.constructor` | components/onboarding.tsx:43 | the slideshow starts on step 0 |
| `Onboarding.Slideshow.NextStep` | components/onboarding.tsx:45-51 | on the last step `onComplete` is called (reported) and the step stays; elsewhere the step goes up by one; the step stays within 0..2 |
| `Onboarding.Slideshow.PrevStep` | components/onboarding.tsx:53-57 | the step goes down by one above 0 and stays at 0; the step stays within 0..2 |
| `Onboarding.Slideshow.BackDisabled` | components/onboarding.tsx:113 | Back is disabled exactly where `prevStep` would do nothing, at step 0 |
| `Onboarding.Slideshow.NextLabel` | components/onboarding.tsx:123-125 | the Next button reads "Get Started" exactly on the last step |
| `Onboarding.Slideshow.Indicators` | components/onboarding.tsx:100-107 | there is one dot per slide, dot i is lit exactly when `i === currentStep`, and so exactly one dot is lit |
| `Onboarding.OneLitDot` | components/onboarding.tsx:103-104 | a row whose only lit dot is at one position counts exactly one lit dot |
| `Myths.SwipeOf` | components/myths.tsx:49-52 | an offset > 100 swipes right, < −100 swipes left, and anything in [−100, 100] does nothing |
| `Myths.IsCorrect` | components/myths.tsx:22-23 | a true statement is answered correctly exactly by a left (Fact) swipe, a myth exactly by a right (Myth) swipe |
| `Myths.ExactlyOneDirectionIsCorrect` | components/myths.tsx:22-23 | for every card exactly one of the two directions scores as correct |
| `Myths.WithoutCardKeepsOthers` | components/myths.tsx:28 | after removal no card has the swiped id and the other cards remain in order |
| `Myths.SwipeGame.constructor` | components/myths.tsx:16-19 | the game starts on the whole deck with no feedback |
| `Myths.SwipeGame.HandleSwipe` | components/myths.tsx:21-25 | the feedback becomes `{id: card.id, correct}` with the correctness rule |
| `Myths.SwipeGame.RemoveSwiped` | components/myths.tsx:27-30 | the swiped card leaves the deck, the others keep their order, and the feedback is cleared |
| `Myths.SwipeGame.DragEnd` | components/myths.tsx:49-52 | a drag within the thresholds leaves the feedback alone; beyond them it scores the card in the swipe's direction |
| `Myths.SwipeGame.ShowsNoMoreMyths` | components/myths.tsx:38-60 | "No more myths!" shows exactly when the deck is empty |

## Left out

- Rendering: the JSX, the styling, the framer-motion animations and the Dialog, Card and Button wrappers are not modelled. For the recharts charts, only the data series they receive is modelled. `toFixed` display formatting is not modelled either.
- Dialog visibility: closing the calculator after a saved bet is modelled (`showCalculator`). Opening the calculator, the history dialog of the home screen, the "Read More" detail dialog of the strategy screen (`selectedStrategy`) and the Cancel buttons are not modelled. They only show or hide views.
- Text fields: the strings behind the inputs of the recovery advisor (`lossAmount`, `odds`, `betAmount`) and of the bet calculator (`amount`, `odds`, `percentage`) are not modelled. The handlers receive their parses directly, so the calculator's clearing of its three fields after a save is not modelled either. The one place the raw loss text matters, the disabled Calculate button, takes the text and its parse as parameters.
- The 1000 ms `setTimeout` in the myth game: the removal is the separate method `RemoveSwiped`, and the delay is not modelled.
- Image upload: the `FileReader` in the strategy dialog is browser I/O. `SetImage` receives the data URL it produces.
- JSON and `localStorage`: the serialisation and the `Array.isArray` guard are not modelled. The store always holds typed lists.
- The "onboardingCompleted" flag: app/page.tsx writes it when `onComplete` runs. `NextStep` only reports that `onComplete` was called.
- Numbers: IEEE-754 doubles, rounding, `Infinity` and the exact string rules of `parseFloat` are not modelled. Amounts are exact reals, a parse is `Option<real>`, and the `0.1` of the default stake is the exact tenth.
- Clock: `Date.now()` and `toLocaleString()` are parameters, and their values are not modelled.
- Aliasing in `markAsWin`/`markAsLoss`: the source shallow-copies the array and mutates the shared record object, so the previous state array sees the change too. The model updates values. The previous array is discarded right away, so no observable state differs.
- Static content: the built-in strategy list is not modelled (only the tab that shows it), nor the slide titles, descriptions and icons. The `myths` card list is the constructor's `deck` parameter.
- components/settings.tsx, components/bottom-navigation.tsx, app/page.tsx and the `cn` helper of lib/utils.ts hold no logic of the core and are not part of this model.
