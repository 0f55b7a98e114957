# BudgetXP domain model in Dafny

BudgetXP is a small iPhone budgeting app. A user keeps several budgets. Each
budget has a limit, a date range, transactions, spending categories and
achievement badges. One global achievements store holds XP, an emergency
fund and global badges. This project models the rules inside the app's
model classes and view closures and proves what they promise:

- **Levels and badge progress** (`budget.dfy`, `badge.dfy`, `achievements.dfy`). The XP bar's value is in `achievements_tab.dfy` and the emergency-fund bar's total in `emergency_fund_tab.dfy`.
- **Spending analytics** (`analytics.dfy`):
  - the per-category breakdown;
  - the allocation list padded with a "Miscellaneous" share.
- **The persistence context** (`persistence.dfy`). This is a class, `ModelContext`, with two tables kept in fetch order: budgets and achievements stores.
  - Transactions, categories and badges are stored inside the record that owns them.
  - So the cascade delete rule holds by construction, and `CascadeDelete` states it for the global view of each record kind.
  - Identifiers come from a counter, which stands in for `UUID()`.
- **The views' state machines.** Each view's `@State` fields become a class with methods:
  - `main_tab.dfy`: budget selection, create, tap and swipe-to-delete;
  - `transactions_tab.dfy`: the add form and the recent-five list;
  - `settings_tab.dfy`: the add-category form;
  - `achievements_tab.dfy`: store get-or-create and the badge rows;
  - `emergency_fund_tab.dfy`: store adoption and the goal and progress fields.
- **Start-up** (`app.dfy`): open the container, and on failure remove the store file and retry once.

Conventions:
- Money and progress amounts are `real`.
- Dates are `int`; only their order matters.
- Swift's `Int` `/` and `%` truncate toward zero, so they are modelled as `TruncDiv` and `TruncRem`.
- Inputs from outside the core are parameters:
  - `Double(String)` parsing is `parse: string -> Option<real>`;
  - the clock is `now`;
  - the calendar's one-month step is `monthLater`;
  - the file system and the container are abstract functions of a disk state.

## Model

| member | source | states |
|---|---|---|
| Basics.Max | Views/EmergencyFundTabView.swift:38 | `max`: at least both arguments, and equal to one of them |
| Basics.Min | Models/Badge.swift:39 | `min`: at most both arguments, and equal to one of them |
| Basics.TruncDiv | Models/Budget.swift:35 | Swift's integer `/` by a positive divisor: the quotient is truncated toward zero (bounds for both signs of the dividend) |
| Basics.TruncRem | Views/AchievementsTabView.swift:68 | Swift's `%`: `a == q*b + r`, with `0 <= r < b` for `a >= 0` and `-b < r <= 0` for `a < 0` |
| BudgetModel.LevelFor | Models/Budget.swift:34-36 | level = xp / 500 + 1: for xp ≥ 0 the level is ≥ 1 and xp lies in [500·(level−1), 500·level); for negative xp, the truncating bounds |
| BudgetModel.Budget.Level | Models/Budget.swift:34-36 | a budget's level is LevelFor of its XP, and is at least 1 for non-negative XP |
| BudgetModel.LevelMonotone | Models/Budget.swift:34-36 | more XP never gives a lower level, for any XP, negative included |
| BudgetModel.LevelExamples | Models/Budget.swift:34-36 | 0 and 499 XP are level 1, 500 XP is level 2 |
| BudgetModel.Budget.StreakCount | Models/Budget.swift:38-40 | the streak is always 0 |
| BudgetModel.NewBudget | Models/Budget.swift:13-32 | a new budget keeps name, limit and dates exactly as given, unchecked; it has xp 0 (level 1), emergency goal and progress 0, and no transactions, categories or badges |
| BadgeModel.Badge.ProgressFraction | Models/Badge.swift:36-40 | always ≤ 1; ≥ 0 for non-negative progress; 0 when goal ≤ 0; 1 when progress ≥ goal > 0; otherwise exactly progress/goal |
| BadgeModel.ProgressFractionExamples | Models/Badge.swift:37-40 | 25 of 50 gives 0.5, 60 of 50 is capped at 1, and goal 0 gives 0 |
| BadgeModel.NewBadge | Models/Badge.swift:18-34 | a new badge is not achieved, has no date and no progress; `description` goes to `desc`; name, icon and goal are stored as given (goal 0 by default) |
| BadgeModel.StarterBadges | Views/MainTabView.swift:146-152 | the six seeded badges: distinct names, all unachieved with no progress; goal 50 for "Transaction Tracker" and 90 for "Data Diver" (the last two), 0 for the rest |
| AchievementsModel.AchievementsStore.Level | Models/Achievements.swift:21 | the store's level follows the budget rule and is ≥ 1 for non-negative xp |
| AchievementsModel.NewStore | Models/Achievements.swift:13-19 | a new store has xp 0 (level 1), emergency goal and progress 0, and no badges; the initialiser seeds nothing |
| Analytics.SumAmounts | Views/AnalyticsTabView.swift:38 | `reduce(0) { $0 + $1.amount }`: the amounts folded from 0 in list order; never negative when no amount is (SumTaggedIsSpent ties it to the per-category reference sum) |
| Analytics.GroupByCategory | Views/AnalyticsTabView.swift:37 | every group is non-empty, and holds only transactions of the list that carry the group's category |
| Analytics.GroupByCategoryIsTagged | Views/AnalyticsTabView.swift:37 | grouping by category has one group per category that occurs, and each group is exactly the transactions with that category, in order |
| Analytics.SumTaggedIsSpent | Views/AnalyticsTabView.swift:38 | folding a group's amounts gives the reference spending for that category |
| Analytics.Spent | Views/AnalyticsTabView.swift:81 | `breakdown[name] ?? 0`: the breakdown's value for a name it has, and 0 for any other name |
| Analytics.Breakdown | Views/AnalyticsTabView.swift:36-39 | the breakdown's keys are exactly the categories that occur (none when there are no transactions), and each value is the sum of the amounts under that category |
| Analytics.BreakdownExample | Views/AnalyticsTabView.swift:36-39 | 50 + 100 under "Food" and 300 under "Rent" break down to {Food: 150, Rent: 300} |
| Analytics.SpentMatchesTransactions | Views/AnalyticsTabView.swift:81 | `breakdown[name] ?? 0` is what was spent under that name, and 0 for a name with no transactions |
| Analytics.TotalAllocated | Views/AnalyticsTabView.swift:42 | `totalAllocated`: the category amounts folded from 0 in list order; never negative when no amount is |
| Analytics.AdjustedCategories | Views/AnalyticsTabView.swift:41-52 | the result is the categories unchanged, in order, followed by one "Miscellaneous" entry of `limit − total` exactly when total < limit (that entry is positive); its amounts sum to max(total, limit) |
| Analytics.AdjustedCategoriesExample | Views/AnalyticsTabView.swift:41-52 | 200 + 400 under a limit of 800 gains Miscellaneous 200; 400 + 400 gains nothing |
| Persistence.RemoveUnique | Models/Budget.swift:13 | deleting records keeps identifiers unique |
| Persistence.Find | Views/MainTabView.swift:21 | `first(where: id ==)`: none exactly when no budget has the id; otherwise a budget of the table carrying that id |
| Persistence.AddTransaction | Views/TransactionsTabView.swift:65 | the budget found under the id gains the transaction at the end; every other budget is unchanged; ids and table length are kept; an absent id changes nothing |
| Persistence.AddCategory | Views/SettingsTabView.swift:66 | as AddTransaction, for a category appended to the budget's categories |
| Persistence.DeleteBudgets | Views/MainTabView.swift:122 | a budget stays exactly when its id is not deleted, and what is found under every other id is unchanged |
| Persistence.RemoveAppend | Views/MainTabView.swift:122 | deleting from a concatenation deletes from each part: the surviving records keep their relative order |
| Persistence.FirstSurvivor | Views/MainTabView.swift:76-79 | after a delete, the first remaining budget (the one the selection falls back to) is the first budget whose id was not deleted |
| Persistence.CascadeDelete | Models/Budget.swift:23-25 | deleting a budget removes from the global table of transactions (or categories, or badges) exactly the ones it owns, as a multiset, and no others |
| Persistence.SetFundGoal | Views/EmergencyFundTabView.swift:20 | writing the goal: the store under the id reads back with the new goal, and every other store and field is unchanged |
| Persistence.SetFundProgress | Views/EmergencyFundTabView.swift:27 | writing the saved amount, symmetric to SetFundGoal |
| Persistence.ModelContext.FreshId | Models/Budget.swift:13 | a new identifier, used by no budget and no store |
| Persistence.ModelContext.InsertBudget | Views/MainTabView.swift:155 | insert appends the budget to the budget table, keeping identifiers unique |
| Persistence.ModelContext.InsertStore | Views/AchievementsTabView.swift:56 | insert appends the store to the store table, keeping identifiers unique |
| Persistence.ModelContext.AppendTransaction | Views/TransactionsTabView.swift:65-66 | the table becomes AddTransaction of the old table; the context stays valid |
| Persistence.ModelContext.AppendCategory | Views/SettingsTabView.swift:66-67 | the table becomes AddCategory of the old table; the context stays valid |
| Persistence.ModelContext.WriteFundGoal | Views/EmergencyFundTabView.swift:20 | the store table becomes SetFundGoal of the old one |
| Persistence.ModelContext.WriteFundProgress | Views/EmergencyFundTabView.swift:27 | the store table becomes SetFundProgress of the old one |
| Persistence.ModelContext.Delete | Views/MainTabView.swift:122 | `modelContext.delete(budget)`: the table becomes DeleteBudgets of the old table for that id; the context stays valid |
| MainTab.HeaderFor | Views/MainTabView.swift:27-42 | a budget picker exactly on the transactions, analytics, settings and emergency-fund tabs when budgets exist; the "no budgets" notice exactly on those tabs without budgets; nothing on the others |
| MainTab.SelectedBudget | Views/MainTabView.swift:20-22 | the selected budget is a budget of the list carrying the selected id; it is none exactly when nothing is selected or no budget has that id |
| MainTab.SelectingPicksThatBudget | Views/MainTabView.swift:20-22 | with unique ids, selecting a budget's id makes exactly that budget the selected one |
| MainTab.IdsAt | Views/MainTabView.swift:122 | the ids deleted are exactly the ids of the rows at the swiped offsets: each swiped row's id is among them, and each of them is a swiped row's id |
| MainTab.UnswipedRowsSurvive | Views/MainTabView.swift:122 | with unique ids, a row at no swiped offset is still in the table after the delete |
| MainTab.ClearsSelection | Views/MainTabView.swift:123-124 | the selection is cleared only when it names a shown budget that is being deleted; never with no swiped rows or no selection |
| MainTab.DeleteRows | Views/MainTabView.swift:122 | `idx.map { budgets[$0] }.forEach(modelContext.delete)`: the table becomes the shown list without the budgets at the offsets; the context stays valid and stores are untouched |
| MainTab.DeletingLeavesStaleSelection | Views/MainTabView.swift:120-128 | deleting rows 0 and 1 while row 1 is selected does not clear the selection, which then names no budget |
| MainTab.MainTab.constructor | Views/MainTabView.swift:17-18 | nothing is selected and the budgets tab is shown |
| MainTab.MainTab.DefaultSelection | Views/MainTabView.swift:71-80 | an empty selection becomes the first budget (or stays empty with no budgets); a set selection is never overwritten, even a stale one |
| MainTab.MainTab.Tap | Views/MainTabView.swift:113-117 | tapping selects that budget and shows the transactions tab |
| MainTab.MainTab.CreateBudget | Views/MainTabView.swift:137-160 | one budget is appended, named "New Budget" with limit 500 from now to a month later, owning exactly the six starter badges; it becomes the selected budget, and the transactions tab is shown |
| MainTab.MainTab.OnDelete | Views/MainTabView.swift:120-128 | the swiped budgets are deleted; selection and tab reset to none and the budgets tab exactly when the lowest swiped row held the selected budget, and are kept otherwise |
| TransactionsTab.SortNewestFirst | Views/TransactionsTabView.swift:26 | `sorted { $0.date > $1.date }`: the same transactions as a multiset, ordered newest first |
| TransactionsTab.Recent | Views/TransactionsTabView.swift:25-27 | the recent list has RecentCount rows (at most five, at most the count), each one of the budget's transactions |
| TransactionsTab.RecentIsNewestFive | Views/TransactionsTabView.swift:24-28 | the recent list has min(5, count) rows, drawn from the budget's transactions, newest first; with five or fewer, all are shown |
| TransactionsTab.RecentOmitsOnlyOlder | Views/TransactionsTabView.swift:26-27 | no transaction left out of the recent list is newer than one shown |
| TransactionsTab.TransactionForm.constructor | Views/TransactionsTabView.swift:15-18 | the form starts with empty fields and today's date |
| TransactionsTab.TransactionForm.Add | Views/TransactionsTabView.swift:54-71 | an unparsable amount or no picked category changes nothing, fields included; otherwise exactly one transaction (parsed amount, picked date, description even if empty, category name) is appended to the budget, and the form resets with the date set to now |
| SettingsTab.CategoryForm.constructor | Views/SettingsTabView.swift:22-23 | both input fields start empty |
| SettingsTab.CategoryForm.AddCategory | Views/SettingsTabView.swift:56-70 | an unparsable amount or an empty name changes nothing, and the typed text is kept; otherwise one category with that name and amount (any sign) is appended to the budget, and both fields are cleared |
| SettingsTab.AddCategoryKeepsTheRest | Views/SettingsTabView.swift:66 | adding a category leaves the budget's transactions, badges, name, limit and dates, and its earlier categories in order, unchanged; the new one is last |
| SettingsTab.DuplicateNamesAccepted | Views/SettingsTabView.swift:57-66 | there is no uniqueness check: adding the same category twice leaves two entries |
| AchievementsTab.StatusIconFor | Views/AchievementsTabView.swift:27 | the seal icon exactly for an achieved badge, the lock exactly otherwise |
| AchievementsTab.ShowsProgressBar | Views/AchievementsTabView.swift:89 | a progress bar is shown only on a locked row, and never for a goal ≤ 0 |
| AchievementsTab.XpBarValue | Views/AchievementsTabView.swift:68 | `xp % 500`: in [0, 500) for xp ≥ 0, and it is the XP earned within the current level |
| AchievementsTab.StarterRows | Views/AchievementsTabView.swift:89-90 | the starter badges show six locks, and a progress bar (goal > 0 and not achieved) on exactly the last two |
| AchievementsTab.AchievementsOpen | Views/AchievementsTabView.swift:38-58 | with a store, the table is unchanged; without one, it becomes one new store with no XP, an empty fund and exactly the six starter badges |
| AchievementsTab.Store | Views/AchievementsTabView.swift:38-58 | the getter returns the first store, inserting nothing when one exists; otherwise it builds a new store by appending the starter badges one by one, inserts it and returns it |
| EmergencyFundTab.EmergencyOpen | Views/EmergencyFundTabView.swift:83-89 | with a store, the table is unchanged; without one, it becomes one new bare store with no badges |
| EmergencyFundTab.Goal | Views/EmergencyFundTabView.swift:19 | the goal field reads the store's goal, or 0 without a store |
| EmergencyFundTab.Progress | Views/EmergencyFundTabView.swift:26 | the saved field and the bar's value read the store's saved amount, or 0 without a store |
| EmergencyFundTab.BarTotal | Views/EmergencyFundTabView.swift:38 | the bar total is at least 1, equals max(goal field, 1), is 1 without a store, and is the goal when the goal is at least 1 |
| EmergencyFundTab.BarValueNotClamped | Views/EmergencyFundTabView.swift:37-38 | the bar's value is not clamped: 150 saved of a goal of 100 exceeds the total |
| EmergencyFundTab.OpeningOrderDecidesBadges | Views/EmergencyFundTabView.swift:83-89 | on an empty store file, opening the emergency-fund tab first leaves a store with no badges that the achievements tab adopts as is; opening the achievements tab first leaves the six starter badges |
| EmergencyFundTab.EmergencyFundTab.constructor | Views/EmergencyFundTabView.swift:14 | the view starts with no store |
| EmergencyFundTab.EmergencyFundTab.OnAppear | Views/EmergencyFundTabView.swift:80-91 | a view with a store changes nothing; otherwise it adopts the first store, or inserts one bare store, and then shows that store |
| EmergencyFundTab.EmergencyFundTab.SetGoal | Views/EmergencyFundTabView.swift:17-21 | without a store nothing changes; with one, the goal reads back as the value written and the saved amount is unchanged |
| EmergencyFundTab.EmergencyFundTab.SetProgress | Views/EmergencyFundTabView.swift:24-28 | without a store nothing changes; with one, the saved amount reads back as the value written and the goal is unchanged |
| App.MakeContainer | BudgetXPApp.swift:15-44 | a first open that succeeds is used, with no removal; otherwise the store file removal is attempted once (its failure is ignored) and the open is retried once, with a second failure fatal; the retry's outcome is its own (`open` receives the attempt number), so it may succeed even when the removal failed; there are at most two opens, both with the same schema and configuration |

## Left out

- SwiftUI layout, navigation, charts and formatted text are presentation only. This includes:
  - the "Please select a budget" placeholder;
  - the achievements tab's emergency-fund bar, which has no zero-goal guard.
- `color(for:)` in Views/AnalyticsTabView.swift hashes a string with a per-process random seed, so it is not a stable function.
- Intents/LogTransactionIntent.swift is commented out entirely.
- IEEE `Double`: NaN, infinities and rounding are not modelled; amounts are exact reals. `Double(String)` is the parameter `parse`.
- The clock, `Calendar` month arithmetic, the `FileManager` store URL, the container itself and `print` logging are not modelled. They are parameters or abstract functions.
- SwiftData internals:
  - `@Query` refresh timing is not modelled.
  - Fetch order is taken to be insertion order.
  - Re-evaluating the achievements `store` getter before the query refreshes could insert a second store; that timing is not modelled.
- Child records carry no identifiers in the model, and inserting a child record has no separate effect. Transactions, categories and badges live inside their owner.
- Deleting an achievements store: no code path deletes one. Its badges live inside it, so the cascade to them holds by construction.
- The settings tab's budget-info fields (Views/SettingsTabView.swift:29-43) write name, limit and dates straight through bindings, with no rule of their own.
- Badge unlocking, XP awarding and emergency-fund updates from spending are not modelled: no code sets `achieved`, `progress` or `xp`.
- TransactionsTab.SortNewestFirst: the model fixes one order for transactions with equal dates. Swift's `sorted` does not promise one, so the proved properties say nothing about ties.
- MainTab.OnDelete: the offsets are taken ascending and without repeats, as an index set gives them. Rows are looked up in the list as it was shown before the deletions.
