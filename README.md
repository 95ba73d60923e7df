# Fiscal Compass expense tracker: persistence layer and analytics arithmetic

This project models, in Dafny, the core of the Fiscal Compass expense tracker. That core has three parts.

**Per-profile local persistence layer** (`src/lib/data-store.ts`)
- One browser tab's `localStorage` is modelled as a map from key to text. The module's memo of the active profile prefix and the storage events it dispatches are modelled beside it, together as the class `DataStore.Browser`.
- Every record is written as `JSON.stringify` text under `<prefix>_<base>`. It is read back through `JSON.parse` with a reviver that turns ISO-8601 `date` strings into `Date`s.
- The profile prefix is `user_<sanitized name>_<sanitized email>`. It is kept under one global active-user key.
- `JSON.stringify` and `JSON.parse` are modelled as a real encoder and a recursive-descent parser (`Json`). The round trip is proved (`JsonLaws`).
- The reviver is modelled separately (`Revival`). The exact set of values that survive a write and a read is characterised.
- The shapes of the stored records are in `Records`.

**Analytics**
- The bar and pie charts group expenses by category and sum them. Each chart is an imperative loop that mirrors the source's `reduce`. Each is proved equal to one reference definition, `CategoryTotals.GroupSum`, whose properties are proved: distinct categories, first-appearance order, exact category set, conservation of the sum, and empty exactly when there are no expenses.
- The pie chart also has a colour table and a per-slice fill.

**Small pure pieces**
- The budget card's progress percentage, its destructive styling and its "remaining" / "over budget" line.
- The sidebar's active-link predicate.

Amounts are integers: cents rather than floating-point numbers. The progress percentage is a Dafny `real`.

## Model

| member | source | states |
|---|---|---|
| Constants.CategoryTable | src/lib/constants.ts:10-21 | the category table holds ten categories, Food … Other in this order, with pairwise-distinct names |
| StoreKeys.TrimStart | src/lib/data-store.ts:25 | what is left after trimming the start does not start with ECMAScript white space |
| StoreKeys.TrimStartDropsSpace | src/lib/data-store.ts:25 | what is left after trimming the start is a suffix of the input, and everything dropped before it is ECMAScript white space |
| StoreKeys.TrimEnd | src/lib/data-store.ts:25 | what is left after trimming the end does not end with ECMAScript white space |
| StoreKeys.TrimEndDropsSpace | src/lib/data-store.ts:25 | what is left after trimming the end is a prefix of the input, and everything dropped after it is ECMAScript white space |
| StoreKeys.SanitizeChars | src/lib/data-store.ts:25 | lower-casing and replacement leave only `a-z`, `0-9` and `_`, and never shorten the text |
| StoreKeys.Sanitize | src/lib/data-store.ts:24-26 | a sanitized string holds only `a-z`, `0-9` and `_`, and is at least as long as the trimmed input |
| StoreKeys.SanitizeLength | src/lib/data-store.ts:24-26 | sanitizing keeps the length of the trimmed string when it is ASCII |
| StoreKeys.SanitizeCharsLength | src/lib/data-store.ts:25 | the per-character replacement keeps the length of ASCII text |
| StoreKeys.SanitizeOfKeySafe | src/lib/data-store.ts:24-26 | a string already made of `a-z`, `0-9`, `_` is left unchanged |
| StoreKeys.SanitizeCharsOfKeySafe | src/lib/data-store.ts:25 | the replacement leaves a string of key characters unchanged |
| StoreKeys.SanitizeIdempotent | src/lib/data-store.ts:24-26 | sanitizing twice is sanitizing once |
| StoreKeys.SanitizeCharsConcat | src/lib/data-store.ts:25 | the replacement works character by character, so it distributes over concatenation |
| StoreKeys.PrefixMovesUnderscore | src/lib/data-store.ts:29-33 | an underscore moved from the end of the name to the start of the e-mail gives the same prefix, so prefixes are not injective |
| StoreKeys.SpacedSanitizes | src/lib/data-store.ts:24-26 | an inner space sanitizes to an underscore |
| StoreKeys.PrefixSpaceIsUnderscore | src/lib/data-store.ts:29-33 | a name with an inner space gets the prefix of the same name with an underscore |
| StoreKeys.UserPrefix | src/lib/data-store.ts:29-33 | a profile prefix begins with `user_` and holds only `a-z`, `0-9` and `_` |
| StoreKeys.PrefixCollisions | src/lib/data-store.ts:29-33 | example: ("a_b","c") and ("a","b_c") share a prefix, and so do ("a b","c") and ("a_b","c") |
| StoreKeys.RecordBaseNoUnderscore | src/lib/data-store.ts:8-11 | none of the four record kinds contains `_` |
| StoreKeys.ScopedKeyInjective | src/lib/data-store.ts:8-11 | two record keys built from any prefixes and the four record bases are equal exactly when the prefixes and the bases are |
| StoreKeys.ScopedKeyNotActive | src/lib/data-store.ts:8-14 | no record key is the global active-user key |
| Json.Encode | src/lib/data-store.ts:81 | what `JSON.stringify` writes is never empty and starts with a character that begins a JSON value, never with white space |
| Json.Decode | src/lib/data-store.ts:62 | `JSON.parse` rejects blank text, the empty string included |
| JsonLaws.DecodeEncode | src/lib/data-store.ts:62-81 | parsing what `JSON.stringify` wrote gives back the value with every `Date` turned into its ISO string |
| JsonLaws.ParseEncoded | src/lib/data-store.ts:62-81 | the same round trip for a value followed by any text that does not start with a digit |
| JsonLaws.ParseIntText | src/lib/data-store.ts:81 | the decimal text of an integer parses back to that integer |
| JsonLaws.EscapeTextParses | src/lib/data-store.ts:81 | the escaped body of a string, followed by its closing quote, parses back to the string |
| JsonLaws.EscapeCharParses | src/lib/data-store.ts:81 | each escape `JSON.stringify` writes is read back as its character |
| JsonLaws.PlainTextQuoted | src/lib/data-store.ts:81 | a string with no quote, backslash or control character is written as itself between quotes |
| JsonLaws.EmptyTextRejected | src/lib/data-store.ts:58-72 | example: empty text is not JSON, so a read of it takes the error path |
| JsonLaws.UnclosedObjectRejected | src/lib/data-store.ts:58-72 | example: `{` alone is not JSON, so a read of it takes the error path |
| Revival.IsoDateExactly | src/lib/data-store.ts:63 | the date pattern accepts a text exactly when it is 24 characters long and is the `toISOString` text of the instant its own digit fields spell |
| Revival.IsoTextAccepted | src/lib/data-store.ts:63 | every text `toISOString` writes for a year from 0 to 9999 passes the date pattern |
| Revival.Revive | src/lib/data-store.ts:62-67 | revival changes nothing but representation: with every `Date` written back as its text, the revived value is the parsed one |
| Revival.ReviveItems | src/lib/data-store.ts:62-67 | reviving an array keeps its length and changes only the representation of its elements |
| Revival.ReviveField | src/lib/data-store.ts:62-67 | the reviver changes a value exactly when its key is `date` and it is a string matching the 24-character ISO pattern, and then makes it a `Date` of that text |
| Revival.ReviveMembers | src/lib/data-store.ts:62-67 | reviving an object keeps its keys in order and changes only the representation of its values |
| Revival.ReviveErase | src/lib/data-store.ts:62-81 | a canonical value, whose `Date`s sit under `date` keys with ISO text and whose other strings there are not ISO, comes back unchanged after a write and a read |
| Revival.ReviveCanon | src/lib/data-store.ts:62-67 | whatever the reviver produces from parsed JSON is canonical |
| Revival.EraseDateFree | src/lib/data-store.ts:81 | written text holds no `Date` |
| Revival.ReviveEraseExactly | src/lib/data-store.ts:62-81 | a value comes back unchanged after a write and a read if and only if it is canonical |
| Records.ExpenseCanon | src/lib/constants.ts:23-29 | an expense survives storage exactly when its date text has the ISO pattern |
| Records.BudgetCanon | src/lib/constants.ts:37-42 | a budget goal always survives storage |
| Records.UserInfoCanon | src/lib/data-store.ts:16-21 | a profile always survives storage |
| Records.ExpensesSurvive | src/lib/data-store.ts:87-100 | a saved expense list reads back as itself if and only if every date has the ISO pattern |
| Records.BudgetsSurvive | src/lib/data-store.ts:102-115 | a saved budget list always reads back as itself |
| Records.UserInfoSurvives | src/lib/data-store.ts:134-144 | a saved profile record reads back as itself |
| Records.ExpensesJsonInjective | src/lib/constants.ts:23-29 | two expense lists are stored as the same JSON exactly when they are equal |
| Records.BudgetsJsonInjective | src/lib/constants.ts:37-42 | two budget lists are stored as the same JSON exactly when they are equal |
| Records.UserInfoJson | src/lib/data-store.ts:16-21 | a profile record is an object with two members plus one for each optional field given |
| Records.UserInfoLookup | src/lib/data-store.ts:16-21 | each profile field is found under its own key, and only the fields given are present |
| Records.UserInfoFields | src/lib/data-store.ts:124-129 | name, e-mail, currency and income read back from a stored profile as saved |
| Records.BackFill | src/lib/data-store.ts:121-131 | a profile is answered exactly when the stored value is truthy; name and e-mail come from the record; currency is truthy and income is never `null` |
| Records.BackFillSaved | src/lib/data-store.ts:121-131 | a saved profile loads with its currency unless that is missing or empty (then `INR`) and its income unless missing (then 0, and a stored 0 stays 0) |
| Records.BackFillFalsy | src/lib/data-store.ts:122 | `null`, `false`, `0` and `""` load as no profile |
| Records.CurrencySymbol | src/lib/data-store.ts:165-175 | USD shows `$`, EUR `€`, GBP `£` and CAD `C$`; every other code, INR included, and an absent code show `₹` |
| Records.CurrencySymbolsDistinct | src/lib/data-store.ts:165-175 | the four non-default codes get four different symbols |
| DataStore.Browser.constructor | src/lib/data-store.ts:36 | a page starts with its memo not fetched and no events |
| DataStore.Browser.GetActiveUserPrefix | src/lib/data-store.ts:38-46 | no window answers `null`; otherwise the memo is filled from the active-user key once and answered from then on |
| DataStore.Browser.ResetMemoizedActiveUserPrefix | src/lib/data-store.ts:49-51 | the memo goes back to not fetched |
| DataStore.Browser.GetLocalStorageItem | src/lib/data-store.ts:54-74 | default without a window or item; the revived parse otherwise; corrupt text is removed and answers the default |
| DataStore.Browser.SetLocalStorageItem | src/lib/data-store.ts:76-85 | the JSON text of the value is stored, unless there is no window or the browser refuses the write |
| DataStore.Browser.LoadExpenses | src/lib/data-store.ts:87-91 | `[]` without a usable prefix, otherwise the stored list under the prefixed key |
| DataStore.Browser.SaveExpenses | src/lib/data-store.ts:93-100 | the list is written under the prefixed key, and nothing is written without a usable prefix |
| DataStore.Browser.LoadBudgets | src/lib/data-store.ts:102-106 | as for expenses, under the budgets key |
| DataStore.Browser.SaveBudgets | src/lib/data-store.ts:108-115 | as for expenses, under the budgets key |
| DataStore.Browser.LoadUserInfo | src/lib/data-store.ts:117-132 | `null` without a usable prefix, otherwise the stored record with its defaults filled in, or `null` when it is falsy |
| DataStore.Browser.SaveUserInfo | src/lib/data-store.ts:134-144 | the prefix goes through `JSON.stringify` into the active-user key, the record under the bare prefix, the memo is reset, and two events are sent |
| DataStore.Browser.SaveUserInfoBareId | src/lib/data-store.ts:134-144 | the same with the active-user id stored as the bare prefix |
| DataStore.Browser.HasActiveUserCompletedSetup | src/lib/data-store.ts:146-150 | `false` without a usable prefix, otherwise the stored flag |
| DataStore.Browser.MarkSetupAsComplete | src/lib/data-store.ts:152-163 | `true` is written under the setup key and one event is sent, all only with a usable prefix |
| DataStore.Browser.ClearAllUserData | src/lib/data-store.ts:177-194 | the prefix's four records and the active-user id are removed, the memo is reset, one event is sent; nothing happens without a window |
| DataStore.Browser.ReinitializeActiveUserPrefix | src/lib/data-store.ts:197-200 | the memo holds what the active-user key holds now |
| DataStoreLaws.MemoIgnoresStorage | src/lib/data-store.ts:42-45 | once fetched, the prefix ignores later changes to the active-user key |
| DataStoreLaws.NoWindowNoPrefix | src/lib/data-store.ts:39-41 | without a window there is no prefix and the memo is untouched |
| DataStoreLaws.ReadAfterWrite | src/lib/data-store.ts:54-85 | a value written under a key reads back as the revived parse of its text, and the read removes nothing |
| DataStoreLaws.WriteFrame | src/lib/data-store.ts:76-85 | a write changes no other key |
| DataStoreLaws.ReadDefault | src/lib/data-store.ts:54-74 | only parseable text answers something other than the default; a read changes storage exactly when the item is corrupt, and never another key |
| DataStoreLaws.ReadTwice | src/lib/data-store.ts:54-74 | a second read answers the same as the first and changes nothing more |
| DataStoreLaws.ScopedReadAfterWrite | src/lib/data-store.ts:87-115 | a save then a load of one record kind, with a usable prefix, answers the revived saved value |
| DataStoreLaws.ExpensesReadBack | src/lib/data-store.ts:87-100 | saved expenses load back as the same list exactly when every date has the ISO pattern |
| DataStoreLaws.BudgetsReadBack | src/lib/data-store.ts:102-115 | saved budgets always load back as the same list |
| DataStoreLaws.NoPrefixNoEffect | src/lib/data-store.ts:87-115 | with no usable prefix loads answer the default and neither loads nor saves touch storage |
| DataStoreLaws.ScopedWriteFrame | src/lib/data-store.ts:93-115 | saving one record kind of one profile leaves every other record of every profile as it was |
| DataStoreLaws.MarkSetupIdempotent | src/lib/data-store.ts:152-163 | marking setup complete twice stores the same as once |
| DataStoreLaws.ActiveIdText | src/lib/data-store.ts:138 | the active-user id text written is the prefix in double quotes |
| DataStoreLaws.QuotedPrefixMissesRecord | src/lib/data-store.ts:137-139 | the keys named by the quoted prefix differ from the key the profile record went under |
| DataStoreScenarios.KeysApart | src/lib/data-store.ts:137-158 | the active-user key and the record keys of the bare and the quoted prefix are pairwise distinct |
| DataStoreScenarios.FlagReadsBack | src/lib/data-store.ts:146-158 | a written setup flag reads back as `true` |
| DataStoreScenarios.SameItemSameRead | src/lib/data-store.ts:54-74 | a read depends only on the item under its key |
| DataStoreScenarios.DialogProfileReadsBack | src/components/features/onboarding/user-setup-modal.tsx:52-58 | a profile saved by the setup dialog, with only name and e-mail, loads with currency `INR` and income 0 |
| DataStoreScenarios.FirstRun | src/components/features/onboarding/user-setup-modal.tsx:52-58 | on a fresh browser, setup is first incomplete, reads as complete after the dialog and a reload, yet the profile then loads as `null` |
| DataStoreScenarios.FirstRunBareId | src/components/features/onboarding/user-setup-modal.tsx:52-58 | with the active-user id stored bare, the same run finds the profile with default currency and income |
| DataStoreScenarios.ClearAfterFirstRun | src/lib/data-store.ts:177-194 | clearing after that first run leaves no active-user id and no prefix and removes the flag under the quoted prefix, but leaves the profile record under the bare prefix |
| DataStoreScenarios.ExpensesRoundTrip | src/lib/data-store.ts:87-100 | expenses with ISO dates saved under a prefix load back as the same list |
| DataStoreScenarios.StaleMemo | src/lib/data-store.ts:42-45 | after another tab changes the active-user id, a save still goes to the prefix fetched first and the other tab's active-user id stays |
| DataStoreScenarios.CorruptRecord | src/lib/data-store.ts:69-72 | a stored expense list that is not JSON loads as `[]` and is removed |
| DataStoreScenarios.NoProfile | src/lib/data-store.ts:87-163 | with no active-user id, loads answer their defaults and saves and marking write nothing |
| DataStoreScenarios.RefusedWrite | src/lib/data-store.ts:82-84 | when the browser refuses writes, a save leaves storage as it was |
| DataStoreScenarios.MarkTwice | src/lib/data-store.ts:152-163 | marking twice stores the same as once and sends the same event twice |
| DataStoreScenarios.ServerSide | src/lib/data-store.ts:39-41 | without a window there is no prefix, storage is untouched and no event is sent |
| CategoryTotals.Categories | src/components/features/analytics/spending-bar-chart.tsx:14-22 | there are never more categories than expenses |
| CategoryTotals.GroupSum | src/components/features/analytics/spending-bar-chart.tsx:14-22 | one entry per listed category, in list order |
| CategoryTotals.FirstAt | src/components/features/analytics/spending-bar-chart.tsx:15 | the first expense of a category is of that category, and no earlier one is |
| CategoryTotals.CategoriesDistinct | src/components/features/analytics/spending-bar-chart.tsx:14-22 | no category is listed twice |
| CategoryTotals.CategoriesExactly | src/components/features/analytics/spending-bar-chart.tsx:14-22 | a category is listed if and only if some expense has it |
| CategoryTotals.CategoriesInFirstAppearanceOrder | src/components/features/analytics/spending-bar-chart.tsx:15-20 | categories are listed in the order of their first expense |
| CategoryTotals.GroupSumEmpty | src/components/features/analytics/spending-bar-chart.tsx:31-43 | there are no entries exactly when there are no expenses, and never more entries than expenses |
| CategoryTotals.AmountForAbsent | src/components/features/analytics/spending-bar-chart.tsx:16-19 | a category no expense has sums to 0 |
| CategoryTotals.GroupSumStepFound | src/components/features/analytics/spending-bar-chart.tsx:16-17 | an expense of a listed category adds its amount to that entry only |
| CategoryTotals.GroupSumStepNew | src/components/features/analytics/spending-bar-chart.tsx:18-19 | an expense of a new category appends an entry holding its amount |
| CategoryTotals.GroupSumConserves | src/components/features/analytics/spending-bar-chart.tsx:14-22 | the totals add up to the sum of all amounts |
| SpendingBarChart.FindCategory | src/components/features/analytics/spending-bar-chart.tsx:15 | the first entry of that category, or none when no entry has it |
| SpendingBarChart.SpendingBarChart | src/components/features/analytics/spending-bar-chart.tsx:14-43 | the fold equals the reference group-by sum, and the placeholder shows exactly when there are no expenses |
| SpendingPieChart.ColorAt | src/components/features/analytics/spending-pie-chart.tsx:41 | a positional colour is one of the eight palette colours |
| SpendingPieChart.FindSlice | src/components/features/analytics/spending-pie-chart.tsx:29 | the first slice of that name, or none when no slice has it |
| SpendingPieChart.DataByCategory | src/components/features/analytics/spending-pie-chart.tsx:28-36 | the slices are the reference group-by sums, one for one, as name and value |
| SpendingPieChart.PlaceholderExactly | src/components/features/analytics/spending-pie-chart.tsx:46-58 | the pie chart shows its placeholder exactly when there are no expenses |
| SpendingPieChart.ChartConfig | src/components/features/analytics/spending-pie-chart.tsx:38-44 | the colour table has exactly one entry per category name, and category i gets its own name and palette colour i mod 8 |
| SpendingPieChart.CellFill | src/components/features/analytics/spending-pie-chart.tsx:81-83 | every slice gets a non-empty fill: its category's own table colour or one of the eight palette colours |
| SpendingPieChart.CellFillColours | src/components/features/analytics/spending-pie-chart.tsx:81-83 | a slice of a listed category is filled with its table colour; any other slice gets the colour of its own position |
| SpendingPieChart.PaletteDistinct | src/components/features/analytics/spending-pie-chart.tsx:15-24 | the eight palette colours are distinct |
| SpendingPieChart.SharedColours | src/components/features/analytics/spending-pie-chart.tsx:38-44 | two categories share a colour exactly when they are Food and Gifts or Transport and Other |
| BudgetProgressCard.Progress | src/components/features/budgets/budget-progress-card.tsx:12 | 0 when the goal is not positive; otherwise spent is that percentage of the goal |
| BudgetProgressCard.Remaining | src/components/features/budgets/budget-progress-card.tsx:13 | what remains is non-negative exactly when spending has not passed the goal, and it and the spending make up the goal |
| BudgetProgressCard.Destructive | src/components/features/budgets/budget-progress-card.tsx:23-32 | the destructive style shows only for a positive goal that spending has exceeded |
| BudgetProgressCard.RemainingNote | src/components/features/budgets/budget-progress-card.tsx:13-34 | "remaining" exactly when spending has not passed the goal; the amount shown is the distance to the goal |
| BudgetProgressCard.DestructiveIffOverspent | src/components/features/budgets/budget-progress-card.tsx:23-32 | with a positive goal, the destructive style shows exactly when more than the goal was spent |
| BudgetProgressCard.DestructiveIffOverBudgetNote | src/components/features/budgets/budget-progress-card.tsx:23-34 | with a positive goal, the destructive style and the over-budget line go together |
| BudgetProgressCard.NonPositiveGoalNeverDestructive | src/components/features/budgets/budget-progress-card.tsx:12-34 | with a goal of 0 or less, spending above it reads "over budget" while progress stays 0 and is never destructive |
| AppSidebar.IsActive | src/components/layout/app-sidebar.tsx:42 | an entry is highlighted exactly when its path is a prefix of the current path and, for the root entry, the current path is the root |
| AppSidebar.RootActiveOnlyAtRoot | src/components/layout/app-sidebar.tsx:42 | the Dashboard entry is highlighted only on `/` |
| AppSidebar.ActiveAtOwnPath | src/components/layout/app-sidebar.tsx:16-42 | every entry is highlighted on its own path |
| AppSidebar.ActiveWithoutBoundary | src/components/layout/app-sidebar.tsx:42 | a non-root entry is highlighted on every extension of its path, `/budgetsX` included |
| AppSidebar.AtMostOneActive | src/components/layout/app-sidebar.tsx:16-42 | no path highlights two of the five entries |

## Left out

- Floating point: amounts are integer cents, so the IEEE-754 rounding of the sums in the charts and of `toFixed(2)` is not modelled. The progress percentage is exact over the reals, and its `toFixed(0)` display is not modelled.
- JSON numbers are integers: fractions and exponents are not written or parsed, so a stored text using them reads as corrupt in the model.
- Every `\u` escape in the surrogate range D800–DFFF, paired or lone, reads as corrupt in the model, because a Dafny `char` cannot hold a lone surrogate. JSON.parse accepts a lone surrogate escape, and JSON.stringify writes one for a string holding a lone surrogate. The model deletes such a stored item as corrupt, where the browser would load it. `toLowerCase` is modelled for ASCII and for the two non-ASCII characters whose lower case is ASCII (U+212A and U+0130). Every other non-ASCII character is assumed to be replaced.
- `Date` objects are their ISO-8601 text. Calendar validity of that text and years beyond 9999 are not modelled.
- Revival.IsoText: writes `toISOString`'s text from the calendar fields of an instant. The conversion from a time value to those fields is not modelled, nor the signed six-digit years `toISOString` writes outside 0–9999.
- `window.dispatchEvent` is a list of event keys. The listeners in other tabs and in `src/hooks/use-currency.ts` are not part of this model; that listener filters on the unprefixed key `fiscalCompassUserInfo`, which the prefixed writes never use.
- `console.warn` logging is not modelled. `localStorage.setItem` throwing is a fixed flag of the browser (`acceptsWrites`), and `getItem` and `removeItem` never throw.
- Rendering (cards, icons, tooltips, the chart library) is not modelled; only the values the components compute are. The bar chart's single series style is a constant.
- The charts' `reduce` mutates the accumulator's objects in place. The model updates a sequence of values instead: the objects are never shared, so nothing is lost.
- DataStore.Browser.HasActiveUserCompletedSetup: answers the stored JSON value rather than a boolean, because the source returns whatever was stored and its caller tests truthiness.

## Findings

| source | as written | input that shows it | evidently intended | confidence | as-written member | corrected member |
|---|---|---|---|---|---|---|
| src/lib/data-store.ts:138 | `saveUserInfo` stores the active-user id through `setLocalStorageItem`, so as JSON text in quotes, while `getActiveUserPrefix` (line 43) reads it raw; the prefix read back is `"user_x_y"` with its quotes, so records are looked up under keys the profile was never saved under | a fresh browser, the setup dialog with name `x` and e-mail `y`, then a reload: setup reads as complete, but `loadUserInfo` answers `null` | the active-user id is stored as the bare prefix, so the reloaded page finds the saved profile | not executed | DataStoreScenarios.FirstRun | DataStoreScenarios.FirstRunBareId |
