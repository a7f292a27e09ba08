# Wallet ledger and its input rules, in Dafny

This project models the core of a personal spending tracker. The tracker keeps
a settings record and a list of income and expense transactions, and it keeps
a running balance. Its pages turn keypad presses, text fields and query
parameters into calls on that store. The model covers these parts:

- **The ledger store** (`WalletContext`, `wallet_context.dfy`). The class
  `Ledger` has a `settings` field and a `seq<Transaction>` field. It has four
  operations, `AddTransaction`, `UpdateSettings`, `EditTransaction` and
  `ResetData`. Each operation is proved equal to a pure function on a
  `Wallet` value (`Added`, `SettingsUpdated`, `Edited`, `Reset`). The lemmas
  are stated about those functions: the balance after any sequence of adds,
  idempotence, no-ops, and which fields are preserved. They also show that an
  amount edit makes the running balance drift.
- **The amount keypad** (`TransactionInput`, `transaction_input.dfy`). The
  class `AmountEntry` holds the digit string `amountStr` and the `showResult`
  flag. Its three handlers are proved against `Pressed`, `Deleted` and
  `ConfirmDraft`. A lemma shows that every sequence of presses keeps the
  string at one to ten digits.
- **The settings page** (`SettingsPage`, `settings_page.dfy`). It covers the
  rounded daily cost of a subscription, the handlers that parse and then
  update, the payday selector and the add-subscription guard.
- **The expense confirmation page** (`AddPage`, `add_page.dfy`). It covers
  the one-shot `saved` flag, the negated amount, the fallback memo and the
  cost in minutes of work.
- **JavaScript number rules** (`JsNumbers`, `js_numbers.dfy`). `parseInt`
  follows section 19.2.5 of ECMA-262: leading white space, an optional sign,
  and a `0x` prefix when no radix is given. It then reads the longest run of
  digits and gives NaN when that run is empty. The module also has integer
  `toString`, comma removal, and `Math.round(p / q)` written as
  `(2p + q) / (2q)`.
- The shared record types are in `WalletTypes` (`types.dfy`).

Clocks and random ids are method parameters: `now` stands for
`new Date().toISOString()` and `id` for `crypto.randomUUID()`. The query
parameters are `Option<string>` values, and `None` means the parameter is
absent.

Details of the source that the model keeps as written:

- `addTransaction` adds the stored signed `amount` to `currentBalance`. It
  does not branch on `type`.
- The store has no delete operation and no subscription list.
- `defaultSettings` reads its timestamps once, when the module loads. So
  `resetData` restores those load-time timestamps (`Ledger.loadTime`), not
  the current time.
- The default currency literal in the source is the two characters `Â¥`. This
  is evidently a mis-encoded `¥`. It is modelled as written.
- `payday` is not declared in the settings type, but the settings page stores
  it through the same spread. So `Settings` has `payday: Option<int>`.

## Model

| member | source | states |
|---|---|---|
| `WalletContext.Added` | src/context/WalletContext.tsx:38-55 | The new transaction is first and carries the draft's amount, type, memo and rating with the given id and time. The old entries follow in order. The balance and the sum of amounts both move by the draft's signed amount. No setting other than `currentBalance` and `updatedAt` changes. A consistent store stays consistent. |
| `WalletContext.AddedAllBalance` | src/context/WalletContext.tsx:45-54 | After any sequence of adds, the balance is the start balance plus the sum of the added amounts. The list grows by one per call and keeps the old list as its suffix. The other settings are unchanged and consistency is preserved. |
| `WalletContext.AddedKeepsIdsUnique` | src/context/WalletContext.tsx:38-45 | Adding under an id that is not in the list keeps all ids distinct. |
| `WalletContext.Merged` | src/context/WalletContext.tsx:57-63 | Every field the patch supplies is overwritten. Every other field is kept. `updatedAt` is always stamped. |
| `WalletContext.SettingsUpdated` | src/context/WalletContext.tsx:57-63 | `updateSettings` leaves the transaction list untouched. |
| `WalletContext.MergedIdempotent` | src/context/WalletContext.tsx:57-63 | Applying the same patch twice gives the same settings as applying it once. |
| `WalletContext.MergedEmpty` | src/context/WalletContext.tsx:57-63 | An empty patch changes only `updatedAt`. |
| `WalletContext.Applied` | src/context/WalletContext.tsx:65-69 | A supplied amount, type, memo or rating replaces the old value, and an absent one is kept. The `id` and `createdAt` are always kept, because updates exclude both. An empty update is the identity. |
| `WalletContext.EditedList` | src/context/WalletContext.tsx:65-69 | The length is kept. Entries with another id are unchanged. Matching entries get the update merged in. Every entry keeps its id and creation time. |
| `WalletContext.Edited` | src/context/WalletContext.tsx:65-69 | `editTransaction` never changes the settings, including `currentBalance`. |
| `WalletContext.EditedListNoMatch` | src/context/WalletContext.tsx:65-69 | When no entry has the id, the edit is a no-op. |
| `WalletContext.EditedListIdempotent` | src/context/WalletContext.tsx:65-69 | Applying the same edit twice gives the same list as applying it once. |
| `WalletContext.EditedListKeepsIds` | src/context/WalletContext.tsx:65-69 | The set of ids is unchanged by an edit. |
| `WalletContext.EditedListKeepsSum` | src/context/WalletContext.tsx:65-69 | An edit that does not touch `amount` keeps the sum of amounts. |
| `WalletContext.EditWithoutAmountKeepsConsistency` | src/context/WalletContext.tsx:65-69 | An edit of memo, type or rating keeps the balance consistent with the list. |
| `WalletContext.AmountEditBreaksConsistency` | src/context/WalletContext.tsx:65-69 | Editing a 500 expense to 800 leaves the balance at 99500. A consistent store becomes inconsistent. |
| `WalletContext.EditedListSumDelta` | src/context/WalletContext.tsx:65-69 | With unique ids, an edit that sets an amount moves the sum of amounts by exactly the change in the matching entry. |
| `WalletContext.AmountEditDrifts` | src/context/WalletContext.tsx:65-69 | In any consistent store with unique ids, an edit that changes an entry's amount leaves `currentBalance` where it was. The sum moves by the change, so the store is no longer consistent. |
| `WalletContext.Reset` | src/context/WalletContext.tsx:17-24 | After a reset, both balances are 100000, the wage is 2000, no payday is set and the currency is the default one. Both timestamps are the load-time reading. The list is empty and the result is consistent. |
| `WalletContext.Ledger.constructor` | src/context/WalletContext.tsx:30-31 | The store starts from the stored settings and list, or from the defaults and an empty list when nothing is stored. |
| `WalletContext.Ledger.AddTransaction` | src/context/WalletContext.tsx:38-55 | The new state is `Added` of the old state. Ids stay unique when the new id is fresh. |
| `WalletContext.Ledger.UpdateSettings` | src/context/WalletContext.tsx:57-63 | The new state is `SettingsUpdated` of the old state. |
| `WalletContext.Ledger.EditTransaction` | src/context/WalletContext.tsx:65-69 | The new state is `Edited` of the old state. The set of ids is unchanged. |
| `WalletContext.Ledger.ResetData` | src/context/WalletContext.tsx:71-74 | The new state is the default settings with an empty list, whatever came before. So resetting twice is the same as resetting once. |
| `TransactionInput.PageType` | src/app/page.tsx:14 | The type is income exactly when the query says `income`. When the parameter is missing or empty, the type is expense. |
| `TransactionInput.KeypadKeyDigits` | src/components/Keypad.tsx:13 | Every keypad key is one or two decimal digits. |
| `TransactionInput.PressOnZero` | src/app/page.tsx:22-30 | On `0`, every key except `00` replaces the text. So `0` keeps `0`, and `00` gives `000`. |
| `TransactionInput.PressLength` | src/app/page.tsx:26-28 | A press appends only while the length is below 9. The length never exceeds 10. |
| `TransactionInput.PressKeepsWellFormed` | src/app/page.tsx:22-38 | One key press or one delete keeps the text non-empty, all digits and at most 10 long. |
| `TransactionInput.RunKeepsWellFormed` | src/app/page.tsx:18-38 | Every sequence of presses from `0` keeps the text at one to ten digits. |
| `TransactionInput.TenDigitsReachable` | src/app/page.tsx:22-30 | Ten digits can be reached: eight ones, then `00`. |
| `TransactionInput.DeleteShortens` | src/app/page.tsx:32-38 | Delete on one character gives `0`. Otherwise it drops exactly the last character. |
| `TransactionInput.EnteredAmountParses` | src/app/page.tsx:41-42 | `parseInt` reads a well-formed entry as its decimal value. The confirm button is disabled exactly when that value is 0. |
| `TransactionInput.ConfirmDraft` | src/app/page.tsx:40-61 | Confirm is refused exactly when the button is disabled. Otherwise the amount is the entered value, negated for an expense. It is never 0, its sign matches the type, and the memo is empty. |
| `TransactionInput.ConfirmMovesBalance` | src/app/page.tsx:44-58 | An expense confirm lowers the store's balance by the entered value. An income confirm raises it by that value. |
| `TransactionInput.AmountEntry.constructor` | src/app/page.tsx:14-19 | The page starts with `0`, no result shown, and the type taken from the query. |
| `TransactionInput.AmountEntry.HandleInput` | src/app/page.tsx:22-30 | The new text is `Pressed` of the old text. The text stays well formed. |
| `TransactionInput.AmountEntry.HandleDelete` | src/app/page.tsx:32-38 | The new text is `Deleted` of the old text. The text stays well formed. |
| `TransactionInput.AmountEntry.HandleConfirm` | src/app/page.tsx:40-61 | When the amount is not positive, nothing changes. Otherwise exactly `Added` is applied to the store with the signed draft, and the result is shown. |
| `JsNumbers.ParseIntToString` | src/app/settings/page.tsx:14-21 | `parseInt` reads back every integer's `toString`, with radix 10 and with no radix. |
| `JsNumbers.ParseDecimalString` | src/app/page.tsx:41 | A non-empty digit string parses to its decimal value. |
| `JsNumbers.ParseHexPrefixed` | src/app/add/page.tsx:14 | With no radix or radix 16, `0x` followed by hex digits parses to their hexadecimal value. |
| `JsNumbers.ParseIntNaN` | src/app/settings/page.tsx:30-31 | With radix 10, the result is NaN exactly when no decimal digit follows the white space and the sign. |
| `JsNumbers.RemoveCommasSpec` | src/app/settings/page.tsx:30 | No comma survives the removal. Text without commas comes back unchanged. |
| `JsNumbers.RemoveCommasKeepsOthers` | src/app/settings/page.tsx:30 | Every character other than a comma keeps its count. |
| `JsNumbers.RemoveCommasConcat` | src/app/settings/page.tsx:42 | Removing commas from two pieces and joining them gives the same result as removing them from the whole. |
| `JsNumbers.RoundQuotient` | src/app/settings/page.tsx:79 | The result is the integer nearest to `p / q`, with halves rounded up. |
| `JsNumbers.RoundQuotientMonotone` | src/app/settings/page.tsx:81 | For a positive divisor, rounding the quotient keeps the order of the numerators. |
| `SettingsPage.DailyCost` | src/app/settings/page.tsx:77-82 | A monthly amount costs `12·amount/365` per day and a yearly amount `amount/365`, each rounded to the nearest integer with halves up. |
| `SettingsPage.DailyCostMonotone` | src/app/settings/page.tsx:77-82 | The daily cost never decreases as the amount grows. |
| `SettingsPage.YearlyAtMostMonthly` | src/app/settings/page.tsx:77-82 | For a non-negative amount, the yearly daily cost is at most the monthly one. |
| `SettingsPage.DailyCostExamples` | src/app/settings/page.tsx:77-82 | Monthly 1000 costs 33 per day, yearly 1000 costs 3, and yearly 365 costs 1. |
| `SettingsPage.InitialBalanceUpdate` | src/app/settings/page.tsx:28-37 | A parseable input sets `initialBalance` and `currentBalance` to the same number. Nothing else changes except `updatedAt`, and the list is untouched. |
| `SettingsPage.HourlyWageUpdate` | src/app/settings/page.tsx:40-46 | A parseable input changes only `hourlyWage` and `updatedAt`. |
| `SettingsPage.GroupedBalance` | src/app/settings/page.tsx:28-46 | A comma anywhere in the text changes neither the balance patch nor the wage patch, so `1,000` means 1000. |
| `SettingsPage.RenderedInputReparses` | src/app/settings/page.tsx:14-46 | The text an input is synced to parses back to the number it shows. Editing nothing therefore writes back the same balance or wage. |
| `SettingsPage.PaydayOptionsAre` | src/app/settings/page.tsx:137-140 | The options are exactly the days 1 to 28 and 99. |
| `SettingsPage.PaydayOptionSelected` | src/app/settings/page.tsx:48-53 | Choosing an option stores exactly that payday, and the selector then shows it. |
| `SettingsPage.DisplayedPaydayDefault` | src/app/settings/page.tsx:133 | With no payday stored, or 0, the selector shows 25. |
| `SettingsPage.SubscriptionToAdd` | src/app/settings/page.tsx:62-71 | A subscription is accepted exactly when the name and the amount are non-empty and the amount parses. It then carries the parsed amount. |
| `SettingsPage.SettingsForm.constructor` | src/app/settings/page.tsx:14-26 | The inputs start as the rendered numbers. The subscription form starts empty and monthly. |
| `SettingsPage.SettingsForm.SyncFromSettings` | src/app/settings/page.tsx:18-21 | The two inputs are re-rendered from the settings. Nothing else changes. |
| `SettingsPage.SettingsForm.HandleInitialBalanceChange` | src/app/settings/page.tsx:28-38 | The input always takes the text. On NaN the store is unchanged. Otherwise the store is updated with both balances. |
| `SettingsPage.SettingsForm.HandleHourlyWageChange` | src/app/settings/page.tsx:40-46 | The input always takes the text. On NaN the store is unchanged. Otherwise only the wage is updated. |
| `SettingsPage.SettingsForm.HandlePaydayChange` | src/app/settings/page.tsx:48-53 | On NaN the store is unchanged. Otherwise only the payday is updated. |
| `SettingsPage.SettingsForm.HandleReset` | src/app/settings/page.tsx:55-60 | A confirmed reset gives the reset store. A refused one changes nothing. |
| `SettingsPage.SettingsForm.HandleAddSubscription` | src/app/settings/page.tsx:62-75 | A rejected draft changes nothing. Assuming the store's `addSubscription` exists and returns, an accepted draft is handed over and the name and amount fields are cleared. |
| `AddPage.EffectiveWage` | src/app/add/page.tsx:20 | The wage used for the minute cost is never 0. |
| `AddPage.MinutesCost` | src/app/add/page.tsx:21 | The result is `60·amount/wage` rounded to the nearest integer with halves up, where the wage falls back to 1000 when it is 0. |
| `AddPage.MinutesCostExamples` | src/app/add/page.tsx:20-21 | 1000 at a wage of 2000 costs 30 minutes. 500 with no wage set costs 30 minutes. |
| `AddPage.SavedDraft` | src/app/add/page.tsx:34-38 | The stored amount is the query amount negated. The type is always expense. The memo is never empty. It is the query memo when one is given, and the fallback `支出` otherwise. |
| `AddPage.TapsAfterSaveChangeNothing` | src/app/add/page.tsx:30-33 | Once `saved` is set, further taps change nothing. |
| `AddPage.AtMostOneSave` | src/app/add/page.tsx:30-41 | Any number of taps adds exactly one transaction, the first tap's. |
| `AddPage.SaveLowersBalance` | src/app/add/page.tsx:34-38 | Saving lowers the balance by the query amount. |
| `AddPage.MissingAmountNotRendered` | src/app/add/page.tsx:43 | A missing amount reads as 0, so the page renders nothing and cannot save. |
| `AddPage.HexadecimalAmount` | src/app/add/page.tsx:14 | Without a radix, an amount `0x` followed by hex digits reads as their hexadecimal value. |
| `AddPage.NegativeQueryAmount` | src/app/add/page.tsx:14 | A negative amount `-n`, as `toString` writes it, is present and reads back as `-n` when no radix is given. |
| `AddPage.NegativeAmountRaisesBalance` | src/app/add/page.tsx:14-38 | Any negative amount `-n` reads as `-n` and passes the guard. It is stored as an expense of `+n`, which raises the balance by `n`. |
| `AddPage.ExpenseConfirmation.constructor` | src/app/add/page.tsx:13-17 | The amount and memo come from the query with their fallbacks, and the page starts unsaved. |
| `AddPage.ExpenseConfirmation.HandleExpenseSave` | src/app/add/page.tsx:30-41 | The new flag and store are one `Tapped` step from the old ones: a save only if not yet saved. |

## Left out

- Persistence through `useLocalStorage`. That hook is not part of this model. The store's constructor takes whatever was stored, and the writes back are not modelled.
- The `isLoading` flag and the effect that clears it. These only concern rendering.
- `crypto.randomUUID()` and the clock. They are parameters. `addTransaction` reads the clock twice, once for `createdAt` and once for `updatedAt`. The model uses one reading for both.
- React batching and stale closures. Calls are modelled as strictly sequential.
- Floating-point display helpers: the hours and minutes shown after a keypad confirm (`timeConsumed`) and the transaction list's time equivalent.
- Routing: the `router.push` calls, and the add page's redirect when `type` or `amount` is falsy. The redirect is modelled only as the condition under which the page renders and can be tapped.
- Rendering and markup: the keypad layout, the lists, the modals and the history page. The home page is not part of this model.
- The store operations `addSubscription` and `removeSubscription`, and any subscription accrual or pay-cycle logic. None of these is defined in the modelled source. The settings page takes `subscriptions` and `addSubscription` from the store, but the store's provider value (src/context/WalletContext.tsx:78-86) has neither. As written, the page would throw on its first render at `subscriptions.map`, and `addSubscription(...)` would throw before the fields are cleared.
- SettingsPage.SettingsForm.HandleAddSubscription: assumes a store that provides `addSubscription` and whose call returns normally. Under that assumption, the form records each draft it hands over in `submitted` and then clears the name and amount fields.
- JsNumbers.ParseInt: results are exact integers. A Number above 2^53 would lose precision, and `parseInt("-0")` gives -0. The model gives 0, which every caller treats alike. A radix outside 2 to 36 gives NaN, as the standard says. Conversion of a non-integer radix is not modelled.
- JsNumbers.IntToString: writes decimal digits only. JavaScript's `toString` switches to exponent form from 1e21 (`1e+21`), which `parseInt` would read back as 1. So `ParseIntToString` and `RenderedInputReparses` hold in the source only below 1e21.
- TransactionInput.PageType and TransactionInput.AmountEntry.constructor: both require a present, non-empty `type` parameter to be `income` or `expense`. The source casts the parameter to those two names, and any other value would be stored as a type the record does not allow.
- AddPage.MinutesCost: the source computes `(amount / wage) * 60` in floating point. When `60·amount/wage` is exactly a half-integer, the product can land just below the half and round down. The model always rounds halves up. The daily cost has no such ties: `24·amount` is never an odd multiple of 365.
- A browser's sanitising of `<input type="number">` text is not modelled. The handlers are specified for every string.
