/** The settings page: text inputs parsed into settings updates, the payday
    selector, the subscription form's guard, and the daily cost shown for
    each subscription. */
module SettingsPage {
  import opened WalletTypes
  import opened JsNumbers
  import opened WalletContext

  /** A subscription's billing period; anything but monthly is priced yearly. */
  datatype Period = Monthly | Yearly

  /** What the page hands to `addSubscription`. */
  datatype SubscriptionDraft = SubscriptionDraft(name: string, amount: int, period: Period)

  /** `calculateDailyCost`: a monthly amount over 12/365 of it, a yearly one
      over 1/365, each rounded to the nearest integer with halves up. */
  function DailyCost(amount: int, period: Period): (r: int)
    ensures period == Monthly ==> 730 * r - 365 <= 24 * amount < 730 * r + 365
    ensures period == Yearly ==> 730 * r - 365 <= 2 * amount < 730 * r + 365
  {
    if period == Monthly then RoundQuotient(amount * 12, 365)
    else RoundQuotient(amount, 365)
  }

  /** The patch `handleInitialBalanceChange(val)` applies: the starting and
      the running balance both set to the number, commas removed first;
      nothing when that is NaN. */
  function InitialBalancePatch(val: string): Option<SettingsPatch> {
    match ParseInt(RemoveCommas(val), 10)
    case NaN => None
    case Int(n) => Some(EmptyPatch.(initialBalance := Some(n), currentBalance := Some(n)))
  }

  /** The patch `handleHourlyWageChange(val)` applies. */
  function HourlyWagePatch(val: string): Option<SettingsPatch> {
    match ParseInt(RemoveCommas(val), 10)
    case NaN => None
    case Int(n) => Some(EmptyPatch.(hourlyWage := Some(n)))
  }

  /** The patch `handlePaydayChange(val)` applies; commas are not removed here. */
  function PaydayPatch(val: string): Option<SettingsPatch> {
    match ParseInt(val, 10)
    case NaN => None
    case Int(n) => Some(EmptyPatch.(payday := Some(n)))
  }

  /** The payday selector's option values, in order: days 1 to 28, then 99
      for the last day of the month. */
  const PaydayOptions: seq<int> := seq(28, i => i + 1) + [99]

  /** `settings.payday || 25`: the payday the selector shows. */
  function DisplayedPayday(payday: Option<int>): int {
    if payday.None? || payday.value == 0 then 25 else payday.value
  }

  /** `handleAddSubscription`'s guard: a name and an amount must both be
      entered, and the amount must parse. */
  function SubscriptionToAdd(name: string, amount: string, period: Period): (r: Option<SubscriptionDraft>)
    ensures r.Some? <==> name != "" && amount != "" && ParseInt(amount, 10).Int?
    ensures r.Some? ==> r.value == SubscriptionDraft(name, ParseInt(amount, 10).value, period)
  {
    if name == "" || amount == "" then None
    else
      match ParseInt(amount, 10)
      case NaN => None
      case Int(n) => Some(SubscriptionDraft(name, n, period))
  }

  // ---------------------------------------------------------------------
  // Properties

  /** More money never costs less per day. */
  lemma DailyCostMonotone(a: int, b: int, period: Period)
    requires a <= b
    ensures DailyCost(a, period) <= DailyCost(b, period)
  {
    if period == Monthly {
      RoundQuotientMonotone(a * 12, b * 12, 365);
    } else {
      RoundQuotientMonotone(a, b, 365);
    }
  }

  /** Billed yearly, an amount costs no more per day than billed monthly. */
  lemma YearlyAtMostMonthly(amount: int)
    requires amount >= 0
    ensures DailyCost(amount, Yearly) <= DailyCost(amount, Monthly)
  {
    RoundQuotientMonotone(amount, amount * 12, 365);
  }

  lemma DailyCostExamples()
    ensures DailyCost(1000, Monthly) == 33
    ensures DailyCost(1000, Yearly) == 3
    ensures DailyCost(365, Yearly) == 1
  {
  }

  /** A parseable initial balance sets the starting and the running balance
      to the same number and changes nothing else but `updatedAt`. */
  lemma InitialBalanceUpdate(w: Wallet, val: string, now: string)
    requires InitialBalancePatch(val).Some?
    ensures var n := ParseInt(RemoveCommas(val), 10).value;
            var r := SettingsUpdated(w, InitialBalancePatch(val).value, now);
            r.settings.initialBalance == n && r.settings.currentBalance == n &&
            r.settings == w.settings.(initialBalance := n, currentBalance := n, updatedAt := now) &&
            r.transactions == w.transactions
  {
  }

  /** A parseable wage changes `hourlyWage` alone (and `updatedAt`). */
  lemma HourlyWageUpdate(w: Wallet, val: string, now: string)
    requires HourlyWagePatch(val).Some?
    ensures var r := SettingsUpdated(w, HourlyWagePatch(val).value, now);
            r.settings == w.settings.(hourlyWage := ParseInt(RemoveCommas(val), 10).value, updatedAt := now) &&
            r.transactions == w.transactions
  {
  }

  /** Thousands separators are ignored: a comma anywhere in the text
      changes neither the balance nor the wage it sets. */
  lemma GroupedBalance(a: string, b: string)
    ensures InitialBalancePatch(a + [','] + b) == InitialBalancePatch(a + b)
    ensures HourlyWagePatch(a + [','] + b) == HourlyWagePatch(a + b)
  {
    assert RemoveCommas(a + [','] + b) == RemoveCommas(a + b) by {
      RemoveCommasConcat(a + [','], b);
      RemoveCommasConcat(a, [',']);
      RemoveCommasConcat(a, b);
      assert RemoveCommas([',']) == [];
    }
  }

  /** The text an input is synced to parses back to the number it shows,
      so the sync never moves a balance or the wage. */
  lemma RenderedInputReparses(n: int)
    ensures InitialBalancePatch(IntToString(n)) ==
            Some(EmptyPatch.(initialBalance := Some(n), currentBalance := Some(n)))
    ensures HourlyWagePatch(IntToString(n)) == Some(EmptyPatch.(hourlyWage := Some(n)))
  {
    var m: nat := if n < 0 then -n else n;
    assert ',' !in IntToString(n) by {
      assert forall i :: 0 <= i < |DecimalString(m)| ==> IsDecimalDigit(DecimalString(m)[i]);
    }
    RemoveCommasSpec(IntToString(n));
    ParseIntToString(n);
  }

  /** The options are exactly the days 1 to 28 and the sentinel 99. */
  lemma PaydayOptionsAre(k: int)
    ensures k in PaydayOptions <==> 1 <= k <= 28 || k == 99
  {
    if 1 <= k <= 28 {
      assert PaydayOptions[k - 1] == k;
    }
  }

  /** Choosing an option stores exactly that payday, and the selector then
      shows it. */
  lemma PaydayOptionSelected(k: int, s: Settings, now: string)
    requires k in PaydayOptions
    ensures PaydayPatch(IntToString(k)) == Some(EmptyPatch.(payday := Some(k)))
    ensures DisplayedPayday(Merged(s, EmptyPatch.(payday := Some(k)), now).payday) == k
  {
    ParseIntToString(k);
    PaydayOptionsAre(k);
  }

  /** With no payday stored, or 0, the selector shows the 25th. */
  lemma DisplayedPaydayDefault(s: Settings)
    requires s.payday == None || s.payday == Some(0)
    ensures DisplayedPayday(s.payday) == 25
  {
  }

  // ---------------------------------------------------------------------
  // The page

  class SettingsForm {
    var initialBalanceInput: string
    var hourlyWageInput: string
    var subName: string
    var subAmount: string
    var subType: Period
    /** The drafts handed to `addSubscription`, oldest first. */
    var submitted: seq<SubscriptionDraft>

    /** The form as first rendered from the current settings. */
    constructor (s: Settings)
      ensures initialBalanceInput == IntToString(s.initialBalance)
      ensures hourlyWageInput == IntToString(s.hourlyWage)
      ensures subName == "" && subAmount == "" && subType == Monthly && submitted == []
    {
      initialBalanceInput := IntToString(s.initialBalance);
      hourlyWageInput := IntToString(s.hourlyWage);
      subName, subAmount, subType := "", "", Monthly;
      submitted := [];
    }

    /** The effect that copies the two numbers back into the inputs when they change. */
    method SyncFromSettings(s: Settings)
      modifies this
      ensures initialBalanceInput == IntToString(s.initialBalance)
      ensures hourlyWageInput == IntToString(s.hourlyWage)
      ensures subName == old(subName) && subAmount == old(subAmount)
      ensures subType == old(subType) && submitted == old(submitted)
    {
      initialBalanceInput := IntToString(s.initialBalance);
      hourlyWageInput := IntToString(s.hourlyWage);
    }

    method HandleInitialBalanceChange(store: Ledger, val: string, now: string)
      modifies this, store
      ensures initialBalanceInput == val && hourlyWageInput == old(hourlyWageInput)
      ensures subName == old(subName) && subAmount == old(subAmount)
      ensures subType == old(subType) && submitted == old(submitted)
      ensures InitialBalancePatch(val).None? ==> store.State() == old(store.State())
      ensures InitialBalancePatch(val).Some? ==>
        store.State() == SettingsUpdated(old(store.State()), InitialBalancePatch(val).value, now)
    {
      initialBalanceInput := val;
      var num := ParseInt(RemoveCommas(val), 10);
      if num.Int? {
        store.UpdateSettings(EmptyPatch.(initialBalance := Some(num.value), currentBalance := Some(num.value)), now);
      }
    }

    method HandleHourlyWageChange(store: Ledger, val: string, now: string)
      modifies this, store
      ensures hourlyWageInput == val && initialBalanceInput == old(initialBalanceInput)
      ensures subName == old(subName) && subAmount == old(subAmount)
      ensures subType == old(subType) && submitted == old(submitted)
      ensures HourlyWagePatch(val).None? ==> store.State() == old(store.State())
      ensures HourlyWagePatch(val).Some? ==>
        store.State() == SettingsUpdated(old(store.State()), HourlyWagePatch(val).value, now)
    {
      hourlyWageInput := val;
      var num := ParseInt(RemoveCommas(val), 10);
      if num.Int? {
        store.UpdateSettings(EmptyPatch.(hourlyWage := Some(num.value)), now);
      }
    }

    method HandlePaydayChange(store: Ledger, val: string, now: string)
      modifies store
      ensures PaydayPatch(val).None? ==> store.State() == old(store.State())
      ensures PaydayPatch(val).Some? ==>
        store.State() == SettingsUpdated(old(store.State()), PaydayPatch(val).value, now)
    {
      var num := ParseInt(val, 10);
      if num.Int? {
        store.UpdateSettings(EmptyPatch.(payday := Some(num.value)), now);
      }
    }

    /** `handleReset`; `confirmed` is the user's answer to the dialog. */
    method HandleReset(store: Ledger, confirmed: bool)
      modifies store
      ensures confirmed ==> store.State() == Reset(store.loadTime)
      ensures !confirmed ==> store.State() == old(store.State())
    {
      if confirmed {
        store.ResetData();
      }
    }

    method HandleAddSubscription()
      modifies this
      ensures initialBalanceInput == old(initialBalanceInput) && hourlyWageInput == old(hourlyWageInput)
      ensures subType == old(subType)
      ensures SubscriptionToAdd(old(subName), old(subAmount), old(subType)).None? ==>
        subName == old(subName) && subAmount == old(subAmount) && submitted == old(submitted)
      ensures SubscriptionToAdd(old(subName), old(subAmount), old(subType)).Some? ==>
        subName == "" && subAmount == "" &&
        submitted == old(submitted) + [SubscriptionToAdd(old(subName), old(subAmount), old(subType)).value]
    {
      if subName == "" || subAmount == "" {
        return;
      }
      var amount := ParseInt(subAmount, 10);
      if amount.NaN? {
        return;
      }
      submitted := submitted + [SubscriptionDraft(subName, amount.value, subType)];
      subName := "";
      subAmount := "";
    }
  }
}
