/** The expense confirmation page: it reads an amount and a memo from the
    query, shows what the expense costs in minutes of work, and on a tap
    records it once as an expense. */
module AddPage {
  import opened WalletTypes
  import opened JsNumbers
  import opened WalletContext

  /** The memo stored when the query gives none (the word for "expense"). */
  const DefaultMemo: string := "\U{652F}\U{51FA}"

  /** The wage used when the hourly wage is 0. */
  const FallbackWage: int := 1000

  /** A query parameter that is present and not empty. */
  predicate Truthy(param: Option<string>) {
    param.Some? && param.value != ""
  }

  /** `param || fallback`. */
  function OrElse(param: Option<string>, fallback: string): string {
    if Truthy(param) then param.value else fallback
  }

  /** `parseInt(searchParams.get('amount') || '0')`, without a radix. */
  function QueryAmount(param: Option<string>): Parsed {
    ParseInt(OrElse(param, "0"), 0)
  }

  /** `searchParams.get('memo') || ''`. */
  function QueryMemo(param: Option<string>): string {
    OrElse(param, "")
  }

  /** The page shows anything, and so can be tapped, only when `type` is
      present and the amount is neither 0 nor NaN. */
  predicate Renders(typeParam: Option<string>, amount: Parsed) {
    Truthy(typeParam) && amount.Int? && amount.value != 0
  }

  /** `settings.hourlyWage || 1000`. */
  function EffectiveWage(hourlyWage: int): (w: int)
    ensures w != 0
  {
    if hourlyWage == 0 then FallbackWage else hourlyWage
  }

  /** `minutesCost`: the amount's share of an hour's wage, in whole minutes,
      rounded to the nearest with halves up. */
  function MinutesCost(amount: int, hourlyWage: int): (m: int)
    ensures var w := EffectiveWage(hourlyWage);
            (w > 0 ==> 2 * w * m - w <= 120 * amount < 2 * w * m + w) &&
            (w < 0 ==> 2 * (-w) * m - (-w) <= -120 * amount < 2 * (-w) * m + (-w))
  {
    RoundQuotient(amount * 60, EffectiveWage(hourlyWage))
  }

  /** What `handleExpenseSave` hands to `addTransaction`: the amount negated,
      always an expense, whatever `type` said, and never an empty memo. */
  function SavedDraft(amount: int, memo: string): (d: Draft)
    ensures d.amount == -amount && d.kind == Expense && d.satisfaction.None?
    ensures d.memo != "" && (memo != "" ==> d.memo == memo)
    ensures memo == "" ==> d.memo == DefaultMemo
  {
    Draft(-amount, Expense, if memo == "" then DefaultMemo else memo, None)
  }

  /** One tap on the page, from the `saved` flag and the store. */
  function Tapped(saved: bool, w: Wallet, amount: int, memo: string, id: string, now: string): (bool, Wallet) {
    if saved then (saved, w) else (true, Added(w, SavedDraft(amount, memo), id, now))
  }

  /** The fresh id and the clock reading a tap would use. */
  datatype Tap = Tap(id: string, now: string)

  /** Several taps on one page, in order. */
  function TappedAll(saved: bool, w: Wallet, amount: int, memo: string, taps: seq<Tap>): (bool, Wallet)
    decreases |taps|
  {
    if taps == [] then (saved, w)
    else
      var next := Tapped(saved, w, amount, memo, taps[0].id, taps[0].now);
      TappedAll(next.0, next.1, amount, memo, taps[1..])
  }

  // ---------------------------------------------------------------------
  // Properties

  /** Once saved, taps change nothing. */
  lemma {:induction false} TapsAfterSaveChangeNothing(w: Wallet, amount: int, memo: string, taps: seq<Tap>)
    ensures TappedAll(true, w, amount, memo, taps) == (true, w)
    decreases |taps|
  {
    if taps != [] {
      TapsAfterSaveChangeNothing(w, amount, memo, taps[1..]);
    }
  }

  /** However often the page is tapped, exactly one transaction is added:
      the first tap's. */
  lemma AtMostOneSave(w: Wallet, amount: int, memo: string, taps: seq<Tap>)
    requires taps != []
    ensures TappedAll(false, w, amount, memo, taps) ==
            (true, Added(w, SavedDraft(amount, memo), taps[0].id, taps[0].now))
    ensures |TappedAll(false, w, amount, memo, taps).1.transactions| == |w.transactions| + 1
  {
    TapsAfterSaveChangeNothing(Added(w, SavedDraft(amount, memo), taps[0].id, taps[0].now), amount, memo, taps[1..]);
  }

  /** Saving lowers the balance by the query's amount. */
  lemma SaveLowersBalance(w: Wallet, amount: int, memo: string, id: string, now: string)
    ensures Tapped(false, w, amount, memo, id, now).1.settings.currentBalance ==
            w.settings.currentBalance - amount
  {
  }

  /** A missing amount reads as 0, so the page shows nothing. */
  lemma MissingAmountNotRendered(typeParam: Option<string>)
    ensures QueryAmount(None) == Int(0)
    ensures !Renders(typeParam, QueryAmount(None))
  {
    assert ParseInt("0", 0) == Int(0) by {
      assert IntToString(0) == "0";
      ParseIntToString(0);
    }
  }

  /** Without a radix a `0x` amount is read in hexadecimal. */
  lemma HexadecimalAmount(h: string)
    requires h != [] && forall i :: 0 <= i < |h| ==> DigitValue(h[i]) < 16
    ensures QueryAmount(Some("0x" + h)) == Int(Numeral(h, 16))
  {
    ParseHexPrefixed(h);
  }

  /** A negative amount `-n`, as `toString` writes it, is present and reads
      back as `-n` without a radix. */
  lemma NegativeQueryAmount(n: int)
    requires n > 0
    ensures Truthy(Some(IntToString(-n)))
    ensures QueryAmount(Some(IntToString(-n))) == Int(-n)
  {
    var digits := DecimalString(n);
    var text := "-" + digits;
    assert IntToString(-n) == text;
    NumeralOfDecimalString(n);
    assert text[0] == '-' && text[1..] == digits;
    TrimStartOfNumeral(text);
    assert Unsigned(text) == digits;
    MagnitudeOfDecimalString(digits, 0);
    assert ParseInt(text, 0) == Int(-n);
    assert OrElse(Some(text), "0") == text;
  }

  /** A negative query amount passes the guard, is stored as a positive
      expense and raises the balance: only zero and NaN are turned away. */
  lemma NegativeAmountRaisesBalance(n: int, w: Wallet, typeParam: Option<string>, memo: string, id: string, now: string)
    requires n > 0 && Truthy(typeParam)
    ensures QueryAmount(Some(IntToString(-n))) == Int(-n)
    ensures Renders(typeParam, QueryAmount(Some(IntToString(-n))))
    ensures var d := SavedDraft(-n, memo);
            d.kind == Expense && d.amount == n &&
            Added(w, d, id, now).settings.currentBalance == w.settings.currentBalance + n
  {
    NegativeQueryAmount(n);
  }

  /** With the default wage of 2000 an expense of 1000 costs 30 minutes;
      with no wage set, 500 costs 30 minutes at the fallback of 1000. */
  lemma MinutesCostExamples()
    ensures MinutesCost(1000, 2000) == 30
    ensures MinutesCost(500, 0) == 30
  {
  }

  // ---------------------------------------------------------------------
  // The page

  class ExpenseConfirmation {
    const typeParam: Option<string>
    const amount: Parsed
    const memo: string
    var saved: bool

    /** The page as built from its query parameters. */
    constructor (typeParam: Option<string>, amountParam: Option<string>, memoParam: Option<string>)
      ensures this.typeParam == typeParam
      ensures amount == QueryAmount(amountParam) && memo == QueryMemo(memoParam)
      ensures !saved
    {
      this.typeParam := typeParam;
      amount := QueryAmount(amountParam);
      memo := QueryMemo(memoParam);
      saved := false;
    }

    /** `handleExpenseSave`, reachable only by tapping what the page renders. */
    method HandleExpenseSave(store: Ledger, id: string, now: string)
      requires Renders(typeParam, amount)
      modifies this, store
      ensures (saved, store.State()) == Tapped(old(saved), old(store.State()), amount.value, memo, id, now)
    {
      if saved {
        return;
      }
      saved := true;
      store.AddTransaction(Draft(-amount.value, Expense, if memo == "" then DefaultMemo else memo, None), id, now);
    }
  }
}
