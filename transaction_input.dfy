/** The amount-entry page: a keypad edits a digit string, and confirming
    records it as one signed transaction in the store. */
module TransactionInput {
  import opened WalletTypes
  import opened JsNumbers
  import opened WalletContext

  /** The keys the keypad offers, in its layout order. */
  const KeypadKeys: seq<string> := ["7", "8", "9", "4", "5", "6", "1", "2", "3", "00", "0"]

  /** The page's `type` query parameter, defaulting to expense when it is
      missing or empty. The source casts any other value to the two names. */
  function PageType(param: Option<string>): (k: TxType)
    requires param.Some? && param.value != "" ==> param.value in {"income", "expense"}
    ensures k == Income <==> param == Some("income")
  {
    if param == Some("income") then Income else Expense
  }

  /** What the entered amount always is: one to ten decimal digits. */
  predicate WellFormed(s: string) {
    1 <= |s| <= 10 && IsDecimalString(s)
  }

  /** `handleInput(key)`: a key replaces a lone `0` (unless it is `00`),
      and is otherwise appended while the text is shorter than 9. */
  function Pressed(s: string, key: string): string {
    if s == "0" && key != "00" then key
    else if |s| < 9 then s + key
    else s
  }

  /** `handleDelete()`: drop the last character, but never leave the text empty. */
  function Deleted(s: string): string {
    if |s| == 1 then "0"
    else if s == [] then []
    else s[..|s| - 1]
  }

  /** A press on the keypad. */
  datatype Press = Key(key: string) | Delete

  predicate OnKeypad(presses: seq<Press>) {
    forall i :: 0 <= i < |presses| ==> (presses[i].Key? ==> presses[i].key in KeypadKeys)
  }

  /** The text after a sequence of presses. */
  function Run(s: string, presses: seq<Press>): string
    decreases |presses|
  {
    if presses == [] then s
    else
      var next := match presses[0]
        case Key(k) => Pressed(s, k)
        case Delete => Deleted(s);
      Run(next, presses[1..])
  }

  /** The signed amount for a magnitude: negative for an expense. */
  function Signed(kind: TxType, magnitude: int): int {
    if kind == Expense then -magnitude else magnitude
  }

  /** `parseInt(amountStr)` on a well-formed entry: its decimal value
      (see `EnteredAmountParses`). */
  function EnteredAmount(s: string): nat
    requires WellFormed(s)
  {
    Numeral(s, 10)
  }

  /** `parseInt` reads a well-formed entry as its decimal value, so the
      confirm button is disabled exactly when `parseInt(amountStr) === 0`. */
  lemma EnteredAmountParses(s: string)
    requires WellFormed(s)
    ensures ParseInt(s, 0) == Int(EnteredAmount(s))
    ensures ConfirmDisabled(s) <==> ParseInt(s, 0) == Int(0)
  {
    ParseDecimalString(s);
  }

  /** `confirmDisabled`: the entered text parses to 0. */
  predicate ConfirmDisabled(s: string)
    requires WellFormed(s)
  {
    EnteredAmount(s) == 0
  }

  /** What `handleConfirm` hands to `addTransaction`, or nothing when the
      parsed amount is not positive. */
  function ConfirmDraft(s: string, kind: TxType): (r: Option<Draft>)
    requires WellFormed(s)
    ensures r.None? <==> ConfirmDisabled(s)
    ensures r.Some? ==> r.value.kind == kind && r.value.memo == "" && r.value.satisfaction.None?
    ensures r.Some? ==> (r.value.amount < 0 <==> kind == Expense) && r.value.amount != 0
    ensures r.Some? ==> r.value.amount == Signed(kind, EnteredAmount(s))
  {
    var amountVal := EnteredAmount(s);
    if amountVal <= 0 then None
    else Some(Draft(Signed(kind, amountVal), kind, "", None))
  }

  // ---------------------------------------------------------------------
  // Properties of the keypad

  /** Every keypad key is one or two decimal digits. */
  lemma KeypadKeyDigits(key: string)
    requires key in KeypadKeys
    ensures 1 <= |key| <= 2 && IsDecimalString(key)
  {
  }

  /** On a lone `0`, every key but `00` replaces it: `0` keeps `0`, and
      `00` appends to give `000`. */
  lemma PressOnZero(key: string)
    requires key in KeypadKeys
    ensures Pressed("0", key) == (if key == "00" then "000" else key)
  {
  }

  /** A key press only ever appends to a text shorter than 9, and so never
      makes it longer than 10. */
  lemma PressLength(s: string, key: string)
    requires key in KeypadKeys && |s| <= 10
    ensures |Pressed(s, key)| > |s| && s != "0" ==> |s| < 9 && Pressed(s, key) == s + key
    ensures |Pressed(s, key)| <= 10
  {
  }

  /** One press keeps the text well formed. */
  lemma PressKeepsWellFormed(s: string, p: Press)
    requires WellFormed(s)
    requires p.Key? ==> p.key in KeypadKeys
    ensures WellFormed(if p.Key? then Pressed(s, p.key) else Deleted(s))
  {
    if p.Key? {
      KeypadKeyDigits(p.key);
      var r := Pressed(s, p.key);
      if s != "0" || p.key == "00" {
        if |s| < 9 {
          assert forall i :: |s| <= i < |r| ==> r[i] == p.key[i - |s|];
        }
      }
    }
  }

  /** Whatever is pressed from the initial `0`, the text stays one to ten digits. */
  lemma {:induction false} RunKeepsWellFormed(s: string, presses: seq<Press>)
    requires WellFormed(s) && OnKeypad(presses)
    ensures WellFormed(Run(s, presses))
    decreases |presses|
  {
    if presses != [] {
      PressKeepsWellFormed(s, presses[0]);
      var next := if presses[0].Key? then Pressed(s, presses[0].key) else Deleted(s);
      assert OnKeypad(presses[1..]) by {
        forall i | 0 <= i < |presses[1..]| && presses[1..][i].Key?
          ensures presses[1..][i].key in KeypadKeys
        {
          assert presses[1..][i] == presses[i + 1];
        }
      }
      RunKeepsWellFormed(next, presses[1..]);
    }
  }

  /** The bound 10 is reached: eight ones, then `00`. */
  lemma TenDigitsReachable()
    ensures |Run("0", [Key("1"), Key("1"), Key("1"), Key("1"), Key("1"), Key("1"), Key("1"), Key("1"), Key("00")])| == 10
  {
  }

  /** Delete on one character gives `0`; otherwise it drops exactly the last character. */
  lemma DeleteShortens(s: string)
    requires WellFormed(s)
    ensures |s| == 1 ==> Deleted(s) == "0"
    ensures |s| > 1 ==> Deleted(s) + [s[|s| - 1]] == s
  {
  }

  /** Confirming an expense lowers the balance by the entered amount, and
      confirming income raises it by that amount. */
  lemma ConfirmMovesBalance(w: Wallet, s: string, kind: TxType, id: string, now: string)
    requires WellFormed(s) && !ConfirmDisabled(s)
    ensures var d := ConfirmDraft(s, kind).value;
            var b := Added(w, d, id, now).settings.currentBalance;
            (kind == Expense ==> b == w.settings.currentBalance - EnteredAmount(s) < w.settings.currentBalance) &&
            (kind == Income ==> b == w.settings.currentBalance + EnteredAmount(s) > w.settings.currentBalance)
  {
  }

  // ---------------------------------------------------------------------
  // The page

  class AmountEntry {
    const kind: TxType
    var amountStr: string
    var showResult: bool

    ghost predicate Valid()
      reads this
    {
      WellFormed(amountStr)
    }

    constructor (typeParam: Option<string>)
      requires typeParam.Some? && typeParam.value != "" ==> typeParam.value in {"income", "expense"}
      ensures Valid()
      ensures kind == PageType(typeParam) && amountStr == "0" && !showResult
    {
      kind := PageType(typeParam);
      amountStr := "0";
      showResult := false;
    }

    method HandleInput(key: string)
      requires Valid() && key in KeypadKeys
      modifies this
      ensures Valid()
      ensures amountStr == Pressed(old(amountStr), key) && showResult == old(showResult)
    {
      if amountStr == "0" && key != "00" {
        amountStr := key;
      } else if |amountStr| < 9 {
        amountStr := amountStr + key;
      }
      PressKeepsWellFormed(old(amountStr), Key(key));
    }

    method HandleDelete()
      requires Valid()
      modifies this
      ensures Valid()
      ensures amountStr == Deleted(old(amountStr)) && showResult == old(showResult)
    {
      if |amountStr| == 1 {
        amountStr := "0";
      } else {
        amountStr := amountStr[..|amountStr| - 1];
      }
      PressKeepsWellFormed(old(amountStr), Delete);
    }

    /** `handleConfirm`, with `id` and `now` for the store's random id and clock. */
    method HandleConfirm(store: Ledger, id: string, now: string)
      requires Valid()
      modifies this, store
      ensures Valid() && amountStr == old(amountStr)
      ensures ConfirmDraft(amountStr, kind).None? ==>
        store.State() == old(store.State()) && showResult == old(showResult)
      ensures ConfirmDraft(amountStr, kind).Some? ==>
        store.State() == Added(old(store.State()), ConfirmDraft(amountStr, kind).value, id, now) && showResult
    {
      EnteredAmountParses(amountStr);
      var amountVal: int := ParseInt(amountStr, 0).value;
      if amountVal <= 0 {
        return;
      }
      var finalAmount: int := if kind == Expense then -amountVal else amountVal;
      store.AddTransaction(Draft(finalAmount, kind, "", None), id, now);
      showResult := true;
    }
  }
}
