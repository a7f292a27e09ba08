/** The ledger store: the settings record and the transaction list, and the
    four operations that replace them. Each operation is a pure function on
    a `Wallet` value, and the `Ledger` class applies it to its two fields. */
module WalletContext {
  import opened WalletTypes

  /** `defaultSettings`. Its two timestamps are read once, when the module is
      loaded, so every reset restores those same timestamps. */
  function DefaultSettings(loadTime: string): Settings {
    Settings(
      initialBalance := 100000,
      currentBalance := 100000,
      hourlyWage := 2000,
      currency := "\U{00C2}\U{00A5}",
      createdAt := loadTime,
      updatedAt := loadTime,
      payday := None)
  }

  /** The whole store at one moment. */
  datatype Wallet = Wallet(settings: Settings, transactions: seq<Transaction>)

  /** The sum of the signed amounts of `txs`. */
  function Sum(txs: seq<Transaction>): int {
    if txs == [] then 0 else txs[0].amount + Sum(txs[1..])
  }

  /** The running balance agrees with the transactions: the starting balance
      plus every signed amount. */
  predicate Consistent(w: Wallet) {
    w.settings.currentBalance == w.settings.initialBalance + Sum(w.transactions)
  }

  function Ids(txs: seq<Transaction>): set<string> {
    set t | t in txs :: t.id
  }

  predicate UniqueIds(txs: seq<Transaction>) {
    forall i, j :: 0 <= i < j < |txs| ==> txs[i].id != txs[j].id
  }

  // ---------------------------------------------------------------------
  // addTransaction

  /** The store after `addTransaction(draft)`, given the fresh id and the clock reading. */
  function Added(w: Wallet, draft: Draft, id: string, now: string): (r: Wallet)
    ensures |r.transactions| == |w.transactions| + 1
    ensures r.transactions[1..] == w.transactions
    ensures r.transactions[0] == Transaction(id, draft.amount, draft.kind, draft.memo, draft.satisfaction, now)
    ensures Sum(r.transactions) == Sum(w.transactions) + draft.amount
    ensures r.settings.currentBalance == w.settings.currentBalance + draft.amount
    ensures r.settings == w.settings.(currentBalance := r.settings.currentBalance, updatedAt := now)
    ensures Consistent(w) ==> Consistent(r)
  {
    var tx := Transaction(id, draft.amount, draft.kind, draft.memo, draft.satisfaction, now);
    var txs := [tx] + w.transactions;
    assert txs[1..] == w.transactions;
    Wallet(w.settings.(currentBalance := w.settings.currentBalance + tx.amount, updatedAt := now), txs)
  }

  /** One call of `addTransaction` with its id and clock reading. */
  datatype AddCall = AddCall(draft: Draft, id: string, now: string)

  /** The store after a sequence of `addTransaction` calls, in order. */
  function AddedAll(w: Wallet, calls: seq<AddCall>): Wallet
    decreases calls
  {
    if calls == [] then w
    else AddedAll(Added(w, calls[0].draft, calls[0].id, calls[0].now), calls[1..])
  }

  function DraftSum(calls: seq<AddCall>): int {
    if calls == [] then 0 else calls[0].draft.amount + DraftSum(calls[1..])
  }

  /** After any sequence of adds the balance has moved by exactly the sum of
      the added signed amounts, the list has grown by one entry per call, the
      old entries sit unchanged at the end, and no other setting but
      `updatedAt` has changed. */
  lemma {:induction false} AddedAllBalance(w: Wallet, calls: seq<AddCall>)
    ensures AddedAll(w, calls).settings.currentBalance == w.settings.currentBalance + DraftSum(calls)
    ensures |AddedAll(w, calls).transactions| == |w.transactions| + |calls|
    ensures AddedAll(w, calls).transactions[|calls|..] == w.transactions
    ensures AddedAll(w, calls).settings.(currentBalance := 0, updatedAt := "") ==
            w.settings.(currentBalance := 0, updatedAt := "")
    ensures Consistent(w) ==> Consistent(AddedAll(w, calls))
    decreases calls
  {
    if calls != [] {
      var c := calls[0];
      var w1 := Added(w, c.draft, c.id, c.now);
      AddedAllBalance(w1, calls[1..]);
      var r := AddedAll(w1, calls[1..]);
      calc {
        r.transactions[|calls|..];
        (r.transactions[|calls| - 1..])[1..];
        w1.transactions[1..];
        w.transactions;
      }
    }
  }

  /** A transaction added under an id not yet in the list keeps the ids unique. */
  lemma AddedKeepsIdsUnique(w: Wallet, draft: Draft, id: string, now: string)
    requires UniqueIds(w.transactions) && id !in Ids(w.transactions)
    ensures UniqueIds(Added(w, draft, id, now).transactions)
  {
    var txs := Added(w, draft, id, now).transactions;
    forall i, j | 0 <= i < j < |txs| ensures txs[i].id != txs[j].id {
      assert txs[j] == w.transactions[j - 1];
      if i > 0 {
        assert txs[i] == w.transactions[i - 1];
      } else {
        assert txs[j] in w.transactions;
      }
    }
  }

  // ---------------------------------------------------------------------
  // updateSettings

  /** `{ ...s, ...patch, updatedAt: now }`. */
  function Merged(s: Settings, patch: SettingsPatch, now: string): (r: Settings)
    ensures r.updatedAt == now
    ensures patch.initialBalance.Some? ==> r.initialBalance == patch.initialBalance.value
    ensures patch.initialBalance.None? ==> r.initialBalance == s.initialBalance
    ensures patch.currentBalance.Some? ==> r.currentBalance == patch.currentBalance.value
    ensures patch.currentBalance.None? ==> r.currentBalance == s.currentBalance
    ensures patch.hourlyWage.Some? ==> r.hourlyWage == patch.hourlyWage.value
    ensures patch.hourlyWage.None? ==> r.hourlyWage == s.hourlyWage
    ensures patch.currency.Some? ==> r.currency == patch.currency.value
    ensures patch.currency.None? ==> r.currency == s.currency
    ensures patch.createdAt.Some? ==> r.createdAt == patch.createdAt.value
    ensures patch.createdAt.None? ==> r.createdAt == s.createdAt
    ensures patch.payday.Some? ==> r.payday == patch.payday
    ensures patch.payday.None? ==> r.payday == s.payday
  {
    Settings(
      initialBalance := Pick(patch.initialBalance, s.initialBalance),
      currentBalance := Pick(patch.currentBalance, s.currentBalance),
      hourlyWage := Pick(patch.hourlyWage, s.hourlyWage),
      currency := Pick(patch.currency, s.currency),
      createdAt := Pick(patch.createdAt, s.createdAt),
      updatedAt := now,
      payday := if patch.payday.Some? then patch.payday else s.payday)
  }

  /** The store after `updateSettings(patch)`: the transactions are untouched. */
  function SettingsUpdated(w: Wallet, patch: SettingsPatch, now: string): (r: Wallet)
    ensures r.transactions == w.transactions
    ensures r.settings == Merged(w.settings, patch, now)
  {
    w.(settings := Merged(w.settings, patch, now))
  }

  /** Merging the same patch twice is merging it once. */
  lemma MergedIdempotent(s: Settings, patch: SettingsPatch, now: string)
    ensures Merged(Merged(s, patch, now), patch, now) == Merged(s, patch, now)
  {
  }

  /** A patch with no keys only stamps `updatedAt`. */
  lemma MergedEmpty(s: Settings, now: string)
    ensures Merged(s, EmptyPatch, now) == s.(updatedAt := now)
  {
  }

  // ---------------------------------------------------------------------
  // editTransaction

  /** `{ ...t, ...u }`: an update cannot name `id` or `createdAt`. */
  function Applied(t: Transaction, u: TxUpdate): (r: Transaction)
    ensures r.id == t.id && r.createdAt == t.createdAt
    ensures u.amount.Some? ==> r.amount == u.amount.value
    ensures u.amount.None? ==> r.amount == t.amount
    ensures u.kind.Some? ==> r.kind == u.kind.value
    ensures u.kind.None? ==> r.kind == t.kind
    ensures u.memo.Some? ==> r.memo == u.memo.value
    ensures u.memo.None? ==> r.memo == t.memo
    ensures u.satisfaction.Some? ==> r.satisfaction == u.satisfaction
    ensures u.satisfaction.None? ==> r.satisfaction == t.satisfaction
    ensures u == TxUpdate(None, None, None, None) ==> r == t
  {
    t.(amount := Pick(u.amount, t.amount),
       kind := Pick(u.kind, t.kind),
       memo := Pick(u.memo, t.memo),
       satisfaction := if u.satisfaction.Some? then u.satisfaction else t.satisfaction)
  }

  /** `txs.map(tx => tx.id === id ? { ...tx, ...u } : tx)`. */
  function EditedList(txs: seq<Transaction>, id: string, u: TxUpdate): (r: seq<Transaction>)
    ensures |r| == |txs|
    ensures forall i :: 0 <= i < |txs| && txs[i].id != id ==> r[i] == txs[i]
    ensures forall i :: 0 <= i < |txs| && txs[i].id == id ==> r[i] == Applied(txs[i], u)
    ensures forall i :: 0 <= i < |txs| ==> r[i].id == txs[i].id && r[i].createdAt == txs[i].createdAt
  {
    if txs == [] then []
    else [if txs[0].id == id then Applied(txs[0], u) else txs[0]] + EditedList(txs[1..], id, u)
  }

  /** The store after `editTransaction(id, u)`: the settings, the running
      balance among them, are untouched. */
  function Edited(w: Wallet, id: string, u: TxUpdate): (r: Wallet)
    ensures r.settings == w.settings
    ensures r.transactions == EditedList(w.transactions, id, u)
  {
    w.(transactions := EditedList(w.transactions, id, u))
  }

  /** Editing with an id that no entry carries changes nothing. */
  lemma EditedListNoMatch(txs: seq<Transaction>, id: string, u: TxUpdate)
    requires id !in Ids(txs)
    ensures EditedList(txs, id, u) == txs
  {
    var r := EditedList(txs, id, u);
    forall i | 0 <= i < |txs| ensures r[i] == txs[i] {
      assert txs[i] in txs;
    }
  }

  /** Applying the same edit twice is applying it once. */
  lemma EditedListIdempotent(txs: seq<Transaction>, id: string, u: TxUpdate)
    ensures EditedList(EditedList(txs, id, u), id, u) == EditedList(txs, id, u)
  {
    var once := EditedList(txs, id, u);
    var twice := EditedList(once, id, u);
    forall i | 0 <= i < |txs| ensures twice[i] == once[i] {
      if txs[i].id == id {
        assert once[i] == Applied(txs[i], u);
        assert Applied(once[i], u) == once[i];
      }
    }
  }

  /** An edit that leaves the amounts alone leaves their sum alone. */
  lemma {:induction false} EditedListKeepsSum(txs: seq<Transaction>, id: string, u: TxUpdate)
    requires u.amount.None?
    ensures Sum(EditedList(txs, id, u)) == Sum(txs)
  {
    if txs != [] {
      var r := EditedList(txs, id, u);
      assert r[1..] == EditedList(txs[1..], id, u);
      EditedListKeepsSum(txs[1..], id, u);
    }
  }

  /** So editing the memo, the type or the rating keeps the balance consistent. */
  lemma EditWithoutAmountKeepsConsistency(w: Wallet, id: string, u: TxUpdate)
    requires u.amount.None? && Consistent(w)
    ensures Consistent(Edited(w, id, u))
  {
    EditedListKeepsSum(w.transactions, id, u);
  }

  /** Editing an amount does not move the running balance, so a consistent
      store stops being consistent: here a 500 expense edited to 800. */
  lemma AmountEditBreaksConsistency(loadTime: string)
    ensures var tx := Transaction("a", -500, Expense, "", None, loadTime);
            var w := Wallet(DefaultSettings(loadTime).(currentBalance := 99500), [tx]);
            var u := TxUpdate(Some(-800), None, None, None);
            Consistent(w) && !Consistent(Edited(w, "a", u)) &&
            Edited(w, "a", u).settings.currentBalance == 99500
  {
    var tx := Transaction("a", -500, Expense, "", None, loadTime);
    var u := TxUpdate(Some(-800), None, None, None);
    assert Sum([tx]) == -500;
    var edited := EditedList([tx], "a", u);
    assert edited == [Applied(tx, u)];
    assert Sum(edited) == -800;
  }

  /** With unique ids, an amount edit moves the sum by exactly the change
      in the one matching entry's amount. */
  lemma {:induction false} EditedListSumDelta(txs: seq<Transaction>, id: string, u: TxUpdate, k: int)
    requires UniqueIds(txs) && 0 <= k < |txs| && txs[k].id == id && u.amount.Some?
    ensures Sum(EditedList(txs, id, u)) == Sum(txs) + u.amount.value - txs[k].amount
    decreases |txs|
  {
    var r := EditedList(txs, id, u);
    assert r[1..] == EditedList(txs[1..], id, u);
    if k == 0 {
      assert id !in Ids(txs[1..]) by {
        forall j | 0 <= j < |txs[1..]| ensures txs[1..][j].id != id {
          assert txs[1..][j] == txs[j + 1];
        }
      }
      EditedListNoMatch(txs[1..], id, u);
    } else {
      assert txs[0].id != id;
      assert UniqueIds(txs[1..]) by {
        forall i, j | 0 <= i < j < |txs[1..]| ensures txs[1..][i].id != txs[1..][j].id {
          assert txs[1..][i] == txs[i + 1] && txs[1..][j] == txs[j + 1];
        }
      }
      assert txs[1..][k - 1] == txs[k];
      EditedListSumDelta(txs[1..], id, u, k - 1);
    }
  }

  /** Whatever the store, an edit that really changes an amount leaves the
      running balance where it was, so a consistent store drifts. */
  lemma AmountEditDrifts(w: Wallet, id: string, u: TxUpdate, k: int)
    requires Consistent(w) && UniqueIds(w.transactions)
    requires 0 <= k < |w.transactions| && w.transactions[k].id == id
    requires u.amount.Some? && u.amount.value != w.transactions[k].amount
    ensures Edited(w, id, u).settings.currentBalance == w.settings.currentBalance
    ensures Sum(Edited(w, id, u).transactions) ==
            Sum(w.transactions) + u.amount.value - w.transactions[k].amount
    ensures !Consistent(Edited(w, id, u))
  {
    EditedListSumDelta(w.transactions, id, u, k);
  }

  // ---------------------------------------------------------------------
  // resetData

  /** The store after `resetData()`. */
  function Reset(loadTime: string): (r: Wallet)
    ensures r.settings.initialBalance == r.settings.currentBalance == 100000
    ensures r.settings.hourlyWage == 2000
    ensures r.settings.payday.None?
    ensures r.settings.currency == DefaultSettings(loadTime).currency
    ensures r.settings.createdAt == loadTime && r.settings.updatedAt == loadTime
    ensures r.transactions == []
    ensures Consistent(r)
  {
    Wallet(DefaultSettings(loadTime), [])
  }

  // ---------------------------------------------------------------------
  // The store

  class Ledger {
    /** When the module was loaded: the timestamps of `defaultSettings`. */
    const loadTime: string
    var settings: Settings
    var transactions: seq<Transaction>

    function State(): Wallet
      reads this
    {
      Wallet(settings, transactions)
    }

    /** A store hydrated from the key-value store, or the defaults where
        nothing was stored. */
    constructor (loadTime: string, storedSettings: Option<Settings>,
                 storedTransactions: Option<seq<Transaction>>)
      ensures this.loadTime == loadTime
      ensures settings == Pick(storedSettings, DefaultSettings(loadTime))
      ensures transactions == Pick(storedTransactions, [])
    {
      this.loadTime := loadTime;
      settings := Pick(storedSettings, DefaultSettings(loadTime));
      transactions := Pick(storedTransactions, []);
    }

    /** `addTransaction`; `id` stands for `crypto.randomUUID()` and `now`
        for the clock. */
    method AddTransaction(draft: Draft, id: string, now: string)
      modifies this
      ensures State() == Added(old(State()), draft, id, now)
      ensures UniqueIds(old(transactions)) && id !in Ids(old(transactions)) ==> UniqueIds(transactions)
    {
      var transaction := Transaction(id, draft.amount, draft.kind, draft.memo, draft.satisfaction, now);
      var updatedTransactions := [transaction] + transactions;
      var newBalance := settings.currentBalance + transaction.amount;
      transactions := updatedTransactions;
      settings := settings.(currentBalance := newBalance, updatedAt := now);
      if UniqueIds(old(transactions)) && id !in Ids(old(transactions)) {
        AddedKeepsIdsUnique(old(State()), draft, id, now);
      }
    }

    /** `updateSettings`. */
    method UpdateSettings(patch: SettingsPatch, now: string)
      modifies this
      ensures State() == SettingsUpdated(old(State()), patch, now)
    {
      settings := Merged(settings, patch, now);
    }

    /** `editTransaction`. */
    method EditTransaction(id: string, updates: TxUpdate)
      modifies this
      ensures State() == Edited(old(State()), id, updates)
      ensures Ids(transactions) == Ids(old(transactions))
    {
      var prev := transactions;
      transactions := EditedList(prev, id, updates);
      EditedListKeepsIds(prev, id, updates);
    }

    /** `resetData`: the same state whatever came before, so twice is once. */
    method ResetData()
      modifies this
      ensures State() == Reset(loadTime)
    {
      settings := DefaultSettings(loadTime);
      transactions := [];
    }
  }

  lemma EditedListKeepsIds(txs: seq<Transaction>, id: string, u: TxUpdate)
    ensures Ids(EditedList(txs, id, u)) == Ids(txs)
  {
    var r := EditedList(txs, id, u);
    forall x | x in Ids(txs) ensures x in Ids(r) {
      var i :| 0 <= i < |txs| && txs[i].id == x;
      assert r[i] in r;
    }
    forall x | x in Ids(r) ensures x in Ids(txs) {
      var i :| 0 <= i < |r| && r[i].id == x;
      assert txs[i] in txs;
    }
  }
}
