/** The records the wallet keeps: its settings, its transactions, and the
    partial records that the store's update operations merge in. */
module WalletTypes {

  datatype Option<T> = None | Some(value: T)

  /** The value of `o` when it is present, `d` otherwise: one key of an
      object spread `{ ...base, ...patch }`. */
  function Pick<T>(o: Option<T>, d: T): T {
    match o
    case Some(v) => v
    case None => d
  }

  /** A transaction's `type`: which way the money moved. */
  datatype TxType = Income | Expense

  /** A stored transaction. `amount` is signed; `kind` is the source's `type`. */
  datatype Transaction = Transaction(
    id: string,
    amount: int,
    kind: TxType,
    memo: string,
    satisfaction: Option<int>,
    createdAt: string)

  /** What a caller hands to `addTransaction`: a transaction without its
      `id` and `createdAt`. */
  datatype Draft = Draft(amount: int, kind: TxType, memo: string, satisfaction: Option<int>)

  /** What a caller hands to `editTransaction`: any subset of the fields
      other than `id` and `createdAt`. */
  datatype TxUpdate = TxUpdate(
    amount: Option<int>,
    kind: Option<TxType>,
    memo: Option<string>,
    satisfaction: Option<int>)

  /** The settings record. `payday` is not declared by the settings type but
      the settings page stores it through the same spread; `None` is an
      object without the key. */
  datatype Settings = Settings(
    initialBalance: int,
    currentBalance: int,
    hourlyWage: int,
    currency: string,
    createdAt: string,
    updatedAt: string,
    payday: Option<int>)

  /** A partial settings record: `None` is a key the caller left out. */
  datatype SettingsPatch = SettingsPatch(
    initialBalance: Option<int>,
    currentBalance: Option<int>,
    hourlyWage: Option<int>,
    currency: Option<string>,
    createdAt: Option<string>,
    updatedAt: Option<string>,
    payday: Option<int>)

  const EmptyPatch := SettingsPatch(None, None, None, None, None, None, None)
}
