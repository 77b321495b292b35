/**
 * The four kinds of stored document: users, banks, accounts and transactions,
 * with their enumerations and the defaults a new account or transaction receives.
 */
module Records {
  import opened AccountNumbers

  datatype Option<T> = None | Some(value: T)

  /** Document ids are opaque; they are drawn from one counter, so they are unique across collections. */
  type UserId = int
  type BankId = int
  type AccountId = int
  type TxId = int

  /** A stored password hash; hashing and comparison are done by a foreign library. */
  type Credential = string

  datatype Role = Customer | Manager

  /** The lifecycle of an account and of a transaction. */
  datatype Status = Pending | Approved | Rejected

  datatype TxType = Deposit | Withdrawal

  function StatusName(s: Status): (name: string) {
    match s
    case Pending => "pending"
    case Approved => "approved"
    case Rejected => "rejected"
  }

  /** The enum check a status string from a request body passes when it is saved. */
  function ParseStatus(s: string): (r: Option<Status>)
    ensures r.Some? ==> StatusName(r.value) == s
    ensures r.None? ==> forall st: Status :: StatusName(st) != s
  {
    if s == "pending" then Some(Pending)
    else if s == "approved" then Some(Approved)
    else if s == "rejected" then Some(Rejected)
    else None
  }

  function TxTypeName(t: TxType): (name: string) {
    match t
    case Deposit => "deposit"
    case Withdrawal => "withdrawal"
  }

  /** The membership test of a type string in ['deposit', 'withdrawal']. */
  function ParseTxType(s: string): (r: Option<TxType>)
    ensures r.Some? ==> TxTypeName(r.value) == s
    ensures r.None? ==> forall t: TxType :: TxTypeName(t) != s
  {
    if s == "deposit" then Some(Deposit)
    else if s == "withdrawal" then Some(Withdrawal)
    else None
  }

  lemma ParseNamesBack(st: Status, t: TxType)
    ensures ParseStatus(StatusName(st)) == Some(st)
    ensures ParseTxType(TxTypeName(t)) == Some(t)
  {
  }

  datatype User = User(name: string, email: string, phone: string, password: Credential, role: Role)

  datatype Bank = Bank(name: string, manager: Option<UserId>)

  datatype Account = Account(
    userId: UserId,
    bankId: BankId,
    holderName: string,
    status: Status,
    balance: int,
    number: string)

  datatype Transaction = Transaction(
    accountId: AccountId,
    kind: TxType,
    amount: int,
    status: Status,
    transferId: Option<TxId>)

  /** A new account document: the given references and holder name, every other field its default. */
  function NewAccount(userId: UserId, bankId: BankId, holderName: string, draw: Draw): (a: Account)
    ensures a.userId == userId && a.bankId == bankId && a.holderName == holderName
    ensures a.status == Pending && a.balance == 0
    ensures IsTwelveDigits(a.number) && a.number[0] != '0' && ValueOf(a.number) == Low + draw
  {
    Account(userId, bankId, holderName, Pending, 0, Generate(draw))
  }

  /** A new transaction document: pending, and linked to no other transaction. */
  function NewTransaction(accountId: AccountId, kind: TxType, amount: int): (t: Transaction)
    ensures t.accountId == accountId && t.kind == kind && t.amount == amount
    ensures t.status == Pending && t.transferId == None
  {
    Transaction(accountId, kind, amount, Pending, None)
  }
}
