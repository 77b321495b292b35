/**
 * What the stored collections look like between requests: the error responses, the
 * balance change an approval makes, the history of those changes, and the invariant
 * that every route preserves, with one lemma per kind of save.
 */
module LedgerState {
  import opened AccountNumbers
  import opened Records

  /** The routes' error responses, one per distinct message or failure. */
  datatype Error =
    | EmailExists           // 'Email already exists'
    | PhoneExists           // 'Phone already exists'
    | ValidationFailed      // save rejects an empty required field or a status outside the enum
    | UserNotFound          // customer login: no user with that email
    | UseManagerLogin       // customer login with a manager's email
    | ManagerNotFound       // manager login: no manager with that name
    | NotManagerOfBank      // manager login: the manager does not run that bank
    | InvalidLoginDetails   // neither an email nor a name and bank name
    | InvalidPassword
    | InvalidUser           // open-account: missing user or not a customer
    | BankNotFound
    | DuplicateAccountNumber  // the unique index on accountNumber rejects the save
    | InvalidTransactionType
    | NonPositiveAmount
    | AccountNotApproved    // 'Account not found or not approved'
    | BadAccountNumber      // 'Destination account number must be 12 digits'
    | SourceNotApproved
    | InsufficientFunds
    | DestinationNotApproved
    | Unauthorized          // the caller is not a user with role manager
    | AccountNotFound
    | TransactionNotFound
    | NotAuthorizedForBank  // the caller is not the manager of the bank involved
    | BrokenReference       // a reference followed during a decision leads nowhere

  datatype Result<T> = Ok(value: T) | Err(error: Error)

  /** One balance change made by approving a transaction. */
  datatype Applied = Applied(tx: TxId, account: AccountId, kind: TxType, amount: int)

  /** What a transaction of this kind and amount does to a balance when it is applied. */
  function Signed(kind: TxType, amount: int): (d: int) {
    match kind
    case Deposit => amount
    case Withdrawal => -amount
  }

  /** The balance changes made so far, the most recent last. */
  datatype History = Start | After(before: History, change: Applied)

  /** The sum of the changes in log made to account a: deposits added, withdrawals taken away. */
  function NetEffect(log: History, a: AccountId): (sum: int) {
    match log
    case Start => 0
    case After(before, e) => NetEffect(before, a) + (if e.account == a then Signed(e.kind, e.amount) else 0)
  }

  /** Every change in log was made to an account in ids. */
  predicate Within(log: History, ids: set<AccountId>) {
    match log
    case Start => true
    case After(before, e) => e.account in ids && Within(before, ids)
  }

  lemma {:induction false} WithinGrows(log: History, ids: set<AccountId>, ids': set<AccountId>)
    requires Within(log, ids) && ids <= ids'
    ensures Within(log, ids')
  {
    if log.After? {
      WithinGrows(log.before, ids, ids');
    }
  }

  /** No change was ever made to an account outside the ones the log was confined to. */
  lemma {:induction false} NetEffectOutside(log: History, ids: set<AccountId>, a: AccountId)
    requires Within(log, ids) && a !in ids
    ensures NetEffect(log, a) == 0
  {
    if log.After? {
      NetEffectOutside(log.before, ids, a);
    }
  }

  /** Every change in log was made by a stored transaction on the same account, of the same kind and amount. */
  predicate Recorded(log: History, txs: map<TxId, Transaction>) {
    match log
    case Start => true
    case After(before, e) =>
      && e.tx in txs && txs[e.tx].accountId == e.account
      && txs[e.tx].kind == e.kind && txs[e.tx].amount == e.amount
      && Recorded(before, txs)
  }

  /** Storing a transaction under an unused id keeps every change recorded. */
  lemma {:induction false} RecordedAfterInsert(log: History, txs: map<TxId, Transaction>, id: TxId, t: Transaction)
    requires Recorded(log, txs) && id !in txs
    ensures Recorded(log, txs[id := t])
  {
    if log.After? {
      RecordedAfterInsert(log.before, txs, id, t);
    }
  }

  /** Changing the status of a stored transaction keeps every change recorded. */
  lemma {:induction false} RecordedAfterStatus(log: History, txs: map<TxId, Transaction>, id: TxId, st: Status)
    requires Recorded(log, txs) && id in txs
    ensures Recorded(log, txs[id := txs[id].(status := st)])
  {
    if log.After? {
      RecordedAfterStatus(log.before, txs, id, st);
    }
  }

  /**
   * The balance an approval leaves: a deposit always applies, a withdrawal applies
   * only when the balance covers it.
   */
  function ApplyApproval(balance: int, kind: TxType, amount: int): (r: Option<int>)
    ensures r.None? <==> kind == Withdrawal && balance < amount
    ensures r.Some? ==> r.value == balance + Signed(kind, amount)
    ensures 0 <= balance && 0 < amount && r.Some? ==> r.value >= 0
  {
    match kind
    case Deposit => Some(balance + amount)
    case Withdrawal => if balance < amount then None else Some(balance - amount)
  }

  predicate EmailInUse(users: map<UserId, User>, email: string) {
    exists u | u in users :: users[u].email == email
  }

  predicate PhoneInUse(users: map<UserId, User>, phone: string) {
    exists u | u in users :: users[u].phone == phone
  }

  predicate NumberInUse(accounts: map<AccountId, Account>, number: string) {
    exists a | a in accounts :: accounts[a].number == number
  }

  predicate IsCustomer(users: map<UserId, User>, u: UserId) {
    u in users && users[u].role == Customer
  }

  predicate IsManager(users: map<UserId, User>, m: UserId) {
    m in users && users[m].role == Manager
  }

  predicate ManagedBy(banks: map<BankId, Bank>, b: BankId, m: UserId) {
    b in banks && banks[b].manager == Some(m)
  }

  /** A manager whose name equals the given one up to case folding. */
  predicate IsManagerNamed(users: map<UserId, User>, u: UserId, name: string, fold: string -> string) {
    u in users && users[u].role == Manager && fold(users[u].name) == fold(name)
  }

  /** No two managers have names that fold to the folded name. */
  predicate SoleManagerNamed(users: map<UserId, User>, name: string, fold: string -> string) {
    forall u, v | u in users && v in users && IsManagerNamed(users, u, name, fold) && IsManagerNamed(users, v, name, fold) :: u == v
  }

  predicate RunsBankNamed(banks: map<BankId, Bank>, u: UserId, bankName: string, fold: string -> string) {
    exists b | b in banks :: fold(banks[b].name) == fold(bankName) && banks[b].manager == Some(u)
  }

  /** Account a is stored, and so is its bank, which names a manager. */
  predicate HasManager(banks: map<BankId, Bank>, accounts: map<AccountId, Account>, a: AccountId) {
    a in accounts && accounts[a].bankId in banks && banks[accounts[a].bankId].manager.Some?
  }

  predicate ApprovedWithNumber(accounts: map<AccountId, Account>, a: AccountId, number: string) {
    a in accounts && accounts[a].number == number && accounts[a].status == Approved
  }

  predicate UniqueContacts(users: map<UserId, User>) {
    forall u, v | u in users && v in users && u != v ::
      users[u].email != users[v].email && users[u].phone != users[v].phone
  }

  predicate UniqueNumbers(accounts: map<AccountId, Account>) {
    forall a, c | a in accounts && c in accounts && a != c :: accounts[a].number != accounts[c].number
  }

  /**
   * The manager m may decide about account a: m is a user with role manager, and
   * the bank that a belongs to names m as its manager.
   */
  predicate MayDecide(users: map<UserId, User>, banks: map<BankId, Bank>,
                      accounts: map<AccountId, Account>, m: UserId, a: AccountId)
  {
    IsManager(users, m) && a in accounts && ManagedBy(banks, accounts[a].bankId, m)
  }

  /** Every id in use lies below the next id to be handed out. */
  ghost predicate IdsBelow(users: map<UserId, User>, banks: map<BankId, Bank>, accounts: map<AccountId, Account>,
                           txs: map<TxId, Transaction>, next: nat)
  {
    && (forall u | u in users :: u < next)
    && (forall b | b in banks :: b < next)
    && (forall a | a in accounts :: a < next)
    && (forall t | t in txs :: t < next)
  }

  /**
   * Every bank's manager is a stored user, every account refers to a stored user and
   * bank, every transaction and every change to a stored account, and every change to
   * the transaction that made it.
   */
  ghost predicate ReferencesHold(users: map<UserId, User>, banks: map<BankId, Bank>,
                                 accounts: map<AccountId, Account>, txs: map<TxId, Transaction>, log: History)
  {
    && (forall b | b in banks && banks[b].manager.Some? :: banks[b].manager.value in users)
    && (forall a | a in accounts :: accounts[a].userId in users && accounts[a].bankId in banks)
    && (forall t | t in txs :: txs[t].accountId in accounts)
    && Within(log, accounts.Keys)
    && Recorded(log, txs)
  }

  /** Every amount is positive, and no transaction is linked to a transfer partner. */
  ghost predicate TransactionsWellFormed(txs: map<TxId, Transaction>) {
    forall t | t in txs :: txs[t].amount > 0 && txs[t].transferId == None
  }

  /** Every balance is non-negative and is exactly the net effect of the changes applied to it. */
  ghost predicate BalancesMatchHistory(accounts: map<AccountId, Account>, log: History) {
    forall a | a in accounts :: accounts[a].balance >= 0 && accounts[a].balance == NetEffect(log, a)
  }

  /** Every stored account number passes the transfer route's twelve-digit check. */
  ghost predicate NumbersWellFormed(accounts: map<AccountId, Account>) {
    forall a | a in accounts :: IsTwelveDigits(accounts[a].number)
  }

  /** Every part of the invariant except the balances. */
  ghost predicate Structure(users: map<UserId, User>, banks: map<BankId, Bank>, accounts: map<AccountId, Account>,
                            txs: map<TxId, Transaction>, next: nat, log: History)
  {
    && IdsBelow(users, banks, accounts, txs, next)
    && ReferencesHold(users, banks, accounts, txs, log)
    && TransactionsWellFormed(txs)
    && UniqueContacts(users)
    && UniqueNumbers(accounts)
    && NumbersWellFormed(accounts)
  }

  /** The invariant of the stored collections that every route preserves. */
  ghost predicate Consistent(users: map<UserId, User>, banks: map<BankId, Bank>, accounts: map<AccountId, Account>,
                             txs: map<TxId, Transaction>, next: nat, log: History)
  {
    Structure(users, banks, accounts, txs, next, log) && BalancesMatchHistory(accounts, log)
  }

  /** accounts' holds the same accounts as accounts, with the same owners, banks and numbers. */
  ghost predicate SameShape(accounts: map<AccountId, Account>, accounts': map<AccountId, Account>) {
    && accounts'.Keys == accounts.Keys
    && forall a | a in accounts ::
         && accounts'[a].userId == accounts[a].userId
         && accounts'[a].bankId == accounts[a].bankId
         && accounts'[a].number == accounts[a].number
  }

  lemma ShapeKeepsStructure(users: map<UserId, User>, banks: map<BankId, Bank>, accounts: map<AccountId, Account>,
                            accounts': map<AccountId, Account>, txs: map<TxId, Transaction>, next: nat, log: History)
    requires Structure(users, banks, accounts, txs, next, log) && SameShape(accounts, accounts')
    ensures Structure(users, banks, accounts', txs, next, log)
  {
  }

  lemma HistoryGrowsKeepsStructure(users: map<UserId, User>, banks: map<BankId, Bank>, accounts: map<AccountId, Account>,
                                   txs: map<TxId, Transaction>, next: nat, log: History, e: Applied)
    requires Structure(users, banks, accounts, txs, next, log) && e.account in accounts
    requires e.tx in txs && txs[e.tx].accountId == e.account && txs[e.tx].kind == e.kind && txs[e.tx].amount == e.amount
    ensures Structure(users, banks, accounts, txs, next, After(log, e))
  {
  }

  /** Applying one change to one balance and recording it keeps every balance equal to its history. */
  lemma BalancesAfterApply(accounts: map<AccountId, Account>, log: History, e: Applied)
    requires BalancesMatchHistory(accounts, log)
    requires e.account in accounts && accounts[e.account].balance + Signed(e.kind, e.amount) >= 0
    ensures BalancesMatchHistory(Credited(accounts, e.account, Signed(e.kind, e.amount)), After(log, e))
  {
  }

  lemma AddUserKeeps(users: map<UserId, User>, banks: map<BankId, Bank>, accounts: map<AccountId, Account>,
                     txs: map<TxId, Transaction>, next: nat, log: History, user: User)
    requires Consistent(users, banks, accounts, txs, next, log)
    requires !EmailInUse(users, user.email) && !PhoneInUse(users, user.phone)
    ensures Consistent(users[next := user], banks, accounts, txs, next + 1, log)
  {
  }

  lemma AddAccountKeeps(users: map<UserId, User>, banks: map<BankId, Bank>, accounts: map<AccountId, Account>,
                        txs: map<TxId, Transaction>, next: nat, log: History, acc: Account)
    requires Consistent(users, banks, accounts, txs, next, log)
    requires acc.userId in users && acc.bankId in banks && acc.balance == 0
    requires !NumberInUse(accounts, acc.number) && IsTwelveDigits(acc.number)
    ensures Consistent(users, banks, accounts[next := acc], txs, next + 1, log)
  {
    NetEffectOutside(log, accounts.Keys, next);
    WithinGrows(log, accounts.Keys, accounts[next := acc].Keys);
  }

  lemma AddTransactionKeeps(users: map<UserId, User>, banks: map<BankId, Bank>, accounts: map<AccountId, Account>,
                            txs: map<TxId, Transaction>, next: nat, log: History, t: Transaction)
    requires Consistent(users, banks, accounts, txs, next, log)
    requires t.accountId in accounts && t.amount > 0 && t.transferId == None
    ensures Consistent(users, banks, accounts, txs[next := t], next + 1, log)
  {
    RecordedAfterInsert(log, txs, next, t);
  }

  lemma SetAccountStatusKeeps(users: map<UserId, User>, banks: map<BankId, Bank>, accounts: map<AccountId, Account>,
                              txs: map<TxId, Transaction>, next: nat, log: History, a: AccountId, st: Status)
    requires Consistent(users, banks, accounts, txs, next, log)
    requires a in accounts
    ensures Consistent(users, banks, accounts[a := accounts[a].(status := st)], txs, next, log)
  {
    ShapeKeepsStructure(users, banks, accounts, accounts[a := accounts[a].(status := st)], txs, next, log);
  }

  lemma SetTransactionStatusKeeps(users: map<UserId, User>, banks: map<BankId, Bank>, accounts: map<AccountId, Account>,
                                  txs: map<TxId, Transaction>, next: nat, log: History, t: TxId, st: Status)
    requires Consistent(users, banks, accounts, txs, next, log)
    requires t in txs
    ensures Consistent(users, banks, accounts, txs[t := txs[t].(status := st)], next, log)
  {
    RecordedAfterStatus(log, txs, t, st);
  }

  /** accounts with delta added to the balance of account a. */
  function Credited(accounts: map<AccountId, Account>, a: AccountId, delta: int): (credited: map<AccountId, Account>)
    requires a in accounts
  {
    accounts[a := accounts[a].(balance := accounts[a].balance + delta)]
  }

  lemma ApplyKeeps(users: map<UserId, User>, banks: map<BankId, Bank>, accounts: map<AccountId, Account>,
                   txs: map<TxId, Transaction>, next: nat, log: History, e: Applied)
    requires Consistent(users, banks, accounts, txs, next, log)
    requires e.account in accounts && accounts[e.account].balance + Signed(e.kind, e.amount) >= 0
    requires e.tx in txs && txs[e.tx].accountId == e.account && txs[e.tx].kind == e.kind && txs[e.tx].amount == e.amount
    ensures Consistent(users, banks, Credited(accounts, e.account, Signed(e.kind, e.amount)), txs, next, After(log, e))
  {
    var accounts' := Credited(accounts, e.account, Signed(e.kind, e.amount));
    ShapeKeepsStructure(users, banks, accounts, accounts', txs, next, log);
    HistoryGrowsKeepsStructure(users, banks, accounts', txs, next, log, e);
    BalancesAfterApply(accounts, log, e);
  }

}
