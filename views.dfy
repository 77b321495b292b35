/**
 * The read-only views: the customer dashboard, the customer's transaction history,
 * the bank list and the four lists of the manager dashboard. Each is a filter over
 * the stored collections. A transaction whose account is missing is left out of the
 * manager dashboard's transaction lists; a customer-dashboard line whose bank is
 * missing is kept with no bank name.
 */
module Views {
  import opened Records

  /** The accounts held at bank b. */
  function BankAccounts(accounts: map<AccountId, Account>, b: BankId): (r: map<AccountId, Account>)
    ensures r.Keys <= accounts.Keys
    ensures forall a | a in accounts :: a in r <==> accounts[a].bankId == b
    ensures forall a | a in r :: r[a] == accounts[a]
  {
    map a | a in accounts && accounts[a].bankId == b :: accounts[a]
  }

  /** The accounts of bank b still waiting for a decision. */
  function PendingAccounts(accounts: map<AccountId, Account>, b: BankId): (r: map<AccountId, Account>)
    ensures r.Keys <= BankAccounts(accounts, b).Keys
    ensures forall a | a in BankAccounts(accounts, b) :: a in r <==> accounts[a].status == Pending
    ensures forall a | a in r :: r[a] == accounts[a]
  {
    map a | a in accounts && accounts[a].bankId == b && accounts[a].status == Pending :: accounts[a]
  }

  /** The transactions on accounts of bank b. */
  function BankTransactions(txs: map<TxId, Transaction>, accounts: map<AccountId, Account>, b: BankId)
    : (r: map<TxId, Transaction>)
    ensures r.Keys <= txs.Keys
    ensures forall t | t in txs :: t in r <==> txs[t].accountId in BankAccounts(accounts, b)
    ensures forall t | t in r :: r[t] == txs[t]
  {
    map t | t in txs && txs[t].accountId in accounts && accounts[txs[t].accountId].bankId == b :: txs[t]
  }

  /** The pending transactions on accounts of bank b. */
  function PendingTransactions(txs: map<TxId, Transaction>, accounts: map<AccountId, Account>, b: BankId)
    : (r: map<TxId, Transaction>)
    ensures r.Keys <= BankTransactions(txs, accounts, b).Keys
    ensures forall t | t in BankTransactions(txs, accounts, b) :: t in r <==> txs[t].status == Pending
    ensures forall t | t in r :: r[t] == txs[t]
  {
    map t | t in txs && txs[t].status == Pending && txs[t].accountId in accounts
                     && accounts[txs[t].accountId].bankId == b :: txs[t]
  }

  datatype Dashboard = Dashboard(
    pendingAccounts: map<AccountId, Account>,
    pendingTransactions: map<TxId, Transaction>,
    allAccounts: map<AccountId, Account>,
    allTransactions: map<TxId, Transaction>)

  /** The manager dashboard of bank b: each pending list lies inside the matching full list. */
  function DashboardOf(accounts: map<AccountId, Account>, txs: map<TxId, Transaction>, b: BankId)
    : (d: Dashboard)
    ensures d.pendingAccounts.Keys <= d.allAccounts.Keys
    ensures d.pendingTransactions.Keys <= d.allTransactions.Keys
    ensures forall a | a in d.allAccounts :: a in accounts && accounts[a].bankId == b
    ensures forall t | t in d.allTransactions :: d.allTransactions[t].accountId in d.allAccounts
  {
    Dashboard(PendingAccounts(accounts, b), PendingTransactions(txs, accounts, b),
              BankAccounts(accounts, b), BankTransactions(txs, accounts, b))
  }

  /** The ids of the accounts that user u holds. */
  function OwnedBy(accounts: map<AccountId, Account>, u: UserId): (ids: set<AccountId>)
    ensures ids <= accounts.Keys
    ensures forall a | a in accounts :: a in ids <==> accounts[a].userId == u
  {
    set a | a in accounts && accounts[a].userId == u
  }

  /** One line of the customer dashboard: an account with the name of its bank joined in. */
  datatype AccountSummary = AccountSummary(
    holderName: string,
    number: string,
    balance: int,
    status: Status,
    bankId: BankId,
    bankName: Option<string>)

  function Summary(acc: Account, banks: map<BankId, Bank>): (line: AccountSummary) {
    AccountSummary(acc.holderName, acc.number, acc.balance, acc.status, acc.bankId,
                   if acc.bankId in banks then Some(banks[acc.bankId].name) else None)
  }

  /** The customer dashboard: every account u holds, and none other, with balance and status. */
  function CustomerDashboard(accounts: map<AccountId, Account>, banks: map<BankId, Bank>, u: UserId)
    : (r: map<AccountId, AccountSummary>)
    ensures r.Keys == OwnedBy(accounts, u)
    ensures forall a | a in r :: r[a].balance == accounts[a].balance && r[a].status == accounts[a].status
                                 && r[a].number == accounts[a].number
    ensures forall a | a in r ::
              && r[a].holderName == accounts[a].holderName && r[a].bankId == accounts[a].bankId
              && r[a].bankName == (if accounts[a].bankId in banks then Some(banks[accounts[a].bankId].name) else None)
  {
    map a | a in accounts && accounts[a].userId == u :: Summary(accounts[a], banks)
  }

  /** The customer history: exactly the approved transactions on accounts u holds. */
  function CustomerHistory(txs: map<TxId, Transaction>, accounts: map<AccountId, Account>, u: UserId)
    : (r: map<TxId, Transaction>)
    ensures r.Keys <= txs.Keys
    ensures forall t | t in txs :: t in r <==> txs[t].status == Approved && txs[t].accountId in OwnedBy(accounts, u)
    ensures forall t | t in r :: r[t] == txs[t]
  {
    var owned := OwnedBy(accounts, u);
    map t | t in txs && txs[t].status == Approved && txs[t].accountId in owned :: txs[t]
  }

  /** The bank list: the id and name of every bank. */
  function BankDirectory(banks: map<BankId, Bank>): (r: map<BankId, string>)
    ensures r.Keys == banks.Keys
    ensures forall b | b in r :: r[b] == banks[b].name
  {
    map b | b in banks :: banks[b].name
  }
}
