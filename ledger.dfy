/**
 * The routes that change the stored collections, as methods of one Ledger object
 * holding the four collections: each request either fails with an error and changes
 * nothing, or saves exactly the documents the route saves, and every one of them
 * keeps the ledger's invariant.
 */
module LedgerCore {
  import opened AccountNumbers
  import opened Records
  import opened Views
  import opened LedgerState

  class Ledger {
    var users: map<UserId, User>
    var banks: map<BankId, Bank>
    var accounts: map<AccountId, Account>
    var transactions: map<TxId, Transaction>
    /** The next document id; every id in use lies below it. */
    var nextId: nat
    /** Every balance change made so far, in the order it was made. */
    ghost var applied: History

    ghost predicate Valid()
      reads this
    {
      Consistent(users, banks, accounts, transactions, nextId, applied)
    }

    /**
     * A ledger over the users and banks that exist before any request (managers and
     * banks are created outside the routes); there are no accounts or transactions yet.
     */
    constructor (users0: map<UserId, User>, banks0: map<BankId, Bank>, firstId: nat)
      requires forall u | u in users0 :: u < firstId
      requires forall b | b in banks0 :: b < firstId
      requires UniqueContacts(users0)
      requires forall b | b in banks0 && banks0[b].manager.Some? :: banks0[b].manager.value in users0
      ensures Valid()
      ensures users == users0 && banks == banks0 && accounts == map[] && transactions == map[]
      ensures nextId == firstId && applied == Start
    {
      users, banks, accounts, transactions := users0, banks0, map[], map[];
      nextId := firstId;
      applied := Start;
    }

    /** POST /signup: a new customer, unless the email or else the phone is taken. */
    method Signup(name: string, email: string, phone: string, credential: Credential)
      returns (r: Result<UserId>)
      requires Valid()
      modifies this
      ensures Valid()
      ensures EmailInUse(old(users), email) ==> r == Err(EmailExists)
      ensures !EmailInUse(old(users), email) && PhoneInUse(old(users), phone) ==> r == Err(PhoneExists)
      ensures (!EmailInUse(old(users), email) && !PhoneInUse(old(users), phone)
               && (name == [] || email == [] || phone == [])) ==> r == Err(ValidationFailed)
      ensures r.Ok? <==> !EmailInUse(old(users), email) && !PhoneInUse(old(users), phone)
                         && name != [] && email != [] && phone != []
      ensures r.Err? ==> unchanged(this)
      ensures r.Ok? ==> r.value !in old(users)
                        && users == old(users)[r.value := User(name, email, phone, credential, Customer)]
      ensures r.Ok? ==> banks == old(banks) && accounts == old(accounts)
                        && transactions == old(transactions) && applied == old(applied)
    {
      if EmailInUse(users, email) {
        return Err(EmailExists);
      }
      if PhoneInUse(users, phone) {
        return Err(PhoneExists);
      }
      if name == [] || email == [] || phone == [] {
        return Err(ValidationFailed);
      }
      var id := nextId;
      AddUserKeeps(users, banks, accounts, transactions, nextId, applied, User(name, email, phone, credential, Customer));
      users := users[id := User(name, email, phone, credential, Customer)];
      nextId := nextId + 1;
      r := Ok(id);
    }

    /**
     * POST /login. A customer logs in by email; a manager by name and bank name, both
     * compared after case folding. The password check is the given predicate. Where
     * several managers share a folded name, which one is looked at is unspecified.
     */
    method Login(email: string, name: string, bankName: string, password: string,
                 matches: (string, Credential) -> bool, fold: string -> string)
      returns (r: Result<(UserId, Role)>)
      ensures email != [] && !EmailInUse(users, email) ==> r == Err(UserNotFound)
      ensures (email != [] && UniqueContacts(users)
               && exists u | u in users :: users[u].email == email && users[u].role == Manager) ==> r == Err(UseManagerLogin)
      ensures (email != [] && UniqueContacts(users)
               && exists u | u in users :: users[u].email == email && users[u].role == Customer
                                           && !matches(password, users[u].password)) ==> r == Err(InvalidPassword)
      ensures email != [] && r.Ok? ==>
                r.value.0 in users && users[r.value.0].email == email && users[r.value.0].role == Customer
                && r.value.1 == Customer && matches(password, users[r.value.0].password)
      ensures email != [] && UniqueContacts(users) ==>
                (r.Ok? <==> exists u | u in users :: users[u].email == email && users[u].role == Customer
                                                     && matches(password, users[u].password))
      ensures email == [] && (name == [] || bankName == []) ==> r == Err(InvalidLoginDetails)
      ensures (email == [] && name != [] && bankName != []
               && forall u | u in users :: !IsManagerNamed(users, u, name, fold)) ==> r == Err(ManagerNotFound)
      ensures (email == [] && name != [] && bankName != [] && SoleManagerNamed(users, name, fold)
               && exists u | u in users :: IsManagerNamed(users, u, name, fold)
                                           && !RunsBankNamed(banks, u, bankName, fold)) ==> r == Err(NotManagerOfBank)
      ensures (email == [] && name != [] && bankName != [] && SoleManagerNamed(users, name, fold)
               && exists u | u in users :: IsManagerNamed(users, u, name, fold) && RunsBankNamed(banks, u, bankName, fold)
                                           && !matches(password, users[u].password)) ==> r == Err(InvalidPassword)
      ensures email == [] && name != [] && bankName != [] && SoleManagerNamed(users, name, fold) ==>
                (r.Ok? <==> exists u | u in users :: IsManagerNamed(users, u, name, fold)
                                                     && RunsBankNamed(banks, u, bankName, fold)
                                                     && matches(password, users[u].password))
      ensures email == [] && r.Ok? ==>
                IsManagerNamed(users, r.value.0, name, fold) && r.value.1 == Manager
                && RunsBankNamed(banks, r.value.0, bankName, fold) && matches(password, users[r.value.0].password)
    {
      var u: UserId;
      if email != [] {
        if !EmailInUse(users, email) {
          return Err(UserNotFound);
        }
        u :| u in users && users[u].email == email;
        if users[u].role != Customer {
          return Err(UseManagerLogin);
        }
      } else if name != [] && bankName != [] {
        if !exists v | v in users :: IsManagerNamed(users, v, name, fold) {
          return Err(ManagerNotFound);
        }
        u :| u in users && IsManagerNamed(users, u, name, fold);
        if !RunsBankNamed(banks, u, bankName, fold) {
          return Err(NotManagerOfBank);
        }
      } else {
        return Err(InvalidLoginDetails);
      }
      if !matches(password, users[u].password) {
        return Err(InvalidPassword);
      }
      r := Ok((u, users[u].role));
    }

    /**
     * POST /open-account: a new pending account with balance 0 and the account number
     * drawn by `draw`, for an existing customer at an existing bank.
     */
    method OpenAccount(userId: UserId, bankId: BankId, holderName: string, draw: Draw)
      returns (r: Result<(AccountId, string)>)
      requires Valid()
      modifies this
      ensures Valid()
      ensures !IsCustomer(old(users), userId) ==> r == Err(InvalidUser)
      ensures IsCustomer(old(users), userId) && bankId !in old(banks) ==> r == Err(BankNotFound)
      ensures IsCustomer(old(users), userId) && bankId in old(banks) && holderName == [] ==> r == Err(ValidationFailed)
      ensures (IsCustomer(old(users), userId) && bankId in old(banks) && holderName != []
               && NumberInUse(old(accounts), Generate(draw))) ==> r == Err(DuplicateAccountNumber)
      ensures r.Ok? <==> IsCustomer(old(users), userId) && bankId in old(banks) && holderName != []
                         && !NumberInUse(old(accounts), Generate(draw))
      ensures r.Err? ==> unchanged(this)
      ensures r.Ok? ==> r.value.0 !in old(accounts)
                        && accounts == old(accounts)[r.value.0 := NewAccount(userId, bankId, holderName, draw)]
                        && r.value.1 == accounts[r.value.0].number && IsTwelveDigits(r.value.1)
      ensures r.Ok? ==> users == old(users) && banks == old(banks)
                        && transactions == old(transactions) && applied == old(applied)
    {
      if userId !in users || users[userId].role != Customer {
        return Err(InvalidUser);
      }
      if bankId !in banks {
        return Err(BankNotFound);
      }
      var acc := NewAccount(userId, bankId, holderName, draw);
      if holderName == [] {
        return Err(ValidationFailed);
      }
      if NumberInUse(accounts, acc.number) {
        return Err(DuplicateAccountNumber);
      }
      var id := nextId;
      AddAccountKeeps(users, banks, accounts, transactions, nextId, applied, acc);
      accounts := accounts[id := acc];
      nextId := nextId + 1;
      r := Ok((id, acc.number));
    }

    /** POST /transaction: a pending deposit or withdrawal on an approved account. */
    method SubmitTransaction(accountId: AccountId, kind: string, amount: int) returns (r: Result<TxId>)
      requires Valid()
      modifies this
      ensures Valid()
      ensures ParseTxType(kind).None? ==> r == Err(InvalidTransactionType)
      ensures ParseTxType(kind).Some? && amount <= 0 ==> r == Err(NonPositiveAmount)
      ensures (ParseTxType(kind).Some? && amount > 0
               && (accountId !in old(accounts) || old(accounts)[accountId].status != Approved)) ==> r == Err(AccountNotApproved)
      ensures r.Ok? <==> ParseTxType(kind).Some? && amount > 0
                         && accountId in old(accounts) && old(accounts)[accountId].status == Approved
      ensures r.Err? ==> unchanged(this)
      ensures r.Ok? ==> r.value !in old(transactions)
                        && transactions == old(transactions)[r.value := NewTransaction(accountId, ParseTxType(kind).value, amount)]
      ensures r.Ok? ==> users == old(users) && banks == old(banks)
                        && accounts == old(accounts) && applied == old(applied)
    {
      var parsed := ParseTxType(kind);
      if parsed.None? {
        return Err(InvalidTransactionType);
      }
      if amount <= 0 {
        return Err(NonPositiveAmount);
      }
      if accountId !in accounts || accounts[accountId].status != Approved {
        return Err(AccountNotApproved);
      }
      var id := nextId;
      AddTransactionKeeps(users, banks, accounts, transactions, nextId, applied, NewTransaction(accountId, parsed.value, amount));
      transactions := transactions[id := NewTransaction(accountId, parsed.value, amount)];
      nextId := nextId + 1;
      r := Ok(id);
    }

    /**
     * POST /transfer: two unlinked pending transactions, a withdrawal on the source
     * and a deposit on the approved account with the given number. The source's
     * balance must cover the amount now; it is checked again when the withdrawal is approved.
     */
    method Transfer(fromId: AccountId, toNumber: string, amount: int) returns (r: Result<(TxId, TxId)>)
      requires Valid()
      modifies this
      ensures Valid()
      ensures !IsTwelveDigits(toNumber) ==> r == Err(BadAccountNumber)
      ensures IsTwelveDigits(toNumber) && amount <= 0 ==> r == Err(NonPositiveAmount)
      ensures (IsTwelveDigits(toNumber) && amount > 0
               && (fromId !in old(accounts) || old(accounts)[fromId].status != Approved)) ==> r == Err(SourceNotApproved)
      ensures (IsTwelveDigits(toNumber) && amount > 0 && fromId in old(accounts)
               && old(accounts)[fromId].status == Approved && old(accounts)[fromId].balance < amount) ==> r == Err(InsufficientFunds)
      ensures (IsTwelveDigits(toNumber) && amount > 0 && fromId in old(accounts)
               && old(accounts)[fromId].status == Approved && old(accounts)[fromId].balance >= amount
               && forall a | a in old(accounts) :: !ApprovedWithNumber(old(accounts), a, toNumber)) ==> r == Err(DestinationNotApproved)
      ensures r.Ok? <==>
                IsTwelveDigits(toNumber) && amount > 0
                && fromId in old(accounts) && old(accounts)[fromId].status == Approved
                && old(accounts)[fromId].balance >= amount
                && exists a | a in old(accounts) :: ApprovedWithNumber(old(accounts), a, toNumber)
      ensures r.Err? ==> unchanged(this)
      ensures r.Ok? ==>
                var (w, d) := r.value;
                w != d && w !in old(transactions) && d !in old(transactions) && d in transactions
                && ApprovedWithNumber(old(accounts), transactions[d].accountId, toNumber)
                && transactions == old(transactions)[w := NewTransaction(fromId, Withdrawal, amount)]
                                                    [d := NewTransaction(transactions[d].accountId, Deposit, amount)]
      ensures r.Ok? ==> users == old(users) && banks == old(banks)
                        && accounts == old(accounts) && applied == old(applied)
    {
      if !IsTwelveDigits(toNumber) {
        return Err(BadAccountNumber);
      }
      if amount <= 0 {
        return Err(NonPositiveAmount);
      }
      if fromId !in accounts || accounts[fromId].status != Approved {
        return Err(SourceNotApproved);
      }
      if accounts[fromId].balance < amount {
        return Err(InsufficientFunds);
      }
      if !exists a | a in accounts :: ApprovedWithNumber(accounts, a, toNumber) {
        return Err(DestinationNotApproved);
      }
      var to :| to in accounts && ApprovedWithNumber(accounts, to, toNumber);
      var w, d := nextId, nextId + 1;
      AddTransactionKeeps(users, banks, accounts, transactions, w, applied, NewTransaction(fromId, Withdrawal, amount));
      AddTransactionKeeps(users, banks, accounts, transactions[w := NewTransaction(fromId, Withdrawal, amount)], d,
                          applied, NewTransaction(to, Deposit, amount));
      transactions := transactions[w := NewTransaction(fromId, Withdrawal, amount)];
      transactions := transactions[d := NewTransaction(to, Deposit, amount)];
      nextId := nextId + 2;
      r := Ok((w, d));
    }

    /**
     * POST /admin/approve-account: the manager of the account's bank sets its status
     * to any status the enum allows, whatever the status was before.
     */
    method DecideAccount(accountId: AccountId, status: string, managerId: UserId) returns (r: Result<Status>)
      requires Valid()
      modifies this
      ensures Valid()
      ensures !IsManager(old(users), managerId) ==> r == Err(Unauthorized)
      ensures IsManager(old(users), managerId) && accountId !in old(accounts) ==> r == Err(AccountNotFound)
      ensures (IsManager(old(users), managerId) && accountId in old(accounts)
               && !HasManager(old(banks), old(accounts), accountId)) ==> r == Err(BrokenReference)
      ensures (IsManager(old(users), managerId) && HasManager(old(banks), old(accounts), accountId)
               && !MayDecide(old(users), old(banks), old(accounts), managerId, accountId)) ==> r == Err(NotAuthorizedForBank)
      ensures (MayDecide(old(users), old(banks), old(accounts), managerId, accountId)
               && ParseStatus(status).None?) ==> r == Err(ValidationFailed)
      ensures r.Ok? <==> MayDecide(old(users), old(banks), old(accounts), managerId, accountId)
                         && ParseStatus(status).Some?
      ensures r.Err? ==> unchanged(this)
      ensures r.Ok? ==> StatusName(r.value) == status
                        && accounts == old(accounts)[accountId := old(accounts)[accountId].(status := r.value)]
      ensures r.Ok? ==> users == old(users) && banks == old(banks)
                        && transactions == old(transactions) && applied == old(applied) && nextId == old(nextId)
    {
      if managerId !in users || users[managerId].role != Manager {
        return Err(Unauthorized);
      }
      if accountId !in accounts {
        return Err(AccountNotFound);
      }
      var acc := accounts[accountId];
      if acc.bankId !in banks || banks[acc.bankId].manager.None? {
        return Err(BrokenReference);
      }
      if banks[acc.bankId].manager.value != managerId {
        return Err(NotAuthorizedForBank);
      }
      var parsed := ParseStatus(status);
      if parsed.None? {
        return Err(ValidationFailed);
      }
      SetAccountStatusKeeps(users, banks, accounts, transactions, nextId, applied, accountId, parsed.value);
      accounts := accounts[accountId := acc.(status := parsed.value)];
      r := Ok(parsed.value);
    }

    /**
     * POST /admin/approve-transaction: the manager of the bank of the transaction's
     * account sets its status. Approving applies the transaction to the balance again
     * each time, whatever the status was; a withdrawal the balance does not cover
     * fails before anything is saved.
     */
    method DecideTransaction(txId: TxId, status: string, managerId: UserId) returns (r: Result<Status>)
      requires Valid()
      modifies this
      ensures Valid()
      ensures !IsManager(old(users), managerId) ==> r == Err(Unauthorized)
      ensures IsManager(old(users), managerId) && txId !in old(transactions) ==> r == Err(TransactionNotFound)
      ensures (IsManager(old(users), managerId) && txId in old(transactions)
               && !HasManager(old(banks), old(accounts), old(transactions)[txId].accountId)) ==> r == Err(BrokenReference)
      ensures (IsManager(old(users), managerId) && txId in old(transactions)
               && HasManager(old(banks), old(accounts), old(transactions)[txId].accountId)
               && !MayDecide(old(users), old(banks), old(accounts), managerId, old(transactions)[txId].accountId))
              ==> r == Err(NotAuthorizedForBank)
      ensures (txId in old(transactions)
               && MayDecide(old(users), old(banks), old(accounts), managerId, old(transactions)[txId].accountId)
               && ParseStatus(status).None?) ==> r == Err(ValidationFailed)
      ensures (txId in old(transactions)
               && MayDecide(old(users), old(banks), old(accounts), managerId, old(transactions)[txId].accountId)
               && status == "approved"
               && ApplyApproval(old(accounts)[old(transactions)[txId].accountId].balance,
                                old(transactions)[txId].kind, old(transactions)[txId].amount).None?)
              ==> r == Err(InsufficientFunds)
      ensures r.Ok? <==>
                txId in old(transactions)
                && MayDecide(old(users), old(banks), old(accounts), managerId, old(transactions)[txId].accountId)
                && ParseStatus(status).Some?
                && (status == "approved" ==>
                      ApplyApproval(old(accounts)[old(transactions)[txId].accountId].balance,
                                    old(transactions)[txId].kind, old(transactions)[txId].amount).Some?)
      ensures r.Err? ==> unchanged(this)
      ensures r.Ok? ==>
                StatusName(r.value) == status
                && transactions == old(transactions)[txId := old(transactions)[txId].(status := r.value)]
      ensures r.Ok? && r.value != Approved ==> accounts == old(accounts) && applied == old(applied)
      ensures r.Ok? && r.value == Approved ==>
                var t := old(transactions)[txId];
                accounts == Credited(old(accounts), t.accountId, Signed(t.kind, t.amount))
                && applied == After(old(applied), Applied(txId, t.accountId, t.kind, t.amount))
      ensures r.Ok? ==> users == old(users) && banks == old(banks) && nextId == old(nextId)
    {
      if managerId !in users || users[managerId].role != Manager {
        return Err(Unauthorized);
      }
      if txId !in transactions {
        return Err(TransactionNotFound);
      }
      var t := transactions[txId];
      if t.accountId !in accounts {
        return Err(BrokenReference);
      }
      var acc := accounts[t.accountId];
      if acc.bankId !in banks || banks[acc.bankId].manager.None? {
        return Err(BrokenReference);
      }
      if banks[acc.bankId].manager.value != managerId {
        return Err(NotAuthorizedForBank);
      }
      r := RecordDecision(txId, status);
    }

    /**
     * The saving half of a transaction decision, once the caller is authorised: an
     * approval applies the transaction's effect, any other valid status is only stored.
     */
    method RecordDecision(txId: TxId, status: string) returns (r: Result<Status>)
      requires Valid()
      requires txId in transactions && transactions[txId].accountId in accounts
      modifies this
      ensures Valid()
      ensures ParseStatus(status).None? ==> r == Err(ValidationFailed)
      ensures (status == "approved"
               && ApplyApproval(old(accounts)[old(transactions)[txId].accountId].balance,
                                old(transactions)[txId].kind, old(transactions)[txId].amount).None?)
              ==> r == Err(InsufficientFunds)
      ensures r.Ok? <==>
                ParseStatus(status).Some?
                && (status == "approved" ==>
                      ApplyApproval(old(accounts)[old(transactions)[txId].accountId].balance,
                                    old(transactions)[txId].kind, old(transactions)[txId].amount).Some?)
      ensures r.Err? ==> unchanged(this)
      ensures r.Ok? ==>
                StatusName(r.value) == status
                && transactions == old(transactions)[txId := old(transactions)[txId].(status := r.value)]
      ensures r.Ok? && r.value != Approved ==> accounts == old(accounts) && applied == old(applied)
      ensures r.Ok? && r.value == Approved ==>
                var t := old(transactions)[txId];
                accounts == Credited(old(accounts), t.accountId, Signed(t.kind, t.amount))
                && applied == After(old(applied), Applied(txId, t.accountId, t.kind, t.amount))
      ensures r.Ok? ==> users == old(users) && banks == old(banks) && nextId == old(nextId)
    {
      if status == "approved" {
        r := ApplyApproved(txId);
        return;
      }
      var t := transactions[txId];
      var parsed := ParseStatus(status);
      if parsed.None? {
        return Err(ValidationFailed);
      }
      SetTransactionStatusKeeps(users, banks, accounts, transactions, nextId, applied, txId, parsed.value);
      transactions := transactions[txId := t.(status := parsed.value)];
      r := Ok(parsed.value);
    }

    /**
     * Approving a transaction: a deposit adds its amount to its account's balance, a
     * withdrawal takes its amount away when the balance covers it and otherwise fails
     * with nothing saved.
     */
    method ApplyApproved(txId: TxId) returns (r: Result<Status>)
      requires Valid()
      requires txId in transactions && transactions[txId].accountId in accounts
      modifies this
      ensures Valid()
      ensures var t := old(transactions)[txId];
              r.Ok? <==> ApplyApproval(old(accounts)[t.accountId].balance, t.kind, t.amount).Some?
      ensures r.Err? ==> r == Err(InsufficientFunds) && unchanged(this)
      ensures r.Ok? ==>
                var t := old(transactions)[txId];
                && r.value == Approved
                && transactions == old(transactions)[txId := t.(status := Approved)]
                && accounts == Credited(old(accounts), t.accountId, Signed(t.kind, t.amount))
                && applied == After(old(applied), Applied(txId, t.accountId, t.kind, t.amount))
                && users == old(users) && banks == old(banks) && nextId == old(nextId)
    {
      var t := transactions[txId];
      var acc := accounts[t.accountId];
      var balance := ApplyApproval(acc.balance, t.kind, t.amount);
      if balance.None? {
        return Err(InsufficientFunds);
      }
      var e := Applied(txId, t.accountId, t.kind, t.amount);
      ApplyKeeps(users, banks, accounts, transactions, nextId, applied, e);
      SetTransactionStatusKeeps(users, banks, Credited(accounts, t.accountId, Signed(t.kind, t.amount)), transactions,
                                nextId, After(applied, e), txId, Approved);
      accounts := Credited(accounts, t.accountId, Signed(t.kind, t.amount));
      applied := After(applied, e);
      transactions := transactions[txId := t.(status := Approved)];
      r := Ok(Approved);
    }

    /**
     * GET /admin-dashboard/:managerId: the four lists of one bank that the caller
     * manages; which bank, when the caller manages several, is unspecified.
     */
    method AdminDashboard(managerId: UserId) returns (r: Result<Dashboard>)
      ensures !IsManager(users, managerId) ==> r == Err(Unauthorized)
      ensures IsManager(users, managerId) && (forall b :: !ManagedBy(banks, b, managerId)) ==> r == Err(BankNotFound)
      ensures r.Ok? <==> IsManager(users, managerId) && exists b :: ManagedBy(banks, b, managerId)
      ensures r.Ok? ==> exists b :: ManagedBy(banks, b, managerId) && r.value == DashboardOf(accounts, transactions, b)
    {
      if managerId !in users || users[managerId].role != Manager {
        return Err(Unauthorized);
      }
      if !exists b | b in banks :: banks[b].manager == Some(managerId) {
        return Err(BankNotFound);
      }
      var b :| b in banks && banks[b].manager == Some(managerId);
      assert ManagedBy(banks, b, managerId);
      r := Ok(DashboardOf(accounts, transactions, b));
    }
  }

  /**
   * The manager dashboard lists exactly what its manager may decide: every account and
   * every transaction on it belongs to the bank the manager runs.
   */
  lemma DashboardWithinAuthority(users: map<UserId, User>, banks: map<BankId, Bank>,
                                 accounts: map<AccountId, Account>, txs: map<TxId, Transaction>,
                                 m: UserId, b: BankId)
    requires IsManager(users, m) && ManagedBy(banks, b, m)
    ensures forall a | a in DashboardOf(accounts, txs, b).allAccounts :: MayDecide(users, banks, accounts, m, a)
    ensures forall t | t in DashboardOf(accounts, txs, b).allTransactions ::
              t in txs && MayDecide(users, banks, accounts, m, txs[t].accountId)
    ensures forall a | a in accounts && MayDecide(users, banks, accounts, m, a) && accounts[a].bankId == b ::
              a in DashboardOf(accounts, txs, b).allAccounts
  {
  }
}
