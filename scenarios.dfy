/**
 * Clients of the ledger that follow requests from signup to approval and state,
 * from the methods' contracts alone, what each response and the final state are.
 */
module Scenarios {
  import opened AccountNumbers
  import opened Records
  import opened LedgerState
  import opened LedgerCore

  /** A ledger seeded with one manager (id 0) running one bank (id 1). */
  method Seeded() returns (l: Ledger)
    ensures fresh(l) && l.Valid()
    ensures l.users == map[0 := User("Bob", "bob@x.com", "999", "h0", Manager)]
    ensures l.banks == map[1 := Bank("First", Some(0))]
    ensures l.accounts == map[] && l.transactions == map[] && l.nextId == 2
  {
    l := new Ledger(map[0 := User("Bob", "bob@x.com", "999", "h0", Manager)], map[1 := Bank("First", Some(0))], 2);
  }

  /** The seeded manager logs in by name and bank name; an unknown name and a wrong bank are refused. */
  method ManagerLogin() returns (ok: Result<(UserId, Role)>)
    ensures ok == Ok((0, Manager))
  {
    var l := Seeded();
    var accept := (p: string, c: Credential) => true;
    var reject := (p: string, c: Credential) => false;
    var same := (s: string) => s;
    assert SoleManagerNamed(l.users, "Bob", same);
    assert IsManagerNamed(l.users, 0, "Bob", same) && RunsBankNamed(l.banks, 0, "First", same) by {
      assert l.banks[1].name == "First";
    }
    ok := l.Login("", "Bob", "First", "pw", accept, same);
    assert ok == Ok((0, Manager));
    var unknown := l.Login("", "Carol", "First", "pw", accept, same);
    assert unknown == Err(ManagerNotFound);
    var elsewhere := l.Login("", "Bob", "Second", "pw", accept, same);
    assert elsewhere == Err(NotManagerOfBank);
    var wrong := l.Login("", "Bob", "First", "pw", reject, same);
    assert wrong == Err(InvalidPassword);
  }

  /** Signup succeeds and a second signup with the same email is refused. */
  method SignedUp() returns (l: Ledger, u: UserId)
    ensures fresh(l) && l.Valid()
    ensures IsCustomer(l.users, u) && IsManager(l.users, 0)
    ensures l.banks == map[1 := Bank("First", Some(0))] && l.accounts == map[]
  {
    l := Seeded();
    var alice := l.Signup("Alice", "a@x.com", "111", "h1");
    assert alice.Ok?;
    u := alice.value;
    assert l.users[u].email == "a@x.com";
    var again := l.Signup("Alice", "a@x.com", "222", "h2");
    assert again == Err(EmailExists);
  }

  /**
   * The new customer's account is pending with balance 0, a deposit on it is refused
   * until it is approved, and the bank's manager then approves it.
   */
  method SignupAndApprove() returns (l: Ledger, a: AccountId)
    ensures fresh(l) && l.Valid()
    ensures MayDecide(l.users, l.banks, l.accounts, 0, a)
    ensures l.accounts[a].status == Approved && l.accounts[a].balance == 0
  {
    var u;
    l, u := SignedUp();
    var opening := l.OpenAccount(u, 1, "Alice", 7);
    assert opening.Ok?;
    a := opening.value.0;
    assert l.accounts[a].status == Pending && l.accounts[a].balance == 0;

    var early := l.SubmitTransaction(a, "deposit", 100);
    assert early == Err(AccountNotApproved);

    assert MayDecide(l.users, l.banks, l.accounts, 0, a);
    var approvedAccount := l.DecideAccount(a, "approved", 0);
    assert approvedAccount == Ok(Approved);
  }

  /**
   * A deposit of 100 approved, a withdrawal of 150 refused at approval with the balance
   * and the withdrawal's status unchanged, and the deposit approved a second time.
   */
  method DepositAndWithdrawal() returns (l: Ledger, a: AccountId)
    ensures fresh(l) && l.Valid()
    ensures a in l.accounts && l.accounts[a].balance == 200
  {
    l, a := SignupAndApprove();
    var dep := l.SubmitTransaction(a, "deposit", 100);
    assert dep.Ok?;
    var d := dep.value;
    var ok := l.DecideTransaction(d, "approved", 0);
    assert ok == Ok(Approved);
    assert l.accounts[a].balance == 100;

    assert MayDecide(l.users, l.banks, l.accounts, 0, a);
    var wd := l.SubmitTransaction(a, "withdrawal", 150);
    assert wd.Ok?;
    var w := wd.value;
    var refused := l.DecideTransaction(w, "approved", 0);
    assert refused == Err(InsufficientFunds);
    assert l.accounts[a].balance == 100 && l.transactions[w].status == Pending;

    // the same deposit approved a second time is applied a second time
    assert MayDecide(l.users, l.banks, l.accounts, 0, a);
    var twice := l.DecideTransaction(d, "approved", 0);
    assert twice == Ok(Approved);
    assert l.accounts[a].balance == 200;
  }

  /**
   * A deposit of 100 approved and then rejected: the status becomes rejected and the
   * balance keeps the effect of the approval.
   */
  method ApprovedThenRejected() returns (l: Ledger, a: AccountId, d: TxId)
    ensures fresh(l) && l.Valid()
    ensures a in l.accounts && d in l.transactions
    ensures l.accounts[a].balance == 100 && l.transactions[d].status == Rejected
  {
    l, a := SignupAndApprove();
    var dep := l.SubmitTransaction(a, "deposit", 100);
    assert dep.Ok?;
    d := dep.value;
    var ok := l.DecideTransaction(d, "approved", 0);
    assert ok == Ok(Approved);
    assert MayDecide(l.users, l.banks, l.accounts, 0, a);
    var undo := l.DecideTransaction(d, "rejected", 0);
    assert undo == Ok(Rejected);
  }

  /** One customer with two pending accounts at the seeded bank. */
  method TwoPendingAccounts() returns (l: Ledger, a: AccountId, b: AccountId)
    ensures fresh(l) && l.Valid()
    ensures MayDecide(l.users, l.banks, l.accounts, 0, a) && MayDecide(l.users, l.banks, l.accounts, 0, b)
    ensures a != b && a in l.accounts && b in l.accounts
    ensures l.accounts[a].balance == 0 && l.accounts[b].balance == 0
    ensures l.accounts[a].status == Pending && l.accounts[b].status == Pending
  {
    l := Seeded();
    var s := l.Signup("Alice", "a@x.com", "111", "h1");
    assert s.Ok?;
    var u := s.value;
    var oa := l.OpenAccount(u, 1, "Alice A", 5);
    assert oa.Ok?;
    a := oa.value.0;
    assert Generate(6) != Generate(5) by { GenerateInjective(5, 6); }
    var ob := l.OpenAccount(u, 1, "Alice B", 6);
    assert ob.Ok?;
    b := ob.value.0;
  }

  /** Both accounts approved, and a deposit of 100 approved on the first. */
  method TwoApprovedAccounts() returns (l: Ledger, a: AccountId, b: AccountId)
    ensures fresh(l) && l.Valid()
    ensures a != b && a in l.accounts && b in l.accounts
    ensures l.accounts[a].status == Approved && l.accounts[b].status == Approved
    ensures l.accounts[a].balance == 100 && l.accounts[b].balance == 0
    ensures MayDecide(l.users, l.banks, l.accounts, 0, a)
  {
    l, a, b := TwoPendingAccounts();
    var ra := l.DecideAccount(a, "approved", 0);
    assert ra.Ok?;
    assert MayDecide(l.users, l.banks, l.accounts, 0, b);
    var rb := l.DecideAccount(b, "approved", 0);
    assert rb.Ok?;
    assert MayDecide(l.users, l.banks, l.accounts, 0, a);
    var dep := l.SubmitTransaction(a, "deposit", 100);
    assert dep.Ok?;
    var rd := l.DecideTransaction(dep.value, "approved", 0);
    assert rd.Ok?;
  }

  /** A transfer of 50 whose withdrawal leg is approved while its deposit leg stays pending. */
  method TransferOneLegApproved() returns (l: Ledger, a: AccountId, b: AccountId, dLeg: TxId)
    ensures fresh(l) && l.Valid()
    ensures a in l.accounts && b in l.accounts && dLeg in l.transactions
    ensures l.accounts[a].balance == 50 && l.accounts[b].balance == 0
    ensures l.transactions[dLeg].accountId == b && l.transactions[dLeg].status == Pending
  {
    l, a, b := TwoApprovedAccounts();
    var numberB := l.accounts[b].number;
    assert ApprovedWithNumber(l.accounts, b, numberB);
    var tr := l.Transfer(a, numberB, 50);
    assert tr.Ok?;
    var wLeg := tr.value.0;
    dLeg := tr.value.1;
    assert l.transactions[dLeg].accountId == b;
    assert l.accounts[a].balance == 100;

    var rw := l.DecideTransaction(wLeg, "approved", 0);
    assert rw.Ok?;
    assert l.accounts[a].balance == 50;
    assert l.accounts[b].balance == 0 && l.transactions[dLeg].status == Pending;
  }
}
