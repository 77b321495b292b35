# Banking ledger and approval workflow

A Dafny model of the server of a small banking system. Customers sign up, open
accounts at a bank, and submit deposits, withdrawals and transfers. The manager of
each bank approves or rejects the bank's accounts and transactions, and approving a
transaction is what changes a balance.

The four stored collections (users, banks, accounts, transactions) are the map
fields of one `Ledger` class (`ledger.dfy`, module `LedgerCore`). Each mutating HTTP
route is one method of that class. A method either returns an error and changes
nothing, or saves exactly the documents the route saves. Every method keeps the
invariant `Consistent` (`state.dfy`, module `LedgerState`):

- every id lies below the id counter, and every reference leads to a stored document
  (a bank's manager, an account's user and bank, a transaction's account);
- emails, phones and account numbers are unique, and every account number has twelve digits;
- every transaction amount is positive, and no transaction is linked to a transfer partner;
- every balance is non-negative and equals the net effect of the balance changes made
  so far. That history is a ghost field, and each change in it comes from a stored
  transaction on the same account, of the same kind and amount.

The read-only routes that only filter are functions over the maps (`views.dfy`,
module `Views`). The login route and the manager dashboard route are read-only
methods of `Ledger` instead, because each takes the document `findOne` returns, and
which one it returns when several match is unspecified; a method can leave that
choice open. The
documents, their enumerations and their defaults are in `records.dfy` (module
`Records`). The default account-number generator is in `account_numbers.dfy`
(module `AccountNumbers`). `scenarios.dfy` (module `Scenarios`) holds client methods
that follow requests from signup and login to approval; from the route methods'
contracts alone they state each response, with its exact error, and the resulting
balances. `Scenarios.ManagerLogin` shows a manager login that succeeds and the
three ways it is refused.

Inputs the routes take from outside the program are parameters:
- the password check is a predicate `matches`;
- the case folding of the manager login is a function `fold`;
- the random draw of an account number is an integer offset `draw`.

Behaviours of the code that are easy to miss, which the model keeps:
- **Re-approval applies again.** Approving a transaction that is already approved
  applies its effect to the balance a second time, because the decision route has
  no guard on the current status (`Scenarios.DepositAndWithdrawal` shows the balance
  going from 100 to 200).
- **Any enum status is accepted.** Both decision routes accept any status the enum
  allows, `pending` included, and they overwrite the previous status.
- **A refused withdrawal stays pending.** A withdrawal whose approval the balance
  does not cover fails before either save, so the transaction stays pending.
- **A number collision is an error.** A generated account number that collides
  with an existing one is not drawn again: the unique index makes the save fail, and
  the model returns `DuplicateAccountNumber`.
- **Required strings may not be empty.** A required string field that is empty
  makes the save fail (`ValidationFailed`). In signup the email and phone checks
  come first, so an empty name, email or phone is refused only after them. In
  open-account the empty holder name is refused before an account-number collision,
  since both are found by the same save.
- **A later decision does not undo an approval.** Deciding "rejected" or "pending"
  on a transaction that was approved changes only its status; the balance keeps the
  approval's effect (`Scenarios.ApprovedThenRejected`). The invariant therefore
  counts approval events, not the transactions whose status is currently approved.

## Model

| member | source | states |
|---|---|---|
| AccountNumbers.Decimal | server/src/models/Account.js:13 | the decimal text of a number is non-empty and made only of digits |
| AccountNumbers.ValueOfDecimal | server/src/models/Account.js:13 | reading back the decimal text of n gives n (proved by induction on the digits) |
| AccountNumbers.DecimalLength | server/src/models/Account.js:13 | a number in [10^(k-1), 10^k) has a decimal text of exactly k characters |
| AccountNumbers.LeadingDigitNonZero | server/src/models/Account.js:13 | the decimal text of a positive number does not start with '0' |
| AccountNumbers.Generate | server/src/models/Account.js:12-14 | for every draw the generated number has exactly twelve digits, so it passes the transfer route's `^\d{12}$` test; its first digit is nonzero and it denotes 10^11 + draw |
| AccountNumbers.GenerateInjective | server/src/models/Account.js:9-14 | two different draws give two different account numbers |
| Records.ParseStatus | server/src/models/Account.js:7 | a status string is accepted exactly when it names one of pending, approved, rejected, and then it names the status returned |
| Records.ParseTxType | server/src/routes/auth.js:109 | a type string is accepted exactly when it is "deposit" or "withdrawal", and then it names the kind returned |
| Records.ParseNamesBack | server/src/models/Transaction.js:5-7 | every status and every transaction kind survives being written as its name and parsed back |
| Records.NewAccount | server/src/models/Account.js:3-16 | a new account has the given user, bank and holder name, status pending, balance 0 and a twelve-digit number without a leading zero |
| Records.NewTransaction | server/src/models/Transaction.js:3-9 | a new transaction has the given account, kind and amount, status pending and no transfer link |
| Views.BankAccounts | server/src/routes/auth.js:271-273 | exactly the accounts whose bank is b, unchanged |
| Views.PendingAccounts | server/src/routes/auth.js:256-258 | exactly the pending accounts of bank b, a subset of the bank's accounts |
| Views.BankTransactions | server/src/routes/auth.js:276-283 | exactly the transactions whose account exists and belongs to bank b; transactions whose account is missing are dropped |
| Views.PendingTransactions | server/src/routes/auth.js:261-268 | exactly the pending transactions among the bank's transactions |
| Views.DashboardOf | server/src/routes/auth.js:255-285 | each pending list lies inside its full list, every listed account is at bank b, and every listed transaction's account is listed |
| Views.OwnedBy | server/src/routes/auth.js:309-310 | exactly the ids of the accounts the user holds |
| Views.CustomerDashboard | server/src/routes/auth.js:91-95 | one line for every account the user holds and for no other, with that account's holder name, number, balance, status and bank id, and the name of its bank when the bank is stored |
| Views.CustomerHistory | server/src/routes/auth.js:309-320 | exactly the approved transactions on accounts the user holds |
| Views.BankDirectory | server/src/routes/auth.js:293-301 | one entry per stored bank, holding the bank's name |
| LedgerState.ApplyApproval | server/src/routes/auth.js:220-230 | an approval fails exactly for a withdrawal larger than the balance; otherwise the new balance is the old one plus a deposit or minus a withdrawal, and it stays non-negative |
| LedgerState.WithinGrows | server/src/routes/auth.js:74-75 | a history confined to a set of accounts stays confined when accounts are added |
| LedgerState.NetEffectOutside | server/src/routes/auth.js:74-75 | an account outside the accounts a history touches has net effect 0, so a new account's balance 0 matches its history |
| LedgerState.RecordedAfterInsert | server/src/routes/auth.js:121-122 | storing a new transaction keeps every past balance change tied to the transaction that made it |
| LedgerState.RecordedAfterStatus | server/src/routes/auth.js:219-233 | changing a transaction's status keeps every past balance change tied to its transaction's account, kind and amount |
| LedgerState.BalancesAfterApply | server/src/routes/auth.js:220-231 | crediting one account with one change and recording it keeps every balance equal to its history |
| LedgerState.AddUserKeeps | server/src/routes/auth.js:15-23 | adding a user with an unused email and phone keeps the invariant |
| LedgerState.AddAccountKeeps | server/src/routes/auth.js:68-75 | adding an account with an unused twelve-digit number and balance 0 keeps the invariant |
| LedgerState.AddTransactionKeeps | server/src/routes/auth.js:121-122 | adding a transaction with a positive amount on a stored account keeps the invariant |
| LedgerState.SetAccountStatusKeeps | server/src/routes/auth.js:189-190 | overwriting an account's status keeps the invariant |
| LedgerState.SetTransactionStatusKeeps | server/src/routes/auth.js:219-233 | overwriting a transaction's status keeps the invariant |
| LedgerState.ApplyKeeps | server/src/routes/auth.js:220-231 | applying a stored transaction's effect to its account and recording it keeps the invariant, when the new balance is non-negative |
| LedgerCore.Ledger.constructor | server/src/models/User.js:3-9 | users and banks that exist before any request, with distinct emails and phones and every bank manager among the users, and no accounts or transactions, satisfy the invariant |
| LedgerCore.Ledger.Signup | server/src/routes/auth.js:12-30 | a used email is refused with EmailExists first, a used phone with PhoneExists second, and then an empty name, email or phone with ValidationFailed; it succeeds exactly otherwise, adding exactly one customer with the given fields under a new id and changing nothing else; on failure nothing changes; the invariant is kept |
| LedgerCore.Ledger.Login | server/src/routes/auth.js:33-58 | a customer logs in by email: an unknown email is UserNotFound; with unique emails a manager's email is UseManagerLogin, a wrong password InvalidPassword, and it succeeds exactly when a customer has that email and the password matches. A manager logs in by name and bank name, both compared after folding: no such manager is ManagerNotFound; when the folded name belongs to one manager, a bank the manager does not run is NotManagerOfBank, a wrong password InvalidPassword, and it succeeds exactly when that manager runs that bank and the password matches. Neither an email nor both names is InvalidLoginDetails |
| LedgerCore.Ledger.OpenAccount | server/src/routes/auth.js:61-82 | a caller who is not a customer is InvalidUser, a missing bank BankNotFound, an empty holder name ValidationFailed and a number in use DuplicateAccountNumber, in that order; it succeeds exactly otherwise, adding exactly one pending account with balance 0 and returning its twelve-digit number, and changes nothing else |
| LedgerCore.Ledger.SubmitTransaction | server/src/routes/auth.js:103-129 | an unknown type is InvalidTransactionType, a non-positive amount NonPositiveAmount and a missing or unapproved account AccountNotApproved, in that order; it succeeds exactly otherwise, adding exactly one pending transaction, and no balance changes |
| LedgerCore.Ledger.Transfer | server/src/routes/auth.js:132-170 | refusals in the order of the route, each with its own error: a destination number without twelve digits, a non-positive amount, a missing or unapproved source, a source balance below the amount, no approved destination with that number; it succeeds exactly otherwise, adding exactly two unlinked pending transactions (a withdrawal on the source, a deposit on the destination, same amount), and no balance changes |
| LedgerCore.Ledger.DecideAccount | server/src/routes/auth.js:173-197 | a caller who is not a manager is Unauthorized, a missing account AccountNotFound, a bank without a manager BrokenReference, another bank's manager NotAuthorizedForBank, a status outside the enum ValidationFailed; it succeeds exactly otherwise, and then only that account's status changes, to the given one, whatever it was |
| LedgerCore.Ledger.DecideTransaction | server/src/routes/auth.js:200-240 | a caller who is not a manager is Unauthorized, a missing transaction TransactionNotFound, a bank without a manager BrokenReference, another bank's manager NotAuthorizedForBank, a status outside the enum ValidationFailed, and an approved withdrawal the balance does not cover InsufficientFunds; it succeeds exactly otherwise, only that transaction's status changes, and approving also credits or debits exactly its amount on its account and records the change; any failure changes nothing |
| LedgerCore.Ledger.RecordDecision | server/src/routes/auth.js:219-233 | the save half of a transaction decision: a status outside the enum is ValidationFailed and an uncovered withdrawal approval InsufficientFunds, both with nothing saved; an approval applies the effect, any other valid status is only stored |
| LedgerCore.Ledger.ApplyApproved | server/src/routes/auth.js:220-233 | an approval either fails with insufficient funds and changes nothing, or sets the status to approved, changes exactly one balance by the transaction's signed amount and records that change |
| LedgerCore.Ledger.AdminDashboard | server/src/routes/auth.js:243-290 | a caller who is not a manager is Unauthorized and a manager who runs no bank BankNotFound; it succeeds exactly when the manager runs some bank, and then returns that bank's dashboard |
| LedgerCore.DashboardWithinAuthority | server/src/routes/auth.js:252-283 | everything on a manager's dashboard is something that manager may decide, and every account of the bank is on it |
| Scenarios.ManagerLogin | server/src/routes/auth.js:41-53 | the seeded manager logs in by name and bank name and gets its id and role manager; proved as assertions along the way: an unknown name is ManagerNotFound, a bank it does not run NotManagerOfBank, a failed password check InvalidPassword |
| Scenarios.SignedUp | server/src/routes/auth.js:12-30 | a signup succeeds and a second signup with the same email is refused with EmailExists |
| Scenarios.SignupAndApprove | server/src/routes/auth.js:61-197 | the new customer's account is pending at balance 0, a deposit on it is refused with AccountNotApproved, and the bank's manager then approves it |
| Scenarios.TwoPendingAccounts | server/src/routes/auth.js:61-82 | two accounts opened with different draws are distinct, pending and at balance 0 |
| Scenarios.TwoApprovedAccounts | server/src/routes/auth.js:173-240 | after both accounts are approved and a deposit of 100 is approved on the first, the balances are 100 and 0 |
| Scenarios.DepositAndWithdrawal | server/src/routes/auth.js:200-240 | the account ends at balance 200; on the way, proved as assertions from the contracts: a deposit of 100 approved gives balance 100, a withdrawal of 150 is refused at approval with InsufficientFunds leaving the balance and its pending status, and approving the deposit again adds 100 more |
| Scenarios.ApprovedThenRejected | server/src/routes/auth.js:219-233 | a deposit of 100 approved and then rejected ends with status rejected and the balance still at 100 |
| Scenarios.TransferOneLegApproved | server/src/routes/auth.js:132-240 | a transfer of 50 from an account holding 100 whose withdrawal leg alone is approved leaves the source at 50, the destination at 0 and the deposit leg pending |

## Left out

- Password hashing and comparison are done by a foreign library: the stored credential is an opaque string and the check is a predicate parameter of `Login`.
- The case-insensitive regular expressions of the manager login are modelled as equality under a function parameter `fold`; a name holding regular-expression metacharacters is not modelled.
- LedgerCore.Ledger.Login: which document `findOne` returns when several match is left unspecified, so the model picks any match; the exact outcome of a login is therefore stated only for unique emails and for a folded manager name that belongs to one manager (`SoleManagerNamed`), and for several such managers only what a success implies.
- LedgerCore.Ledger.AdminDashboard: when a manager runs several banks, which bank's dashboard is returned is unspecified, as `findOne` does not say.
- The id format check (`ObjectId.isValid`) is not modelled: ids are opaque integers, and a malformed id is the same as a missing one.
- The `populate`/`lean` joins are not modelled as such: references are map lookups. A transaction whose account is missing is left out of the manager dashboard's transaction lists. A customer-dashboard line whose bank is missing is kept with no bank name, where the code's `bankId` becomes null. A decision that follows a reference that leads nowhere fails with `BrokenReference`, which stands for the 500 response of the code.
- HTTP status codes, response messages and JSON bodies are not modelled: each failure is one variant of an error enum.
- `Math.random` and floating-point numbers are not modelled: the draw is an integer offset in [0, 9 * 10^11), and amounts and balances are unbounded integers.
- LedgerCore.Ledger.Login: a login whose email is present but uses a value JavaScript would treat as falsy other than the empty string is not modelled, because request fields are strings here.
- LedgerCore.Ledger.DecideAccount: a request without a `status` field is not modelled, because the status is a string here; the code then assigns `undefined`, which the enum validator skips, so the save removes the stored status and the response reads "Account undefined".
- LedgerCore.Ledger.DecideTransaction: likewise a request without a `status` field is not modelled; the code takes the non-approval branch, the save removes the stored status, and the response reads "Transaction undefined".
- LedgerCore.Ledger.SubmitTransaction: the amount is an integer, so a non-numeric or fractional amount in the request body is not modelled.
- Concurrency between the `await`s of a route is not modelled: each route is one atomic step, so the race of two approvals on one balance is outside the model.
- A save that fails partway is not modelled: the two saves of a transfer and the two saves of an approval either both happen or, on a refused withdrawal, neither does.
- Account-number uniqueness: a collision is the error `DuplicateAccountNumber` rather than a freshness precondition on the draw, since the unique index makes the save fail.
- Timestamps on transactions and all console logging are not modelled.
- The server bootstrap (`server/src/index.js`) and the one-off hashing script (`server/generateHash.js`) are I/O only; `server/src/models/User.js` and `server/src/models/Bank.js` are folded into the `User` and `Bank` datatypes.
- Creating managers and banks is done outside the routes: the `Ledger` constructor takes them as its starting collections.
- Bank names are not held unique by the invariant, although the bank schema declares them unique; no route creates a bank.
- The fields each view selects or joins in (user name and email, bank name on history lines) are not modelled beyond the bank name on customer dashboard lines.
