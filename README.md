# Bank account ledger — Dafny model

This project models the ledger core of a small single-process banking
application: a `BankAccount` with a balance and a transaction history, its
four guarded operations (deposit, withdraw, transfer, mobile top-up) and its
history accessor; and the account registry and login session kept by the
application (`accounts`, keyed by account number, and `current`, the account
that is logged in), with the rules of sign-up, login, the dialog-level fund
transfer and logout.

- `accounts.dfy`, module `Accounts`. History entries are the `Txn` datatype,
  with one constructor per message shape the source logs. The error kinds are
  `Outcome = Ok | InvalidAmount | InsufficientFunds`. Each operation is
  specified by a pure step function over an `AccountState` value
  (`DepositStep`, `WithdrawStep`, `TopUpStep`, `TransferStep`). The
  `BankAccount` class keeps the source's mutable fields `balance` and
  `transactions`. Each of its methods is proved to produce exactly the outcome
  and new state of its step function. `Transfer` modifies two objects and
  detects a self-transfer by reference equality. `Run` and `Accepted` replay a
  sequence of single-account operations; lemmas about them give the
  whole-history properties.
- `banking.dfy`, module `Banking`. The checks `sign_up`, `login` and
  `transfer` perform are pure decision functions (`SignUpCheck`, `LoginCheck`,
  `TransferRefusal`). The `Ledger` class holds `accounts: map<string,
  BankAccount>` and `current: Option<BankAccount>`. Its methods take the
  dialog answers as parameters, and `Ledger.Valid()` is the registry
  invariant each of them keeps. Under that invariant every key is the stored
  account's own non-empty number; names and passwords are non-empty; the type
  is `Personal` or `Business`; balances are non-negative; and the session
  account is registered.
- `scenarios.dfy`, module `Scenarios`. Client methods whose assertions are
  derived from the contracts above alone. The first ones restate the
  `BankAccount` scenarios of `PassangDema_02240124_A3_test.py`, each from the
  tests' two fresh accounts. The rest go beyond that file, which tests only
  `BankAccount`: an oversized self-transfer, withdrawing a whole balance, and
  sign-up, login, logout and the dialog-level transfer on a `Ledger`.

Modelling choices:

- Money is Dafny `real`, so arithmetic is exact.
- A dialog answer is an `Option`: `None` means the dialog was cancelled.
  `Blank` is Python's `not answer`, i.e. cancelled or the empty string.
- Where the code differs from what one might expect, the model follows the code:
  - `transfer` checks the amount first, then the funds, and only then for a
    self-transfer (`PassangDema_02240124_A3_PA.py:59-64`). An oversized
    self-transfer therefore fails with `InsufficientFunds`.
  - A failed login leaves `current` as it was. It is not reset to logged-out.
  - Sign-up also refuses an empty password. There is no separate
    invalid-input error kind: empty answers abandon sign-up silently, and only
    a duplicate number or an unknown account type is reported. A negative
    opening balance never gets through the balance dialog, whose minimum is 0.
    The model gives it the outcome `OpeningBalanceBelowMinimum`.
  - In the same way, the transfer's amount dialog refuses anything below 0.01
    (`PassangDema_02240124_A3_PA.py:233`). The model gives that the outcome
    `AmountBelowMinimum`, so the account level never sees a zero or negative
    amount from the dialog, and the later `if amt:` only separates a cancelled
    dialog (`NoAmount`).
  - Login reports an empty registry (`NoAccounts`) before it looks at the
    account number.
  - `get_transactions` returns the account's live list, not a read-only view
    (see Left out).

## Model

| member | source | states |
|---|---|---|
| `Accounts.DebitCheck` | PassangDema_02240124_A3_PA.py:50-53 | the guards shared by withdraw, transfer (lines 59-62) and top-up (lines 72-75), in that order: InvalidAmount exactly when amount <= 0, InsufficientFunds exactly when 0 < amount and amount > balance, Ok exactly when 0 < amount <= balance |
| `Accounts.Debit` | PassangDema_02240124_A3_PA.py:50-55 | a debit has DebitCheck's outcome; a refusal leaves the state unchanged; success lowers the balance by the amount, never below zero, and appends exactly the given entry |
| `Accounts.DepositStep` | PassangDema_02240124_A3_PA.py:41-46 | accepted exactly when amount > 0, otherwise InvalidAmount with the state unchanged; on success the balance rises by the amount and exactly one Deposited(amount) entry is appended; a non-negative balance stays non-negative |
| `Accounts.WithdrawStep` | PassangDema_02240124_A3_PA.py:48-55 | InvalidAmount exactly when amount <= 0, InsufficientFunds exactly when 0 < amount and amount > balance, accepted exactly when 0 < amount <= balance; a refusal leaves the state unchanged; success lowers the balance by the amount and appends one Withdrew entry; withdrawing the whole balance is accepted and leaves exactly 0; no overdraft |
| `Accounts.TopUpStep` | PassangDema_02240124_A3_PA.py:70-77 | the same guards, in the same order, and the same balance effect as a withdrawal; success appends one top-up entry carrying the amount and the mobile number; no overdraft |
| `Accounts.TransferStep` | PassangDema_02240124_A3_PA.py:57-68 | InvalidAmount exactly when amount <= 0, or when the funds suffice and the target is the source itself; InsufficientFunds exactly when 0 < amount and amount > balance; a self-transfer never succeeds; a refusal changes neither side; success debits the source and credits the target by the amount, so their sum is conserved, and appends one Sent entry (target's name and number) to the source and one Received entry (source's name and number) to the target; neither balance can become negative |
| `Accounts.BankAccount.constructor` | PassangDema_02240124_A3_PA.py:32-39 | stores number, name, password, type and opening balance; the history starts empty |
| `Accounts.BankAccount.Deposit` | PassangDema_02240124_A3_PA.py:41-46 | returns the outcome of DepositStep and leaves the account in the state it computes; nothing else is modified |
| `Accounts.BankAccount.Withdraw` | PassangDema_02240124_A3_PA.py:48-55 | returns the outcome of WithdrawStep and leaves the account in the state it computes; nothing else is modified |
| `Accounts.BankAccount.Transfer` | PassangDema_02240124_A3_PA.py:57-68 | returns the outcome of TransferStep, with a self-transfer detected by object identity; both accounts end in the states it computes, refusals mutate neither; only the two accounts are modified |
| `Accounts.BankAccount.MobileTopUp` | PassangDema_02240124_A3_PA.py:70-77 | returns the outcome of TopUpStep and leaves the account in the state it computes; nothing else is modified |
| `Accounts.BankAccount.GetTransactions` | PassangDema_02240124_A3_PA.py:79-81 | returns the account's history, oldest entry first, without changing anything |
| `Accounts.RunKeepsNonNegative` | PassangDema_02240124_A3_PA.py:41-77 | from a non-negative balance, every sequence of deposits, withdrawals and top-ups, each accepted or refused, ends with a non-negative balance |
| `Accounts.RunExtendsHistory` | PassangDema_02240124_A3_PA.py:41-77 | along any sequence of operations the old history stays a prefix of the new one, and the history grows by exactly the number of accepted operations |
| `Accounts.DepositsCommute` | PassangDema_02240124_A3_PA.py:41-46 | each deposit has the same outcome whichever comes first, and depositing a then b leaves the same balance as depositing b then a |
| `Accounts.WithdrawUndoesDeposit` | PassangDema_02240124_A3_PA.py:41-55 | from a non-negative balance, withdrawing a just-deposited positive amount is accepted, restores the balance and logs both entries in order |
| `Accounts.TopUpIsWithdrawal` | PassangDema_02240124_A3_PA.py:48-77 | a top-up has the outcome and the resulting balance of a withdrawal of the same amount |
| `Banking.Blank` | PassangDema_02240124_A3_PA.py:121 | the definition of Python's `not answer` on a dialog answer (cancelled, or the empty string); its ensures only states the same test the other way round, as "given" = present and non-empty; the same test is applied at lines 128, 132, 137, 155 and 229 |
| `Banking.Lower` | PassangDema_02240124_A3_PA.py:132 | the lower-cased string has the same length, and each character is the lower-case form of the original character at the same position |
| `Banking.Capitalize` | PassangDema_02240124_A3_PA.py:142 | the capitalised string has the same length, its first character is the upper-case form of the original's and every later character the lower-case form of the original's at the same position |
| `Banking.IsAccountType` | PassangDema_02240124_A3_PA.py:132 | a type is accepted exactly when it has eight characters that spell "personal" or "business" letter by letter, in any mix of upper and lower case |
| `Banking.CapitalizedAccountType` | PassangDema_02240124_A3_PA.py:131-142 | an account type accepted case-insensitively as personal or business is stored, capitalised, as exactly "Personal" or "Business" respectively |
| `Banking.SignUpCheck` | PassangDema_02240124_A3_PA.py:120-141 | sign-up succeeds exactly when the number is non-blank and unregistered, the name is non-blank, the type is personal or business in any case, the password is non-blank and an opening balance >= 0 was given; each refusal (blank number, registered number, blank name, unknown type, blank password, no balance) is reported exactly when every earlier check passed and its own check fails |
| `Banking.LoginCheck` | PassangDema_02240124_A3_PA.py:150-162 | login succeeds exactly when the number is non-blank and registered and the password equals that account's password exactly; an empty registry is reported as NoAccounts; a non-empty registry with a blank or unknown number is reported as AccountNotFound |
| `Banking.TransferRefusal` | PassangDema_02240124_A3_PA.py:224-234 | the transfer reaches the account level exactly when at least two accounts are registered, the recipient number is non-blank, registered and not the current account's, and the amount dialog returned at least its minimum of 0.01; fewer than two accounts is reported as NeedTwoAccounts; with two or more, a blank, unknown or own recipient exactly as InvalidRecipient; with a valid recipient, a cancelled amount dialog exactly as NoAmount and an amount below 0.01 (zero and negatives included) exactly as AmountBelowMinimum |
| `Banking.Ledger.constructor` | PassangDema_02240124_A3_PA.py:100-101 | empty registry, nobody logged in; the registry invariant holds |
| `Banking.Ledger.SignUp` | PassangDema_02240124_A3_PA.py:120-142 | keeps the registry invariant; the outcome is SignUpCheck's; a refusal leaves the registry unchanged; success adds exactly the new key, leaves every existing entry alone, and maps it to a fresh account with the given name, password and opening balance, the capitalised type and an empty history; the session is untouched |
| `Banking.Ledger.Login` | PassangDema_02240124_A3_PA.py:150-164 | keeps the registry invariant; the outcome is LoginCheck's; success makes `current` the registered account, and any failure leaves `current` unchanged |
| `Banking.Ledger.Logout` | PassangDema_02240124_A3_PA.py:255-257 | `current` becomes None; the registry invariant holds |
| `Banking.Ledger.TransferFunds` | PassangDema_02240124_A3_PA.py:222-240 | keeps the registry invariant; a dialog-level refusal changes no account; otherwise the recipient is never the current account, the account-level transfer is never refused for a non-positive amount, and the current account and the recipient end in the states TransferStep computes; every other registered account is unchanged |
| `Scenarios.TestAccounts` | PassangDema_02240124_A3_test.py:10-13 | builds the two fresh accounts of the unit tests, Alice (001, balance 1000) and Bob (002, balance 500), with empty histories |

## Left out

- The windowed interface is not modelled: widgets, dashboard, display refresh, main loop (`PassangDema_02240124_A3_PA.py:1-2, 104-113, 168-198, 262-265`). Neither are the dialog and message boxes; their answers are method parameters and their messages are outcome values.
- The dashboard's deposit, withdraw and top-up handlers (`PassangDema_02240124_A3_PA.py:200-220, 242-253`) are not modelled. Their amount dialogs have a minimum of 0.01, so they forward only amounts of at least 0.01 to the account operations; the top-up handler also does nothing when the mobile number is blank or cancelled (line 245).
- Python `float` arithmetic is not modelled. Amounts and balances are exact reals, so there is no rounding drift. Because of that, `WithdrawUndoesDeposit` and `DepositsCommute` hold exactly in the model but need not hold bit-for-bit in the source.
- The text of history entries is not modelled. The model keeps each entry as structured fields, not as the formatted sentence, which includes Python's rendering of the float amount. Two-decimal balance display is left out too.
- Accounts.BankAccount.GetTransactions: returns the history as an immutable value. In the source the returned list is the account's own list, so a caller could alter the account's history through it. That aliasing is not modelled.
- Banking.Lower: maps only the ASCII letters A-Z. Python's `str.lower` and `str.capitalize` are full Unicode mappings. Their non-ASCII results never make a string equal to "personal" or "business": no non-ASCII character lower-cases to a single letter of those words, and U+0130 (capital I with dot) lower-cases to "i" followed by U+0307, which adds a character. So the accepted types and their capitalised forms are the same.
- `BankAccount`'s default opening balance of 0 (`balance=0`, line 32) is not modelled: the constructor always takes a balance. Every caller in the source passes one.
- Concurrency is not modelled. The source is single-threaded and the model is sequential.
- Exceptions are not modelled. Results are returned as outcome values, and the unexpected-exception path of a handler (`except Exception`) is not modelled.
