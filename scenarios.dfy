/** Clients of the model, derived from the contracts of BankAccount and Ledger
    alone. First the BankAccount scenarios of the repository's unit tests, then
    further account scenarios and registry and session scenarios of their own. */
module Scenarios {
  import opened Accounts
  import opened Banking

  /** Two accounts as the unit tests set them up. */
  method TestAccounts() returns (alice: BankAccount, bob: BankAccount)
    ensures fresh(alice) && fresh(bob)
    ensures alice.Holder() == Party("Alice", "001") && alice.State() == AccountState(1000.0, [])
    ensures bob.Holder() == Party("Bob", "002") && bob.State() == AccountState(500.0, [])
  {
    alice := new BankAccount("001", "Alice", "pass123", "Personal", 1000.0);
    bob := new BankAccount("002", "Bob", "pass456", "Business", 500.0);
  }

  method RefusedOperations()
  {
    var alice, bob := TestAccounts();
    var o := alice.Deposit(-100.0);
    assert o == InvalidAmount && alice.balance == 1000.0;
    o := alice.Withdraw(-50.0);
    assert o == InvalidAmount;
    o := alice.Transfer(-200.0, bob);
    assert o == InvalidAmount && bob.balance == 500.0;
    o := alice.MobileTopUp(-20.0, "17123456");
    assert o == InvalidAmount;
    o := alice.Transfer(100.0, alice);
    assert o == InvalidAmount && alice.State() == AccountState(1000.0, []);
    o := bob.Withdraw(1000.0);
    assert o == InsufficientFunds && bob.balance == 500.0;
    o := bob.Transfer(1000.0, alice);
    assert o == InsufficientFunds && alice.balance == 1000.0;
    o := bob.MobileTopUp(600.0, "17123456");
    assert o == InsufficientFunds && bob.transactions == [];
    // Not in the unit tests: the self check comes last, so an oversized
    // self-transfer is an InsufficientFunds.
    o := bob.Transfer(600.0, bob);
    assert o == InsufficientFunds;
  }

  method DepositSuccess()
  {
    var alice, bob := TestAccounts();
    var o := alice.Deposit(500.0);
    assert o == Ok && alice.balance == 1500.0;
  }

  method WithdrawSuccess()
  {
    var alice, bob := TestAccounts();
    var o := alice.Withdraw(300.0);
    assert o == Ok && alice.balance == 700.0;
  }

  method TransferSuccess()
  {
    var alice, bob := TestAccounts();
    var o := alice.Transfer(200.0, bob);
    assert o == Ok && alice.balance == 800.0 && bob.balance == 700.0;
    assert alice.transactions == [Sent(200.0, "Bob", "002")];
    assert bob.transactions == [Received(200.0, "Alice", "001")];
  }

  method TopUpSuccess()
  {
    var alice, bob := TestAccounts();
    var o := alice.MobileTopUp(100.0, "17123456");
    assert o == Ok && alice.balance == 900.0 && alice.transactions == [ToppedUp(100.0, "17123456")];
  }

  method HistoryRecording()
  {
    var alice, bob := TestAccounts();
    var o := alice.Deposit(100.0);
    o := alice.Withdraw(50.0);
    var history := alice.GetTransactions();
    assert Deposited(100.0) in history && Withdrew(50.0) in history;
  }

  // The scenarios from here on go beyond the unit tests.

  /** Withdrawing the whole balance is accepted and leaves exactly zero. */
  method WholeBalance()
  {
    var alice, bob := TestAccounts();
    var o := bob.Withdraw(500.0);
    assert o == Ok && bob.balance == 0.0;
  }

  /** The sign-up decisions the scenarios below rely on. */
  lemma AcceptedSignUp()
    ensures SignUpCheck({}, Some("001"), Some("Alice"), Some("PERSONAL"), Some("p1"), Some(1000.0)) == Created
    ensures Capitalize("PERSONAL") == "Personal"
  {
    LowerMatches("PERSONAL", "personal");
    CapitalizedAccountType("PERSONAL");
  }

  lemma UnknownType()
    ensures SignUpCheck({"001"}, Some("003"), Some("Carol"), Some("savings"), Some("p3"), Some(0.0))
            == InvalidAccountType
  {
    assert Lower("savings")[0] == LowerChar('s');
  }

  method FirstSignUp()
  {
    AcceptedSignUp();
    var ledger := new Ledger();
    var login := ledger.Login(Some("001"), Some("p1"));
    assert login == NoAccounts;
    var made := ledger.SignUp(Some("001"), Some("Alice"), Some("PERSONAL"), Some("p1"), Some(1000.0));
    assert made == Created && ledger.accounts["001"].State() == AccountState(1000.0, []);
    assert ledger.accounts["001"].accType == "Personal";
  }

  method DuplicateSignUp(ledger: Ledger)
    requires ledger.Valid() && ledger.accounts.Keys == {"001"}
    modifies ledger
  {
    var made := ledger.SignUp(Some("001"), Some("Eve"), Some("business"), Some("p3"), Some(0.0));
    assert made == AccountExists && ledger.accounts.Keys == {"001"};
  }

  method UnknownTypeSignUp(ledger: Ledger)
    requires ledger.Valid() && ledger.accounts.Keys == {"001"}
    modifies ledger
  {
    UnknownType();
    var made := ledger.SignUp(Some("003"), Some("Carol"), Some("savings"), Some("p3"), Some(0.0));
    assert made == InvalidAccountType && ledger.accounts.Keys == {"001"};
  }

  method BlankSignUp(ledger: Ledger)
    requires ledger.Valid()
    modifies ledger
  {
    var made := ledger.SignUp(Some(""), Some("Carol"), Some("Business"), Some("p3"), Some(0.0));
    assert made == MissingAccountNumber;
    made := ledger.SignUp(Some("003"), Some("Carol"), Some("Business"), None, Some(0.0));
    assert made != Created;
  }

  method Session(ledger: Ledger, alice: BankAccount, bob: BankAccount)
    requires ledger.Valid() && ledger.accounts == map["001" := alice, "002" := bob]
    requires alice.password == "p1"
    modifies ledger
  {
    var login := ledger.Login(Some("001"), Some("wrong"));
    assert login == IncorrectPassword && ledger.current == old(ledger.current);
    login := ledger.Login(Some("001"), Some("p1"));
    assert login == LoggedIn && ledger.current == Some(alice);
    ledger.Logout();
    assert ledger.current == None;
  }

  method DialogTransfer(ledger: Ledger, alice: BankAccount, bob: BankAccount)
    requires ledger.Valid() && ledger.accounts == map["001" := alice, "002" := bob]
    requires ledger.current == Some(alice) && alice.balance == 1000.0 && bob.balance == 500.0
    modifies alice, bob
  {
    assert |ledger.accounts| == 2;
    var sent := ledger.TransferFunds(Some("001"), Some(10.0));
    assert sent == InvalidRecipient;
    sent := ledger.TransferFunds(Some("002"), Some(0.005));
    assert sent == AmountBelowMinimum && alice.balance == 1000.0;
    sent := ledger.TransferFunds(Some("002"), Some(200.0));
    assert sent == Submitted(Ok) && alice.balance == 800.0 && bob.balance == 700.0;
  }
}
