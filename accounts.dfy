/** A single bank account: its balance, its transaction history, and the four
    guarded operations that change them (deposit, withdraw, transfer, mobile
    top-up).

    Each operation is specified by a pure step function over an AccountState
    value; the BankAccount class keeps the two mutable fields of the source and
    each of its methods is proved to leave the object in the state the step
    function computes. Monetary amounts are Dafny reals. */
module Accounts {

  /** One entry of an account's history. The source logs a sentence; the model
      keeps the fields the sentence is built from. */
  datatype Txn =
    | Deposited(amount: real)
    | Withdrew(amount: real)
    | Sent(amount: real, toName: string, toAccNo: string)
    | Received(amount: real, fromName: string, fromAccNo: string)
    | ToppedUp(amount: real, number: string)

  /** Success, or the kind of error the operation raises. */
  datatype Outcome = Ok | InvalidAmount | InsufficientFunds

  /** The mutable part of an account. */
  datatype AccountState = AccountState(balance: real, transactions: seq<Txn>)

  /** The identity a transfer writes into the counterparty's history. */
  datatype Party = Party(name: string, accNo: string)

  /** The result of a single-account operation: its outcome and the new state. */
  datatype Step = Step(outcome: Outcome, after: AccountState)

  /** The result of a transfer: its outcome and the new states of both sides. */
  datatype PairStep = PairStep(outcome: Outcome, source: AccountState, target: AccountState)

  /** The guards of every debit, in the order the source checks them. */
  function DebitCheck(balance: real, amount: real): (r: Outcome)
    ensures r == InvalidAmount <==> amount <= 0.0
    ensures r == InsufficientFunds <==> 0.0 < amount && balance < amount
    ensures r == Ok <==> 0.0 < amount <= balance
  {
    if amount <= 0.0 then InvalidAmount
    else if amount > balance then InsufficientFunds
    else Ok
  }

  /** Take `amount` from the balance and log `entry`, if the debit guards pass. */
  function Debit(s: AccountState, amount: real, entry: Txn): (r: Step)
    ensures r.outcome == DebitCheck(s.balance, amount)
    ensures !r.outcome.Ok? ==> r.after == s
    ensures r.outcome.Ok? ==> r.after.balance == s.balance - amount && r.after.balance >= 0.0
    ensures r.outcome.Ok? ==> r.after.transactions == s.transactions + [entry]
  {
    var o := DebitCheck(s.balance, amount);
    if o == Ok then Step(Ok, AccountState(s.balance - amount, s.transactions + [entry]))
    else Step(o, s)
  }

  function DepositStep(s: AccountState, amount: real): (r: Step)
    ensures r.outcome.Ok? <==> amount > 0.0
    ensures !r.outcome.Ok? ==> r.outcome == InvalidAmount && r.after == s
    ensures r.outcome.Ok? ==> r.after.balance == s.balance + amount
    ensures r.outcome.Ok? ==> r.after.transactions == s.transactions + [Deposited(amount)]
    ensures s.balance >= 0.0 ==> r.after.balance >= 0.0
  {
    if amount <= 0.0 then Step(InvalidAmount, s)
    else Step(Ok, AccountState(s.balance + amount, s.transactions + [Deposited(amount)]))
  }

  function WithdrawStep(s: AccountState, amount: real): (r: Step)
    ensures r.outcome == InvalidAmount <==> amount <= 0.0
    ensures r.outcome == InsufficientFunds <==> 0.0 < amount && s.balance < amount
    ensures r.outcome.Ok? <==> 0.0 < amount <= s.balance
    ensures !r.outcome.Ok? ==> r.after == s
    ensures r.outcome.Ok? ==> r.after.balance == s.balance - amount
    ensures r.outcome.Ok? ==> r.after.transactions == s.transactions + [Withdrew(amount)]
    ensures s.balance >= 0.0 ==> r.after.balance >= 0.0
    ensures 0.0 < amount == s.balance ==> r.outcome.Ok? && r.after.balance == 0.0
  {
    Debit(s, amount, Withdrew(amount))
  }

  function TopUpStep(s: AccountState, amount: real, number: string): (r: Step)
    ensures r.outcome == InvalidAmount <==> amount <= 0.0
    ensures r.outcome == InsufficientFunds <==> 0.0 < amount && s.balance < amount
    ensures r.outcome.Ok? <==> 0.0 < amount <= s.balance
    ensures !r.outcome.Ok? ==> r.after == s
    ensures r.outcome.Ok? ==> r.after.balance == s.balance - amount
    ensures r.outcome.Ok? ==> r.after.transactions == s.transactions + [ToppedUp(amount, number)]
    ensures s.balance >= 0.0 ==> r.after.balance >= 0.0
    ensures 0.0 < amount == s.balance ==> r.outcome.Ok? && r.after.balance == 0.0
  {
    Debit(s, amount, ToppedUp(amount, number))
  }

  /** A transfer from `src` (held by `from`) to `dst` (held by `to`); `toSelf`
      says that both are the same account object. The self check comes only
      after the amount and funds checks, as in the source. */
  function TransferStep(src: AccountState, from: Party, dst: AccountState, to: Party,
                        toSelf: bool, amount: real): (r: PairStep)
    ensures r.outcome == InvalidAmount <==> amount <= 0.0 || (amount <= src.balance && toSelf)
    ensures r.outcome == InsufficientFunds <==> 0.0 < amount && src.balance < amount
    ensures r.outcome.Ok? <==> 0.0 < amount <= src.balance && !toSelf
    ensures !r.outcome.Ok? ==> r.source == src && r.target == dst
    ensures r.outcome.Ok? ==> r.source.balance == src.balance - amount
    ensures r.outcome.Ok? ==> r.target.balance == dst.balance + amount
    ensures r.outcome.Ok? ==> r.source.balance + r.target.balance == src.balance + dst.balance
    ensures r.outcome.Ok? ==> r.source.transactions == src.transactions + [Sent(amount, to.name, to.accNo)]
    ensures r.outcome.Ok? ==> r.target.transactions == dst.transactions + [Received(amount, from.name, from.accNo)]
    ensures src.balance >= 0.0 ==> r.source.balance >= 0.0
    ensures dst.balance >= 0.0 ==> r.target.balance >= 0.0
  {
    var debit := Debit(src, amount, Sent(amount, to.name, to.accNo));
    if !debit.outcome.Ok? then PairStep(debit.outcome, src, dst)
    else if toSelf then PairStep(InvalidAmount, src, dst)
    else PairStep(Ok, debit.after,
                  AccountState(dst.balance + amount, dst.transactions + [Received(amount, from.name, from.accNo)]))
  }

  class BankAccount {
    const accNo: string
    const name: string
    const password: string
    const accType: string
    var balance: real
    var transactions: seq<Txn>

    /** The mutable part of this account, as a value. */
    function State(): AccountState
      reads this
    {
      AccountState(balance, transactions)
    }

    /** How this account appears in a counterparty's history. */
    function Holder(): Party
    {
      Party(name, accNo)
    }

    constructor (accNo: string, name: string, password: string, accType: string, balance: real)
      ensures this.accNo == accNo && this.name == name && this.password == password
      ensures this.accType == accType
      ensures State() == AccountState(balance, [])
    {
      this.accNo := accNo;
      this.name := name;
      this.password := password;
      this.accType := accType;
      this.balance := balance;
      this.transactions := [];
    }

    method Deposit(amount: real) returns (o: Outcome)
      modifies this
      ensures var r := DepositStep(old(State()), amount); o == r.outcome && State() == r.after
    {
      if amount <= 0.0 {
        return InvalidAmount;
      }
      balance := balance + amount;
      transactions := transactions + [Deposited(amount)];
      o := Ok;
    }

    method Withdraw(amount: real) returns (o: Outcome)
      modifies this
      ensures var r := WithdrawStep(old(State()), amount); o == r.outcome && State() == r.after
    {
      if amount <= 0.0 {
        return InvalidAmount;
      }
      if amount > balance {
        return InsufficientFunds;
      }
      balance := balance - amount;
      transactions := transactions + [Withdrew(amount)];
      o := Ok;
    }

    /** Move `amount` to `target`. Self-transfer is detected by object identity. */
    method Transfer(amount: real, target: BankAccount) returns (o: Outcome)
      modifies this, target
      ensures var r := TransferStep(old(State()), Holder(), old(target.State()), target.Holder(),
                                    target == this, amount);
              o == r.outcome && State() == r.source && (target != this ==> target.State() == r.target)
    {
      if amount <= 0.0 {
        return InvalidAmount;
      }
      if amount > balance {
        return InsufficientFunds;
      }
      if target == this {
        return InvalidAmount;
      }
      balance := balance - amount;
      target.balance := target.balance + amount;
      transactions := transactions + [Sent(amount, target.name, target.accNo)];
      target.transactions := target.transactions + [Received(amount, name, accNo)];
      o := Ok;
    }

    method MobileTopUp(amount: real, number: string) returns (o: Outcome)
      modifies this
      ensures var r := TopUpStep(old(State()), amount, number); o == r.outcome && State() == r.after
    {
      if amount <= 0.0 {
        return InvalidAmount;
      }
      if amount > balance {
        return InsufficientFunds;
      }
      balance := balance - amount;
      transactions := transactions + [ToppedUp(amount, number)];
      o := Ok;
    }

    /** The history, oldest entry first. */
    method GetTransactions() returns (history: seq<Txn>)
      ensures history == State().transactions
    {
      history := transactions;
    }
  }

  // ---------------------------------------------------------------------------
  // Properties of sequences of single-account operations.

  datatype Op = DepositOp(amount: real) | WithdrawOp(amount: real) | TopUpOp(amount: real, number: string)

  function Apply(s: AccountState, op: Op): Step
  {
    match op
    case DepositOp(a) => DepositStep(s, a)
    case WithdrawOp(a) => WithdrawStep(s, a)
    case TopUpOp(a, n) => TopUpStep(s, a, n)
  }

  /** The state after performing `ops` in order, each one accepted or refused. */
  function Run(s: AccountState, ops: seq<Op>): AccountState
    decreases |ops|
  {
    if ops == [] then s else Run(Apply(s, ops[0]).after, ops[1..])
  }

  /** How many of `ops` are accepted when performed in order from `s`. */
  function Accepted(s: AccountState, ops: seq<Op>): nat
    decreases |ops|
  {
    if ops == [] then 0
    else (if Apply(s, ops[0]).outcome.Ok? then 1 else 0) + Accepted(Apply(s, ops[0]).after, ops[1..])
  }

  /** No sequence of operations can overdraw an account. */
  lemma {:induction false} RunKeepsNonNegative(s: AccountState, ops: seq<Op>)
    requires s.balance >= 0.0
    ensures Run(s, ops).balance >= 0.0
    decreases |ops|
  {
    if ops != [] {
      RunKeepsNonNegative(Apply(s, ops[0]).after, ops[1..]);
    }
  }

  /** The history is append-only and grows by one entry per accepted operation. */
  lemma {:induction false} RunExtendsHistory(s: AccountState, ops: seq<Op>)
    ensures |Run(s, ops).transactions| == |s.transactions| + Accepted(s, ops)
    ensures Run(s, ops).transactions[..|s.transactions|] == s.transactions
    decreases |ops|
  {
    if ops != [] {
      var next := Apply(s, ops[0]).after;
      RunExtendsHistory(next, ops[1..]);
      assert next.transactions[..|s.transactions|] == s.transactions;
      assert Run(s, ops).transactions[..|s.transactions|]
          == Run(s, ops).transactions[..|next.transactions|][..|s.transactions|];
    }
  }

  /** Deposits commute: their order does not change the outcomes or the balance. */
  lemma DepositsCommute(s: AccountState, a: real, b: real)
    ensures DepositStep(s, a).outcome == DepositStep(DepositStep(s, b).after, a).outcome
    ensures DepositStep(DepositStep(s, a).after, b).outcome == DepositStep(s, b).outcome
    ensures DepositStep(DepositStep(s, a).after, b).after.balance
         == DepositStep(DepositStep(s, b).after, a).after.balance
  {
  }

  /** Withdrawing what was just deposited is accepted and restores the balance. */
  lemma WithdrawUndoesDeposit(s: AccountState, a: real)
    requires s.balance >= 0.0 && a > 0.0
    ensures var back := WithdrawStep(DepositStep(s, a).after, a);
            back.outcome.Ok? && back.after.balance == s.balance
            && back.after.transactions == s.transactions + [Deposited(a), Withdrew(a)]
  {
  }

  /** A top-up is a withdrawal that is logged differently. */
  lemma TopUpIsWithdrawal(s: AccountState, a: real, number: string)
    ensures TopUpStep(s, a, number).outcome == WithdrawStep(s, a).outcome
    ensures TopUpStep(s, a, number).after.balance == WithdrawStep(s, a).after.balance
  {
  }
}
