/** The account registry and the login session of the banking application:
    the decision rules of sign-up, login, the dialog-level fund transfer and
    logout, taken apart from the dialogs that collect their inputs.

    Every answer a dialog gives is a parameter: an Option that is None when the
    dialog was cancelled. */
module Banking {
  import opened Accounts

  datatype Option<T> = None | Some(value: T)

  /** Python's `not answer` for a dialog answer: an answer is truthy exactly
      when it was given and is not the empty string. */
  predicate Blank(answer: Option<string>)
    ensures !Blank(answer) <==> answer.Some? && |answer.value| > 0
  {
    answer.None? || answer.value == ""
  }

  // ---------------------------------------------------------------------------
  // Case mapping of account types (ASCII letters only).

  function LowerChar(c: char): char
  {
    if 'A' <= c <= 'Z' then (c as int + 32) as char else c
  }

  function UpperChar(c: char): char
  {
    if 'a' <= c <= 'z' then (c as int - 32) as char else c
  }

  /** Python's `str.lower`. */
  function Lower(s: string): (r: string)
    ensures |r| == |s|
    ensures forall i :: 0 <= i < |s| ==> r[i] == LowerChar(s[i])
  {
    if s == [] then [] else [LowerChar(s[0])] + Lower(s[1..])
  }

  /** Python's `str.capitalize`: first letter upper case, the rest lower case. */
  function Capitalize(s: string): (r: string)
    ensures |r| == |s|
    ensures |s| > 0 ==> r[0] == UpperChar(s[0])
    ensures forall i :: 0 < i < |s| ==> r[i] == LowerChar(s[i])
  {
    if s == [] then [] else [UpperChar(s[0])] + Lower(s[1..])
  }

  /** The account types sign-up accepts, compared case-insensitively. */
  predicate IsAccountType(t: string)
    ensures IsAccountType(t) <==>
              |t| == 8 && (CaseVariantOf(t, "personal") || CaseVariantOf(t, "business"))
  {
    LowerMatches(t, "personal");
    LowerMatches(t, "business");
    Lower(t) == "personal" || Lower(t) == "business"
  }

  /** `t` spells the lower-case word `word`, letter by letter, in any case. */
  ghost predicate CaseVariantOf(t: string, word: string)
    requires |t| == |word|
  {
    forall i :: 0 <= i < |t| ==> LowerChar(t[i]) == word[i]
  }

  lemma LowerMatches(t: string, word: string)
    ensures Lower(t) == word <==> |t| == |word| && CaseVariantOf(t, word)
  {
    if |t| == |word| && CaseVariantOf(t, word) {
      assert forall i :: 0 <= i < |t| ==> Lower(t)[i] == word[i];
    }
  }

  /** An accepted account type is stored as exactly "Personal" or "Business". */
  lemma {:induction false} CapitalizedAccountType(t: string)
    requires IsAccountType(t)
    ensures Capitalize(t) == (if Lower(t) == "personal" then "Personal" else "Business")
  {
    var low, cap := Lower(t), Capitalize(t);
    var word := if low == "personal" then "Personal" else "Business";
    assert |t| == 8;
    assert cap[0] == word[0] by {
      assert LowerChar(t[0]) == low[0];
    }
    forall i | 0 < i < 8
      ensures cap[i] == word[i]
    {
      assert cap[i] == low[i];
    }
  }

  // ---------------------------------------------------------------------------
  // Decision rules.

  /** What sign-up does with the answers it collected, in the order it asks. */
  datatype SignUpOutcome =
    | Created
    | MissingAccountNumber        // silently abandoned
    | AccountExists               // "Account number already exists"
    | MissingName                 // silently abandoned
    | InvalidAccountType          // "Invalid account type"
    | MissingPassword             // silently abandoned
    | MissingOpeningBalance       // balance dialog cancelled
    | OpeningBalanceBelowMinimum  // refused by the balance dialog's minimum of 0

  function SignUpCheck(registered: set<string>, accNo: Option<string>, name: Option<string>,
                       accType: Option<string>, password: Option<string>,
                       openingBalance: Option<real>): (r: SignUpOutcome)
    ensures r == Created <==>
              && !Blank(accNo) && accNo.value !in registered
              && !Blank(name)
              && accType.Some? && IsAccountType(accType.value)
              && !Blank(password)
              && openingBalance.Some? && openingBalance.value >= 0.0
    ensures r == MissingAccountNumber <==> Blank(accNo)
    ensures r == AccountExists <==> !Blank(accNo) && accNo.value in registered
    ensures r == MissingName <==> !Blank(accNo) && accNo.value !in registered && Blank(name)
    ensures r == InvalidAccountType <==>
              && !Blank(accNo) && accNo.value !in registered && !Blank(name)
              && (Blank(accType) || !IsAccountType(accType.value))
    ensures r == MissingPassword <==>
              && !Blank(accNo) && accNo.value !in registered && !Blank(name)
              && accType.Some? && IsAccountType(accType.value) && Blank(password)
    ensures r == MissingOpeningBalance <==>
              && !Blank(accNo) && accNo.value !in registered && !Blank(name)
              && accType.Some? && IsAccountType(accType.value) && !Blank(password)
              && openingBalance.None?
  {
    if Blank(accNo) then MissingAccountNumber
    else if accNo.value in registered then AccountExists
    else if Blank(name) then MissingName
    else if Blank(accType) || !IsAccountType(accType.value) then InvalidAccountType
    else if Blank(password) then MissingPassword
    else if openingBalance.None? then MissingOpeningBalance
    else if openingBalance.value < 0.0 then OpeningBalanceBelowMinimum
    else Created
  }

  datatype LoginOutcome = LoggedIn | NoAccounts | AccountNotFound | IncorrectPassword

  function LoginCheck(accounts: map<string, BankAccount>, accNo: Option<string>,
                      password: Option<string>): (r: LoginOutcome)
    ensures r == LoggedIn <==>
              !Blank(accNo) && accNo.value in accounts && password == Some(accounts[accNo.value].password)
    ensures r == NoAccounts <==> accounts == map[]
    ensures r == AccountNotFound <==> accounts != map[] && (Blank(accNo) || accNo.value !in accounts)
  {
    if accounts == map[] then NoAccounts
    else if Blank(accNo) || accNo.value !in accounts then AccountNotFound
    else if password != Some(accounts[accNo.value].password) then IncorrectPassword
    else LoggedIn
  }

  /** What the fund-transfer dialog ends with. */
  datatype TransferRequest =
    | NeedTwoAccounts          // "Need at least 2 accounts"
    | InvalidRecipient         // "Invalid recipient"
    | NoAmount                 // amount dialog cancelled
    | AmountBelowMinimum       // refused by the amount dialog's minimum of 0.01
    | Submitted(outcome: Outcome)

  /** The smallest amount the transfer dialog accepts. */
  const MinTransfer: real := 0.01

  /** The dialog-level refusal of a transfer by the account numbered `own`, or
      None when the account-level transfer runs. The amount dialog refuses
      anything below its minimum, so the later test for a falsy amount only
      ever meets a cancelled dialog: zero is below the minimum. */
  function TransferRefusal(accounts: map<string, BankAccount>, own: string,
                           target: Option<string>, amount: Option<real>): (r: Option<TransferRequest>)
    ensures r.None? <==>
              && |accounts| >= 2
              && !Blank(target) && target.value in accounts && target.value != own
              && amount.Some? && amount.value >= MinTransfer
    ensures r == Some(NeedTwoAccounts) <==> |accounts| < 2
    ensures r == Some(InvalidRecipient) <==>
              |accounts| >= 2 && (Blank(target) || target.value !in accounts || target.value == own)
    ensures r == Some(NoAmount) <==>
              && |accounts| >= 2
              && !Blank(target) && target.value in accounts && target.value != own
              && amount.None?
    ensures r == Some(AmountBelowMinimum) <==>
              && |accounts| >= 2
              && !Blank(target) && target.value in accounts && target.value != own
              && amount.Some? && amount.value < MinTransfer
    ensures r.Some? ==> !r.value.Submitted?
  {
    if |accounts| < 2 then Some(NeedTwoAccounts)
    else if Blank(target) || target.value !in accounts || target.value == own then Some(InvalidRecipient)
    else if amount.None? then Some(NoAmount)
    else if amount.value < MinTransfer then Some(AmountBelowMinimum)
    else if amount.value == 0.0 then Some(NoAmount)
    else None
  }

  // ---------------------------------------------------------------------------
  // The registry and the session.

  /** What the registry keeps true of every account it holds. */
  ghost predicate WellFormed(key: string, a: BankAccount)
    reads a
  {
    && a.accNo == key && key != ""
    && a.name != "" && a.password != ""
    && (a.accType == "Personal" || a.accType == "Business")
    && a.balance >= 0.0
  }

  class Ledger {
    var accounts: map<string, BankAccount>
    var current: Option<BankAccount>

    ghost predicate Valid()
      reads this, accounts.Values
    {
      && (forall k | k in accounts :: WellFormed(k, accounts[k]))
      && (current.Some? ==> current.value in accounts.Values)
    }

    constructor ()
      ensures Valid()
      ensures accounts == map[] && current == None
    {
      accounts := map[];
      current := None;
    }

    method SignUp(accNo: Option<string>, name: Option<string>, accType: Option<string>,
                  password: Option<string>, openingBalance: Option<real>) returns (o: SignUpOutcome)
      requires Valid()
      modifies this`accounts
      ensures Valid()
      ensures o == SignUpCheck(old(accounts).Keys, accNo, name, accType, password, openingBalance)
      ensures o != Created ==> accounts == old(accounts)
      ensures o == Created ==>
                && accounts.Keys == old(accounts).Keys + {accNo.value}
                && (forall k | k in old(accounts) :: accounts[k] == old(accounts)[k])
                && fresh(accounts[accNo.value])
                && accounts[accNo.value].name == name.value
                && accounts[accNo.value].password == password.value
                && accounts[accNo.value].accType == Capitalize(accType.value)
                && accounts[accNo.value].State() == AccountState(openingBalance.value, [])
    {
      o := SignUpCheck(accounts.Keys, accNo, name, accType, password, openingBalance);
      if o == Created {
        CapitalizedAccountType(accType.value);
        var a := new BankAccount(accNo.value, name.value, password.value, Capitalize(accType.value),
                                 openingBalance.value);
        assert WellFormed(accNo.value, a);
        ghost var before := accounts;
        accounts := accounts[accNo.value := a];
        if current.Some? {
          ghost var k :| k in before && before[k] == current.value;
          assert accounts[k] == current.value;
        }
        forall k | k in accounts
          ensures WellFormed(k, accounts[k])
        {
          if k != accNo.value {
            assert accounts[k] == before[k];
          }
        }
      }
    }

    method Login(accNo: Option<string>, password: Option<string>) returns (o: LoginOutcome)
      requires Valid()
      modifies this`current
      ensures Valid()
      ensures o == LoginCheck(accounts, accNo, password)
      ensures o == LoggedIn ==> current == Some(accounts[accNo.value])
      ensures o != LoggedIn ==> current == old(current)
    {
      o := LoginCheck(accounts, accNo, password);
      if o == LoggedIn {
        current := Some(accounts[accNo.value]);
      }
    }

    method Logout()
      requires Valid()
      modifies this`current
      ensures Valid()
      ensures current == None
    {
      current := None;
    }

    /** The fund-transfer dialog of the logged-in account. */
    method TransferFunds(target: Option<string>, amount: Option<real>) returns (o: TransferRequest)
      requires Valid() && current.Some?
      modifies accounts.Values
      ensures Valid()
      ensures var refusal := TransferRefusal(accounts, current.value.accNo, target, amount);
              refusal.Some? ==> o == refusal.value && unchanged(accounts.Values)
      ensures var refusal := TransferRefusal(accounts, current.value.accNo, target, amount);
              refusal.None? ==>
                var src := current.value;
                var dst := accounts[target.value];
                var r := TransferStep(old(src.State()), src.Holder(), old(dst.State()), dst.Holder(),
                                      false, amount.value);
                && dst != src
                && o == Submitted(r.outcome) && r.outcome != InvalidAmount
                && src.State() == r.source && dst.State() == r.target
                && (forall k | k in accounts && k != src.accNo && k != target.value ::
                      accounts[k].State() == old(accounts[k].State()))
    {
      var refusal := TransferRefusal(accounts, current.value.accNo, target, amount);
      if refusal.Some? {
        return refusal.value;
      }
      var src := current.value;
      var dst := accounts[target.value];
      var result := src.Transfer(amount.value, dst);
      o := Submitted(result);
    }
  }
}
