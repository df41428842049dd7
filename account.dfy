/** BankAccount: an owner email fixed at construction and a balance that
    only deposit and withdraw change. Balances are whole cents. The pure
    functions first say what each operation does to an account's state;
    the class below carries that state in fields and is proved against them. */
module Account {
  import opened JavaLang
  import opened Validators

  /** What an account holds: its owner's email and its balance in cents. */
  datatype AccountState = AccountState(email: string, balance: int)

  // ---------------------------------------------------------------------
  // The operations on account state
  // ---------------------------------------------------------------------

  /** The BankAccount constructor: the amount is checked first, then the
      email; either failure leaves no account. */
  function OpenOutcome(email: Nullable<string>, startingBalance: Decimal): (r: Outcome<AccountState>)
    ensures r.Return? ==> email == Ref(r.value.email) && r.value.balance >= 0
  {
    if !IsAmountValid(startingBalance) then Throw(IllegalArgument)
    else
      match IsEmailValid(email)
      case Throw(e) => Throw(e)
      case Return(valid) =>
        if valid then
          ValidAmountIsCents(startingBalance);
          Return(AccountState(email.value, Cents(startingBalance)))
        else Throw(IllegalArgument)
  }

  /** BankAccount.withdraw on a balance: the new balance, or the exception. */
  function WithdrawOutcome(balance: int, amount: Decimal): (r: Outcome<int>)
    ensures r.Return? ==> 0 <= r.value <= balance
    ensures r.Throw? ==> r.exception == IllegalArgument || r.exception == InsufficientFunds
  {
    if !IsAmountValid(amount) then Throw(IllegalArgument)
    else
      ValidAmountIsCents(amount);
      if Cents(amount) <= balance then Return(balance - Cents(amount))
      else Throw(InsufficientFunds)
  }

  /** BankAccount.deposit on a balance: the new balance, or the exception. */
  function DepositOutcome(balance: int, amount: Decimal): (r: Outcome<int>)
    ensures r.Return? <==> IsAmountValid(amount)
    ensures r.Return? ==> r.value >= balance
    ensures r.Throw? ==> r.exception == IllegalArgument
  {
    if !IsAmountValid(amount) then Throw(IllegalArgument)
    else
      ValidAmountIsCents(amount);
      Return(balance + Cents(amount))
  }

  /** transfer, which the unit tests call but BankAccount does not define:
      a withdrawal from the source followed by a deposit to the destination. */
  function TransferOutcome(source: int, destination: int, amount: Decimal): (r: Outcome<(int, int)>)
    ensures r.Return? ==> r.value.0 + r.value.1 == source + destination
    ensures r.Return? ==> 0 <= r.value.0 <= source && r.value.1 >= destination
    ensures r.Throw? ==> WithdrawOutcome(source, amount) == Throw(r.exception)
  {
    match WithdrawOutcome(source, amount)
    case Throw(e) => Throw(e)
    case Return(s) =>
      match DepositOutcome(destination, amount)
      case Throw(e) => Throw(e)
      case Return(d) =>
        ValidAmountIsCents(amount);
        Return((s, d))
  }

  // ---------------------------------------------------------------------
  // Properties of the operations
  // ---------------------------------------------------------------------

  /** An account is opened exactly when the amount is valid and the email is
      a non-null string the email check accepts; it then holds exactly that
      email and the amount's cents. */
  lemma OpeningSucceedsExactly(email: Nullable<string>, startingBalance: Decimal)
    ensures OpenOutcome(email, startingBalance).Return? <==>
      IsAmountValid(startingBalance) && IsEmailValid(email) == Return(true)
    ensures OpenOutcome(email, startingBalance).Return? ==>
      |startingBalance.fraction| <= 2 &&
      OpenOutcome(email, startingBalance).value == AccountState(email.value, Cents(startingBalance))
  {
    if IsAmountValid(startingBalance) {
      ValidAmountIsCents(startingBalance);
    }
  }

  /** The amount is checked before the email: an invalid amount gives
      IllegalArgumentException whatever the email, even a null one. */
  lemma OpeningChecksAmountFirst(email: Nullable<string>, startingBalance: Decimal)
    requires !IsAmountValid(startingBalance)
    ensures OpenOutcome(email, startingBalance) == Throw(IllegalArgument)
  {
  }

  /** With a valid amount, an email the check rejects gives
      IllegalArgumentException, and an email check that throws (a null
      email, or a missing or final first '.') passes its exception on. */
  lemma OpeningRejectsEmail(email: Nullable<string>, startingBalance: Decimal)
    requires IsAmountValid(startingBalance)
    ensures IsEmailValid(email) == Return(false) ==> OpenOutcome(email, startingBalance) == Throw(IllegalArgument)
    ensures IsEmailValid(email).Throw? ==> OpenOutcome(email, startingBalance) == Throw(IsEmailValid(email).exception)
  {
  }

  /** Withdrawing an amount and depositing it again restores the balance:
      a successful withdrawal takes off exactly what a deposit puts back. */
  lemma WithdrawThenDeposit(balance: int, amount: Decimal)
    ensures WithdrawOutcome(balance, amount).Return? ==>
      DepositOutcome(WithdrawOutcome(balance, amount).value, amount) == Return(balance)
  {
    if IsAmountValid(amount) {
      ValidAmountIsCents(amount);
    }
  }

  /** Withdrawing the whole balance empties the account. */
  lemma WithdrawingEverything(balance: int, amount: Decimal)
    requires IsAmountValid(amount) && |amount.fraction| <= 2 && Cents(amount) == balance
    ensures WithdrawOutcome(balance, amount) == Return(0)
  {
  }

  /** A zero amount, -0.0 included, is accepted unless it is written with
      more than two fraction digits, and then changes nothing, in either
      direction. */
  lemma ZeroAmountChangesNothing(balance: int, amount: Decimal)
    requires balance >= 0
    requires DigitsValue(amount.whole) == 0 && DigitsValue(amount.fraction) == 0
    ensures IsAmountValid(amount) <==> |amount.fraction| <= 2
    ensures IsAmountValid(amount) ==>
      DepositOutcome(balance, amount) == Return(balance) &&
      WithdrawOutcome(balance, amount) == Return(balance)
  {
  }

  /** Depositing an amount and withdrawing it again restores the balance;
      an invalid amount is refused by both with the same exception. */
  lemma DepositThenWithdraw(balance: int, amount: Decimal)
    requires balance >= 0
    ensures DepositOutcome(balance, amount).Return? ==>
      WithdrawOutcome(DepositOutcome(balance, amount).value, amount) == Return(balance)
    ensures DepositOutcome(balance, amount).Throw? ==>
      WithdrawOutcome(balance, amount) == DepositOutcome(balance, amount)
  {
    if IsAmountValid(amount) {
      ValidAmountIsCents(amount);
    }
  }

  /** A transfer moves exactly the amount's cents from source to destination. */
  lemma TransferMovesAmount(source: int, destination: int, amount: Decimal)
    requires TransferOutcome(source, destination, amount).Return?
    ensures |amount.fraction| <= 2
    ensures TransferOutcome(source, destination, amount).value ==
      (source - Cents(amount), destination + Cents(amount))
  {
    ValidAmountIsCents(amount);
  }

  /** The deposit scenario of the unit tests: 200.00, then 0.11, then 0.01,
      gives 200.12. */
  lemma DepositScenario()
    ensures (DepositOutcome(20000, Decimal(false, "0", "11")),
             DepositOutcome(20011, Decimal(false, "0", "01")))
      == (Return(20011), Return(20012))
  {
    assert Cents(Decimal(false, "0", "11")) == 11;
    assert Cents(Decimal(false, "0", "01")) == 1;
  }

  /** The withdrawal scenario of the unit tests: 200.00 less 100 is 100.00,
      from which 300 and 101 are refused as insufficient funds. */
  lemma OverdrawScenario()
    ensures (WithdrawOutcome(20000, Decimal(false, "100", "0")),
             WithdrawOutcome(10000, Decimal(false, "300", "0")),
             WithdrawOutcome(10000, Decimal(false, "101", "0")))
      == (Return(10000), Throw(InsufficientFunds), Throw(InsufficientFunds))
  {
  }

  /** The rest of that scenario: 100.00 less 99 is 1.00, less 1 is 0. */
  lemma WithdrawToZeroScenario()
    ensures (WithdrawOutcome(10000, Decimal(false, "99", "0")),
             WithdrawOutcome(100, Decimal(false, "1", "0")))
      == (Return(100), Return(0))
  {
  }

  /** The end of the transfer scenario of the unit tests: from 48.90,
      48.91 is refused and 48.9 empties the source into a destination of
      351.10, which ends at 400.00. */
  lemma TransferScenario()
    ensures TransferOutcome(4890, 35110, Decimal(false, "48", "91")) == Throw(InsufficientFunds)
    ensures TransferOutcome(4890, 35110, Decimal(false, "48", "9")) == Return((0, 40000))
  {
  }

  // ---------------------------------------------------------------------
  // The class
  // ---------------------------------------------------------------------

  class BankAccount {
    /** The owner's email: set by the constructor, never changed (no setter). */
    const email: string
    /** The balance in cents. */
    var balance: int

    /** What the constructor guarantees and the operations keep: the email
        passed the email check and the balance is not below zero. */
    ghost predicate Valid()
      reads this
    {
      IsEmailValid(Ref(email)) == Return(true) && balance >= 0
    }

    ghost function State(): AccountState
      reads this
    {
      AccountState(email, balance)
    }

    /** Allocates an account holding an already validated state. */
    constructor Init(state: AccountState)
      requires IsEmailValid(Ref(state.email)) == Return(true) && state.balance >= 0
      ensures Valid() && State() == state
    {
      email := state.email;
      balance := state.balance;
    }

    /** The BankAccount constructor, which checks its arguments and throws
        instead of building an account. */
    static method New(email: Nullable<string>, startingBalance: Decimal) returns (r: Outcome<BankAccount>)
      ensures r.Throw? ==> OpenOutcome(email, startingBalance) == Throw(r.exception)
      ensures r.Return? ==> (fresh(r.value) && r.value.Valid() &&
        OpenOutcome(email, startingBalance) == Return(r.value.State()))
    {
      if !IsAmountValid(startingBalance) {
        return Throw(IllegalArgument);
      }
      var valid := IsEmailValid(email);
      if valid.Throw? {
        return Throw(valid.exception);
      }
      if valid.value {
        ValidAmountIsCents(startingBalance);
        var account := new BankAccount.Init(AccountState(email.value, Cents(startingBalance)));
        r := Return(account);
      } else {
        r := Throw(IllegalArgument);
      }
    }

    method GetBalance() returns (b: int)
      ensures b == balance
    {
      b := balance;
    }

    method GetEmail() returns (e: string)
      ensures e == email
    {
      e := email;
    }

    /** BankAccount.withdraw: takes the amount off the balance, or throws and
        leaves the balance as it was. */
    method Withdraw(amount: Decimal) returns (c: Completion)
      requires Valid()
      modifies this
      ensures Valid()
      ensures match WithdrawOutcome(old(balance), amount)
        case Return(b) => c == Normal && balance == b
        case Throw(e) => c == Abrupt(e) && balance == old(balance)
    {
      if !IsAmountValid(amount) {
        c := Abrupt(IllegalArgument);
      } else {
        ValidAmountIsCents(amount);
        if Cents(amount) <= balance {
          balance := balance - Cents(amount);
          c := Normal;
        } else {
          c := Abrupt(InsufficientFunds);
        }
      }
    }

    /** BankAccount.deposit: adds the amount to the balance, or throws and
        leaves the balance as it was. */
    method Deposit(amount: Decimal) returns (c: Completion)
      requires Valid()
      modifies this
      ensures Valid()
      ensures match DepositOutcome(old(balance), amount)
        case Return(b) => c == Normal && balance == b
        case Throw(e) => c == Abrupt(e) && balance == old(balance)
    {
      if !IsAmountValid(amount) {
        c := Abrupt(IllegalArgument);
      } else {
        ValidAmountIsCents(amount);
        balance := balance + Cents(amount);
        c := Normal;
      }
    }

    /** transfer as the unit tests use it (BankAccount itself has none):
        withdraw here, then deposit into `destination`. A failed withdrawal
        changes neither account, and a deposit after a successful withdrawal
        cannot fail. Transferring to the same account changes nothing. */
    method Transfer(amount: Decimal, destination: BankAccount) returns (c: Completion)
      requires Valid() && destination.Valid()
      modifies this, destination
      ensures Valid() && destination.Valid()
      ensures destination != this ==>
        match TransferOutcome(old(balance), old(destination.balance), amount)
        case Return(p) => c == Normal && balance == p.0 && destination.balance == p.1
        case Throw(e) => c == Abrupt(e) && balance == old(balance) && destination.balance == old(destination.balance)
      ensures destination == this ==> (balance == old(balance) &&
        c == if WithdrawOutcome(old(balance), amount).Return? then Normal
             else Abrupt(WithdrawOutcome(old(balance), amount).exception))
    {
      c := Withdraw(amount);
      if c.Normal? {
        var deposited := destination.Deposit(amount);
        assert deposited == Normal;
        ValidAmountIsCents(amount);
      }
    }
  }
}
