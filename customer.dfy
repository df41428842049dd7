/** BankCustomer: a customer owning a savings and a checking account, to
    which it forwards deposits and balance reads. Its constructor reads an
    email field that nothing ever assigns, so the accounts are built with a
    null email. */
module Customer {
  import opened JavaLang
  import opened Validators
  import opened Account

  /** The balances, in cents, of the two accounts a customer owns. */
  datatype Holdings = Holdings(checking: int, savings: int)

  /** The BankCustomer constructor, given the value of its email field:
      the savings account is opened first, then the checking account, and
      the first exception ends the construction. On success, the pair holds
      the savings state, then the checking state. */
  function CustomerOpenOutcome(email: Nullable<string>, checkingsBalance: Decimal, savingsBalance: Decimal)
    : (r: Outcome<(AccountState, AccountState)>)
    ensures r.Return? ==> r.value.0.email == r.value.1.email && email == Ref(r.value.0.email)
    ensures r.Return? ==> r.value.0.balance >= 0 && r.value.1.balance >= 0
  {
    match OpenOutcome(email, savingsBalance)
    case Throw(e) => Throw(e)
    case Return(savings) =>
      match OpenOutcome(email, checkingsBalance)
      case Throw(e) => Throw(e)
      case Return(checking) => Return((savings, checking))
  }

  /** BankCustomer.depositChecking on the two balances. */
  function DepositCheckingOutcome(h: Holdings, amount: Decimal): (r: Outcome<Holdings>)
    ensures r.Return? ==> r.value.savings == h.savings
  {
    match DepositOutcome(h.checking, amount)
    case Throw(e) => Throw(e)
    case Return(b) => Return(h.(checking := b))
  }

  /** BankCustomer.depositSavings on the two balances. */
  function DepositSavingsOutcome(h: Holdings, amount: Decimal): (r: Outcome<Holdings>)
    ensures r.Return? ==> r.value.checking == h.checking
  {
    match DepositOutcome(h.savings, amount)
    case Throw(e) => Throw(e)
    case Return(b) => Return(h.(savings := b))
  }

  /** An invalid savings balance is refused by the savings account's
      constructor before the checking account is attempted: the checking
      balance and the email play no part. */
  lemma SavingsOpenedFirst(email: Nullable<string>, checkingsBalance: Decimal, savingsBalance: Decimal)
    requires !IsAmountValid(savingsBalance)
    ensures CustomerOpenOutcome(email, checkingsBalance, savingsBalance) == Throw(IllegalArgument)
  {
    OpeningChecksAmountFirst(email, savingsBalance);
  }

  /** With the email field left null, no customer is ever constructed: an
      invalid savings balance gives IllegalArgumentException, and any other
      gives NullPointerException from the email check. */
  lemma NeverConstructed(checkingsBalance: Decimal, savingsBalance: Decimal)
    ensures CustomerOpenOutcome(Null, checkingsBalance, savingsBalance) ==
      Throw(if IsAmountValid(savingsBalance) then NullPointer else IllegalArgument)
  {
    if IsAmountValid(savingsBalance) {
      OpeningRejectsEmail(Null, savingsBalance);
    }
  }

  /** A valid deposit into checking raises the checking balance by exactly
      its cents and leaves savings alone; an invalid one changes nothing and
      passes on IllegalArgumentException. The same holds of savings. */
  lemma DepositsTouchOneAccount(h: Holdings, amount: Decimal)
    ensures IsAmountValid(amount) ==> (|amount.fraction| <= 2 &&
      DepositCheckingOutcome(h, amount) == Return(Holdings(h.checking + Cents(amount), h.savings)) &&
      DepositSavingsOutcome(h, amount) == Return(Holdings(h.checking, h.savings + Cents(amount))))
    ensures !IsAmountValid(amount) ==>
      DepositCheckingOutcome(h, amount) == Throw(IllegalArgument) &&
      DepositSavingsOutcome(h, amount) == Throw(IllegalArgument)
  {
    if IsAmountValid(amount) {
      ValidAmountIsCents(amount);
    }
  }

  /** With an email the check accepts in place of the unassigned field, and
      two valid balances, both accounts open, each with that email and its
      balance in cents. */
  lemma ConstructedWithEmail(email: string, checkingsBalance: Decimal, savingsBalance: Decimal)
    requires IsEmailValid(Ref(email)) == Return(true)
    requires IsAmountValid(checkingsBalance) && IsAmountValid(savingsBalance)
    ensures |checkingsBalance.fraction| <= 2 && |savingsBalance.fraction| <= 2
    ensures CustomerOpenOutcome(Ref(email), checkingsBalance, savingsBalance) ==
      Return((AccountState(email, Cents(savingsBalance)), AccountState(email, Cents(checkingsBalance))))
  {
    OpeningSucceedsExactly(Ref(email), savingsBalance);
    OpeningSucceedsExactly(Ref(email), checkingsBalance);
  }

  class BankCustomer {
    const firstName: string
    const lastName: string
    const savings: BankAccount
    const checking: BankAccount

    /** The customer owns two distinct, valid accounts. */
    ghost predicate Valid()
      reads this, savings, checking
    {
      savings != checking && savings.Valid() && checking.Valid()
    }

    ghost function Balances(): Holdings
      reads this, savings, checking
    {
      Holdings(checking.balance, savings.balance)
    }

    /** Allocates a customer around two accounts already opened. */
    constructor Init(firstName: string, lastName: string, savings: BankAccount, checking: BankAccount)
      requires savings != checking && savings.Valid() && checking.Valid()
      ensures Valid()
      ensures this.firstName == firstName && this.lastName == lastName
      ensures this.savings == savings && this.checking == checking
    {
      this.firstName := firstName;
      this.lastName := lastName;
      this.savings := savings;
      this.checking := checking;
    }

    /** The body of the BankCustomer constructor, given the value its email
        field holds when the constructor runs. */
    static method Build(firstName: string, lastName: string, email: Nullable<string>,
                        checkingsBalance: Decimal, savingsBalance: Decimal)
      returns (r: Outcome<BankCustomer>)
      ensures match CustomerOpenOutcome(email, checkingsBalance, savingsBalance)
        case Throw(e) => r == Throw(e)
        case Return(states) =>
          r.Return? && fresh(r.value) && fresh(r.value.savings) && fresh(r.value.checking) &&
          r.value.Valid() && r.value.firstName == firstName && r.value.lastName == lastName &&
          r.value.savings.State() == states.0 && r.value.checking.State() == states.1
    {
      var savings := BankAccount.New(email, savingsBalance);
      if savings.Throw? {
        return Throw(savings.exception);
      }
      var checking := BankAccount.New(email, checkingsBalance);
      if checking.Throw? {
        return Throw(checking.exception);
      }
      var customer := new BankCustomer.Init(firstName, lastName, savings.value, checking.value);
      r := Return(customer);
    }

    /** The BankCustomer constructor as written: the email field is never
        assigned, so it is null here, and construction always throws. */
    static method New(firstName: string, lastName: string, checkingsBalance: Decimal, savingsBalance: Decimal)
      returns (r: Outcome<BankCustomer>)
      ensures r == Throw(if IsAmountValid(savingsBalance) then NullPointer else IllegalArgument)
    {
      NeverConstructed(checkingsBalance, savingsBalance);
      r := Build(firstName, lastName, Null, checkingsBalance, savingsBalance);
    }

    /** BankCustomer.depositChecking: forwards to the checking account. */
    method DepositChecking(amount: Decimal) returns (c: Completion)
      requires Valid()
      modifies checking
      ensures Valid()
      ensures match DepositCheckingOutcome(old(Balances()), amount)
        case Return(h) => c == Normal && Balances() == h
        case Throw(e) => c == Abrupt(e) && Balances() == old(Balances())
    {
      c := checking.Deposit(amount);
    }

    /** BankCustomer.depositSavings: forwards to the savings account. */
    method DepositSavings(amount: Decimal) returns (c: Completion)
      requires Valid()
      modifies savings
      ensures Valid()
      ensures match DepositSavingsOutcome(old(Balances()), amount)
        case Return(h) => c == Normal && Balances() == h
        case Throw(e) => c == Abrupt(e) && Balances() == old(Balances())
    {
      c := savings.Deposit(amount);
    }

    method GetCheckingBalance() returns (b: int)
      ensures b == Balances().checking
    {
      b := checking.GetBalance();
    }

    method GetSavingsBalance() returns (b: int)
      ensures b == Balances().savings
    {
      b := savings.GetBalance();
    }
  }
}
