# Bank account model

A Dafny model of a small Java bank package (`edu.ithaca.dturnbull.bank`):

- `BankAccount` holds an owner email and a balance. It has two static
  validators, `isEmailValid` (a chain of string tests) and `isAmountValid` (a
  sign test plus a count of the characters after the last `.` in the amount's
  `Double.toString` text). Its constructor, `withdraw` and `deposit` change
  the balance and throw `IllegalArgumentException` for a bad amount or email,
  and `InsufficientFundsException` for an overdraw.
- `BankCustomer` owns a savings and a checking `BankAccount`. It forwards
  deposits and balance reads to them.

Files:

- `javalang.dfy` (module `JavaLang`): the Java runtime pieces the code uses.
  These are nullable references, the exception kinds, and how a call ends
  (`Outcome` for a call that returns a value, `Completion` for a void one).
  It also has `String.indexOf`, `String.lastIndexOf` and `String.charAt`, each
  with a contract that pins its result down.
- `validators.dfy` (module `Validators`): `IsEmailValid` and `IsAmountValid`,
  the two static methods of `BankAccount`. They read no account state and
  both `Account` and `Customer` use them, so they have a module of their own.
  Next to them are lemmas that say what each test of the chain decides. An
  amount is a `Decimal`: a sign, whole digits and fraction digits, which is the text
  `Double.toString` prints. `Cents` gives its value in whole cents.
- `account.dfy` (module `Account`): pure functions giving each operation's
  outcome on an account's state (`OpenOutcome`, `WithdrawOutcome`,
  `DepositOutcome`, `TransferOutcome`), lemmas about them, and the class
  `BankAccount`. The class has a `const email` and a `var balance` in cents.
  Its methods change `balance` in place and are proved against those
  functions.
- `customer.dfy` (module `Customer`): the same layering for `BankCustomer`,
  over the pair of balances (`Holdings`) of its two accounts.

A Java constructor that throws is modelled as a static factory method
returning `Outcome<…>`. The Dafny constructors (`Init`) only allocate an
object, and they require the state the Java constructor establishes: an
email the check accepts and a balance not below zero. `BankAccount.Valid`
states that state, and every operation keeps it.

Behaviour kept as the code has it, even where the unit tests expect otherwise:

- The test on the first `.` (`BankAccount.java:68`) compares the first `.`
  with the next character, so it rejects exactly a `..` at the first dot.
- When there is no `.`, or the first `.` is the last character, that test
  reads out of range and throws `StringIndexOutOfBoundsException`. So
  `isEmailValid("a@b.")` throws; the unit test at `BankAccountTest.java:68`
  expects `false`. `Validators.DotEmailVectors` states the throw.
- `email.isEmpty()` (`BankAccount.java:56`) can never be reached, because the
  length test just before it already rejects every string of 3 characters or
  fewer.
- `transfer` is not defined in `BankAccount.java`. The unit tests
  (`BankAccountTest.java:94-132`) call it, so it is modelled from them: a
  withdrawal from the source, then a deposit to the destination.
- `BankCustomer` never assigns its `email` field. Its constructor therefore
  opens both accounts with a `null` email, and no customer is ever
  constructed (see Findings).

## Model

| member | source | states |
|---|---|---|
| `Validators.IsEmailValid` | src/main/java/edu/ithaca/dturnbull/bank/BankAccount.java:49-77 | a null email throws NullPointerException (and only a null one does); every other outcome is a boolean or a StringIndexOutOfBoundsException |
| `Validators.NoAtOrTooShortIsRejected` | src/main/java/edu/ithaca/dturnbull/bank/BankAccount.java:50-58 | a string without `@`, or of length 3 or less (the empty string included), is rejected, so the emptiness test is dead |
| `Validators.BadFirstCharacterIsRejected` | src/main/java/edu/ithaca/dturnbull/bank/BankAccount.java:59-61 | a string whose first `@` or first `.` is at index 0 is rejected |
| `Validators.NonLetterBeforeAtIsRejected` | src/main/java/edu/ithaca/dturnbull/bank/BankAccount.java:62-64 | a non-letter just before the first `@` is rejected |
| `Validators.ForbiddenCharacterIsRejected` | src/main/java/edu/ithaca/dturnbull/bank/BankAccount.java:65-67 | any `$`, `!` or `#` is rejected |
| `Validators.FirstDotCheck` | src/main/java/edu/ithaca/dturnbull/bank/BankAccount.java:68-70 | once the earlier tests pass: no `.`, or a first `.` that ends the string, throws StringIndexOutOfBoundsException; a `.` right after the first `.` is rejected |
| `Validators.SuffixDecides` | src/main/java/edu/ithaca/dturnbull/bank/BankAccount.java:71-76 | once the test on the first `.` passes, the result is true exactly when neither of the last two characters is a `.` (at least two characters follow the last `.`) |
| `Validators.ShortEmailVectors` | src/test/java/edu/ithaca/dturnbull/bank/BankAccountTest.java:59-65 | `""`, `"a@b"`, `"a@"`, `"@"` are rejected |
| `Validators.PrefixEmailVectors` | src/test/java/edu/ithaca/dturnbull/bank/BankAccountTest.java:60-62 | `".a@b"` and `"a-@b.cc"` are rejected |
| `Validators.DotEmailVectors` | src/test/java/edu/ithaca/dturnbull/bank/BankAccountTest.java:61-68 | `"a..b@c"` is rejected; `"a@b."` throws StringIndexOutOfBoundsException |
| `Validators.TypicalEmailVector` | src/test/java/edu/ithaca/dturnbull/bank/BankAccountTest.java:58 | `"a@b.com"` is accepted |
| `Validators.SuffixEmailVectors` | src/test/java/edu/ithaca/dturnbull/bank/BankAccountTest.java:66-67 | `"a@b.b"` is rejected and `"a@b.bb"` accepted |
| `Validators.DoubleToString` | src/main/java/edu/ithaca/dturnbull/bank/BankAccount.java:92 | the amount's text is the sign and whole digits, then its only `.`, then the fraction digits |
| `Validators.IsAmountValid` | src/main/java/edu/ithaca/dturnbull/bank/BankAccount.java:91-106 | the sign test and the line-98 substring length together accept an amount exactly when it is not below zero and has at most two digits after the `.` |
| `Validators.ValidAmountIsCents` | src/main/java/edu/ithaca/dturnbull/bank/BankAccount.java:91-106 | a valid amount is a whole, non-negative number of cents |
| `Validators.NegativeAmountVectors` | src/test/java/edu/ithaca/dturnbull/bank/BankAccountTest.java:160-161 | -1 and -0.01 are rejected |
| `Validators.OverPreciseAmountVectors` | src/test/java/edu/ithaca/dturnbull/bank/BankAccountTest.java:170-171 | 10.111 and 10.1111111 are rejected |
| `Validators.WholeAmountVectors` | src/test/java/edu/ithaca/dturnbull/bank/BankAccountTest.java:162-166 | 0, 1 and 100 are accepted, as 0, 100 and 10000 cents |
| `Validators.OneCentVector` | src/test/java/edu/ithaca/dturnbull/bank/BankAccountTest.java:164 | 0.01 is accepted, as 1 cent |
| `Validators.FractionalAmountVectors` | src/test/java/edu/ithaca/dturnbull/bank/BankAccountTest.java:168-169 | 10.1 and 10.11 are accepted, as 1010 and 1011 cents |
| `Account.OpenOutcome` | src/main/java/edu/ithaca/dturnbull/bank/BankAccount.java:11-22 | an opened account holds exactly the given (non-null) email, and its balance is not below zero |
| `Account.OpeningSucceedsExactly` | src/main/java/edu/ithaca/dturnbull/bank/BankAccount.java:11-22 | opening succeeds exactly when the amount is valid and the email check returns true; the account then holds that email and the amount's cents |
| `Account.OpeningChecksAmountFirst` | src/main/java/edu/ithaca/dturnbull/bank/BankAccount.java:12-14 | an invalid starting balance throws IllegalArgumentException whatever the email, null included |
| `Account.OpeningRejectsEmail` | src/main/java/edu/ithaca/dturnbull/bank/BankAccount.java:15-21 | with a valid amount, a rejected email throws IllegalArgumentException and an email check that throws passes its exception on |
| `Account.WithdrawOutcome` | src/main/java/edu/ithaca/dturnbull/bank/BankAccount.java:35-46 | a successful withdrawal leaves a balance between zero and the old balance; a failed one throws IllegalArgumentException or InsufficientFundsException |
| `Account.WithdrawThenDeposit` | src/main/java/edu/ithaca/dturnbull/bank/BankAccount.java:35-86 | depositing the amount just withdrawn gives back the balance before the withdrawal |
| `Account.WithdrawingEverything` | src/main/java/edu/ithaca/dturnbull/bank/BankAccount.java:40-42 | withdrawing exactly the balance leaves zero |
| `Account.DepositOutcome` | src/main/java/edu/ithaca/dturnbull/bank/BankAccount.java:79-86 | a deposit succeeds exactly for a valid amount and never lowers the balance; otherwise it throws IllegalArgumentException |
| `Account.ZeroAmountChangesNothing` | src/main/java/edu/ithaca/dturnbull/bank/BankAccount.java:35-86 | a zero amount, -0.0 included, is valid exactly when it has at most two fraction digits, and depositing or withdrawing it then leaves the balance as it was |
| `Account.DepositThenWithdraw` | src/main/java/edu/ithaca/dturnbull/bank/BankAccount.java:35-86 | depositing then withdrawing the same valid amount restores the balance; an invalid amount is refused by both with IllegalArgumentException |
| `Account.TransferOutcome` | src/test/java/edu/ithaca/dturnbull/bank/BankAccountTest.java:94-132 | a transfer keeps the sum of the two balances, keeps the source at zero or above, and fails only as the withdrawal from the source fails |
| `Account.TransferMovesAmount` | src/test/java/edu/ithaca/dturnbull/bank/BankAccountTest.java:105-110 | a successful transfer moves exactly the amount's cents from source to destination |
| `Account.DepositScenario` | src/test/java/edu/ithaca/dturnbull/bank/BankAccountTest.java:74-80 | 200.00 plus 0.11 plus 0.01 is 200.12 |
| `Account.OverdrawScenario` | src/test/java/edu/ithaca/dturnbull/bank/BankAccountTest.java:26-31 | 200.00 less 100 is 100.00, from which withdrawing 300 or 101 throws InsufficientFundsException |
| `Account.WithdrawToZeroScenario` | src/test/java/edu/ithaca/dturnbull/bank/BankAccountTest.java:33-37 | 100.00 less 99 is 1.00, and less 1 more is 0.00 |
| `Account.TransferScenario` | src/test/java/edu/ithaca/dturnbull/bank/BankAccountTest.java:123-127 | from 48.90, transferring 48.91 throws InsufficientFundsException, and 48.9 leaves 0.00 and 400.00 |
| `Account.BankAccount.New` | src/main/java/edu/ithaca/dturnbull/bank/BankAccount.java:11-22 | the constructor throws exactly as `OpenOutcome` says; otherwise it yields a fresh account whose state is the opened state |
| `Account.BankAccount.GetBalance` | src/main/java/edu/ithaca/dturnbull/bank/BankAccount.java:24-26 | returns the balance |
| `Account.BankAccount.GetEmail` | src/main/java/edu/ithaca/dturnbull/bank/BankAccount.java:28-30 | returns the email, which is a `const` and so never changes after construction |
| `Account.BankAccount.Withdraw` | src/main/java/edu/ithaca/dturnbull/bank/BankAccount.java:35-46 | the new balance and the completion are those of `WithdrawOutcome`; on an exception the balance is unchanged; the balance stays non-negative |
| `Account.BankAccount.Deposit` | src/main/java/edu/ithaca/dturnbull/bank/BankAccount.java:79-86 | the new balance and the completion are those of `DepositOutcome`; on an exception the balance is unchanged |
| `Account.BankAccount.Transfer` | src/test/java/edu/ithaca/dturnbull/bank/BankAccountTest.java:94-132 | for two accounts, the new balances and the completion are those of `TransferOutcome`, and no balance changes on failure; for one account, the balance is unchanged |
| `Customer.CustomerOpenOutcome` | src/main/java/edu/ithaca/dturnbull/bank/BankCustomer.java:20-25 | when both accounts open, they share the (non-null) email and both balances are non-negative |
| `Customer.SavingsOpenedFirst` | src/main/java/edu/ithaca/dturnbull/bank/BankCustomer.java:23-24 | an invalid savings balance throws IllegalArgumentException before the checking account is attempted |
| `Customer.NeverConstructed` | src/main/java/edu/ithaca/dturnbull/bank/BankCustomer.java:11-25 | with the null email field, construction always throws: IllegalArgumentException for an invalid savings balance, NullPointerException otherwise |
| `Customer.ConstructedWithEmail` | src/main/java/edu/ithaca/dturnbull/bank/BankCustomer.java:20-25 | with an accepted email and two valid balances, both accounts open with that email and the balances' cents |
| `Customer.DepositCheckingOutcome` | src/main/java/edu/ithaca/dturnbull/bank/BankCustomer.java:27-29 | a successful checking deposit leaves the savings balance unchanged |
| `Customer.DepositSavingsOutcome` | src/main/java/edu/ithaca/dturnbull/bank/BankCustomer.java:32-34 | a successful savings deposit leaves the checking balance unchanged |
| `Customer.DepositsTouchOneAccount` | src/main/java/edu/ithaca/dturnbull/bank/BankCustomer.java:27-34 | a valid deposit raises only its own account's balance, by exactly the amount's cents; an invalid one throws IllegalArgumentException |
| `Customer.BankCustomer.Build` | src/main/java/edu/ithaca/dturnbull/bank/BankCustomer.java:20-25 | for a given email value, construction throws as `CustomerOpenOutcome` says, or yields a customer owning two fresh, distinct accounts in the opened states |
| `Customer.BankCustomer.New` | src/main/java/edu/ithaca/dturnbull/bank/BankCustomer.java:11-25 | the constructor as written always throws, NullPointerException unless the savings balance is invalid |
| `Customer.BankCustomer.DepositChecking` | src/main/java/edu/ithaca/dturnbull/bank/BankCustomer.java:27-29 | the balances and completion after the call are those of `DepositCheckingOutcome` |
| `Customer.BankCustomer.DepositSavings` | src/main/java/edu/ithaca/dturnbull/bank/BankCustomer.java:32-34 | the balances and completion after the call are those of `DepositSavingsOutcome` |
| `Customer.BankCustomer.GetCheckingBalance` | src/main/java/edu/ithaca/dturnbull/bank/BankCustomer.java:43-45 | returns the checking account's balance and changes nothing |
| `Customer.BankCustomer.GetSavingsBalance` | src/main/java/edu/ithaca/dturnbull/bank/BankCustomer.java:47-49 | returns the savings account's balance and changes nothing |

## Left out

- Binary floating point. Balances are whole cents (`int`), and an amount is its decimal text. The rounding of `double` sums in `balance + amount` and `balance -= amount` is not modelled.
- The full `Double.toString` algorithm. Amounts of 10^7 or more, or below 10^-3, print in scientific notation (`1.0E7`). The length test then counts the exponent as fraction characters and happens to reject them. `NaN` and `Infinity` have no `.`, so `substring` would throw. The `Decimal` type covers only the plain notation.
- `Decimal` also admits texts that `Double.toString` never prints, such as a trailing `0` in the fraction (`10.10`). The model judges those by their text, as the source judges the text it is given.
- `Validators.IsEmailValid`: a Dafny `string` is a sequence of Unicode scalar values, while `length`, `indexOf`, `lastIndexOf` and `charAt` in Java count UTF-16 code units. The two agree only on strings whose characters all lie in the Basic Multilingual Plane. A character outside it is one element in the model and two code units in Java. So Java accepts `"a@b.\U{1F600}"` (length 6, last `.` at 3), which the model rejects as having one character after the `.`. Java also throws `StringIndexOutOfBoundsException` for `"a@\U{1F600}"`, which the model rejects at the length test.
- `Character.isLetter` is restricted to the ASCII letters `a`-`z` and `A`-`Z`. Other Unicode letters before the `@` are treated as non-letters.
- Exception messages. Only the exception kind is modelled.
- The JUnit test class. It is used only for the concrete vectors and scenario lemmas above, and as the source of `transfer`.
- `getFirstName`, `getLastName` and `getAccountId`: trivial getters (the last returns the never-set `id`). The unused fields `accountID`, `id`, `checkingsBalance` and `savingsBalance` are left out too.
- The commented-out `withdrawChecking` / `withdrawSavings` forwarders in `BankCustomer.java`.
- `Customer.BankCustomer.Build` takes the email value as a parameter. This lets the forwarding methods be reached over a constructed customer. With the field's actual value (`null`), `Customer.BankCustomer.New` shows that no customer exists.

## Findings

| source | as written | input that shows it | evidently intended | confidence | as-written member | corrected member |
|---|---|---|---|---|---|---|
| src/main/java/edu/ithaca/dturnbull/bank/BankCustomer.java:11-25 | the constructor passes the `email` field, which is never assigned and so is `null`, to both `BankAccount` constructors; `isEmailValid(null)` throws at its first call | any valid savings balance, e.g. `new BankCustomer("a", "b", 10, 10)` throws NullPointerException | the customer's accounts are opened with a real, validated email | not executed; follows from the code | `Customer.NeverConstructed` | `Customer.ConstructedWithEmail` |
