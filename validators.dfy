/** The two static validators of BankAccount: the email heuristic and the
    amount check, together with the decimal text an amount prints as and
    its value in cents. */
module Validators {
  import opened JavaLang

  // ---------------------------------------------------------------------
  // isEmailValid
  // ---------------------------------------------------------------------

  /** BankAccount.isEmailValid: a chain of string tests, each of which
      either rejects or hands over to the next. A null argument throws at the
      first call on it; the test on the first '.' reads one character past
      it and throws when there is no '.' or the first '.' ends the string. */
  function IsEmailValid(email: Nullable<string>): (r: Outcome<bool>)
    ensures email.Null? <==> r == Throw(NullPointer)
    ensures r.Throw? ==> r.exception in {NullPointer, StringIndexOutOfBounds}
  {
    match email
    case Null => Throw(NullPointer)
    case Ref(s) =>
      if IndexOf(s, '@') == -1 then Return(false)
      else if |s| <= 3 then Return(false)
      else if |s| == 0 then Return(false)
      else if IndexOf(s, '@') == 0 || IndexOf(s, '.') == 0 then Return(false)
      // the first '@' is at index 1 or later here, so this read is in range
      else if !IsLetter(s[IndexOf(s, '@') - 1]) then Return(false)
      else if '$' in s || '!' in s || '#' in s then Return(false)
      else
        var dot := IndexOf(s, '.');
        match CharAt(s, dot)
        case Throw(e) => Throw(e)
        case Return(here) =>
          match CharAt(s, dot + 1)
          case Throw(e) => Throw(e)
          case Return(next) =>
            if here == next then Return(false)
            else if LastIndexOf(s, '.') + 2 >= |s| then Return(false)
            else Return(true)
  }

  /** The tests before the one on the first '.' all pass, `at` being the
      index of the first '@'. */
  predicate ReachesDotCheck(s: string, at: int) {
    IsFirst(s, '@', at) && |s| > 3 && at > 0 && s[0] != '.' && IsLetter(s[at - 1])
    && '$' !in s && '!' !in s && '#' !in s
  }

  /** No '@', or three characters or fewer (so also the empty string): rejected
      by the first two tests, which makes the emptiness test dead code. */
  lemma NoAtOrTooShortIsRejected(s: string)
    requires '@' !in s || |s| <= 3
    ensures IsEmailValid(Ref(s)) == Return(false)
  {
  }

  /** A string starting with '@' or '.' is rejected. */
  lemma BadFirstCharacterIsRejected(s: string)
    requires |s| > 0 && (s[0] == '@' || s[0] == '.')
    ensures IsEmailValid(Ref(s)) == Return(false)
  {
    if s[0] == '@' {
      FirstAndLastAreUnique(s, '@', 0);
    } else {
      FirstAndLastAreUnique(s, '.', 0);
    }
  }

  /** A non-letter right before the first '@' is rejected. */
  lemma NonLetterBeforeAtIsRejected(s: string, at: int)
    requires IsFirst(s, '@', at) && at > 0 && !IsLetter(s[at - 1])
    ensures IsEmailValid(Ref(s)) == Return(false)
  {
    FirstAndLastAreUnique(s, '@', at);
    if |s| > 0 && s[0] == '.' {
      BadFirstCharacterIsRejected(s);
    }
  }

  /** Any '$', '!' or '#' anywhere is rejected. */
  lemma ForbiddenCharacterIsRejected(s: string)
    requires '$' in s || '!' in s || '#' in s
    ensures IsEmailValid(Ref(s)) == Return(false)
  {
    if '@' in s && |s| > 3 && s[0] != '@' && s[0] != '.' {
      var at := IndexOf(s, '@');
      if !IsLetter(s[at - 1]) {
        NonLetterBeforeAtIsRejected(s, at);
      }
    }
  }

  /** The test on the first '.': with no '.', or with the first '.' as the
      last character, the call throws instead of answering; otherwise a '.'
      right after the first '.' is rejected. */
  lemma FirstDotCheck(s: string, at: int)
    requires ReachesDotCheck(s, at)
    ensures '.' !in s ==> IsEmailValid(Ref(s)) == Throw(StringIndexOutOfBounds)
    ensures forall dot :: IsFirst(s, '.', dot) && dot + 1 == |s| ==>
      IsEmailValid(Ref(s)) == Throw(StringIndexOutOfBounds)
    ensures forall dot :: IsFirst(s, '.', dot) && dot + 1 < |s| && s[dot + 1] == '.' ==>
      IsEmailValid(Ref(s)) == Return(false)
  {
    FirstAndLastAreUnique(s, '@', at);
    forall dot | IsFirst(s, '.', dot)
      ensures IndexOf(s, '.') == dot
    {
      FirstAndLastAreUnique(s, '.', dot);
    }
  }

  /** Once the test on the first '.' passes, the address is accepted exactly
      when at least two characters follow the last '.', i.e. neither of the
      last two characters is a '.'. */
  lemma SuffixDecides(s: string, at: int, dot: int)
    requires ReachesDotCheck(s, at)
    requires IsFirst(s, '.', dot) && dot + 1 < |s| && s[dot + 1] != '.'
    ensures IsEmailValid(Ref(s)) == Return(forall k :: |s| - 2 <= k < |s| ==> s[k] != '.')
  {
    FirstAndLastAreUnique(s, '@', at);
    FirstAndLastAreUnique(s, '.', dot);
    var last := LastIndexOf(s, '.');
    assert s[last] == '.';
  }

  /** The unit-test email vectors decided by the length and '@' tests. */
  lemma ShortEmailVectors()
    ensures IsEmailValid(Ref("")) == Return(false)
    ensures IsEmailValid(Ref("a@b")) == Return(false)
    ensures IsEmailValid(Ref("a@")) == Return(false)
    ensures IsEmailValid(Ref("@")) == Return(false)
  {
    NoAtOrTooShortIsRejected("");
    NoAtOrTooShortIsRejected("a@b");
    NoAtOrTooShortIsRejected("a@");
    NoAtOrTooShortIsRejected("@");
  }

  /** The unit-test email vectors decided by the first character or by the
      character before the '@'. */
  lemma PrefixEmailVectors()
    ensures IsEmailValid(Ref(".a@b")) == Return(false)
    ensures IsEmailValid(Ref("a-@b.cc")) == Return(false)
  {
    BadFirstCharacterIsRejected(".a@b");
    NonLetterBeforeAtIsRejected("a-@b.cc", 2);
  }

  /** The unit-test email vectors decided by the test on the first '.'. */
  lemma DotEmailVectors()
    ensures IsEmailValid(Ref("a..b@c")) == Return(false)
    ensures IsEmailValid(Ref("a@b.")) == Throw(StringIndexOutOfBounds)
  {
    assert IsFirst("a..b@c", '.', 1);
    FirstDotCheck("a..b@c", 4);
    assert IsFirst("a@b.", '.', 3);
    FirstDotCheck("a@b.", 1);
  }

  /** The first unit-test email vector, accepted. */
  lemma TypicalEmailVector()
    ensures IsEmailValid(Ref("a@b.com")) == Return(true)
  {
    SuffixDecides("a@b.com", 1, 3);
  }

  /** The unit-test email vectors on either side of the two-character suffix. */
  lemma SuffixEmailVectors()
    ensures IsEmailValid(Ref("a@b.b")) == Return(false)
    ensures IsEmailValid(Ref("a@b.bb")) == Return(true)
  {
    SuffixDecides("a@b.b", 1, 3);
    SuffixDecides("a@b.bb", 1, 3);
  }

  // ---------------------------------------------------------------------
  // isAmountValid
  // ---------------------------------------------------------------------

  predicate IsDigits(s: string) {
    forall i :: 0 <= i < |s| ==> '0' <= s[i] <= '9'
  }

  /** A non-empty run of decimal digits. */
  type Digits = s: string | |s| > 0 && IsDigits(s) witness "0"

  /** A double amount, as the decimal text Double.toString prints for it:
      an optional '-', the whole digits, a '.', the fraction digits. */
  datatype Decimal = Decimal(negative: bool, whole: Digits, fraction: Digits)

  /** Double.toString for the amounts it prints without an exponent: the
      sign and the whole digits, then the one '.', then the fraction digits. */
  function DoubleToString(amount: Decimal): (text: string)
    ensures |text| == DotPosition(amount) + 1 + |amount.fraction|
    ensures text[..DotPosition(amount)] == (if amount.negative then "-" else "") + amount.whole
    ensures text[DotPosition(amount) + 1..] == amount.fraction
    ensures forall k :: 0 <= k < |text| ==> (text[k] == '.' <==> k == DotPosition(amount))
    ensures IsLast(text, '.', DotPosition(amount))
  {
    var sign := if amount.negative then "-" else "";
    var text := sign + amount.whole + "." + amount.fraction;
    assert text[..DotPosition(amount)] == sign + amount.whole;
    assert text[DotPosition(amount) + 1..] == amount.fraction;
    assert forall k :: 0 <= k < |sign| ==> text[k] == '-';
    assert forall k :: |sign| <= k < DotPosition(amount) ==> text[k] == amount.whole[k - |sign|];
    assert forall k :: DotPosition(amount) < k < |text| ==>
      text[k] == amount.fraction[k - DotPosition(amount) - 1];
    text
  }

  /** Where the '.' stands in the text of `amount`. */
  function DotPosition(amount: Decimal): nat {
    (if amount.negative then 1 else 0) + |amount.whole|
  }

  function DigitValue(c: char): nat
    requires '0' <= c <= '9'
  {
    c as int - '0' as int
  }

  /** The number a run of digits denotes. */
  function DigitsValue(s: string): (n: nat)
    requires IsDigits(s)
    ensures |s| == 1 ==> n == DigitValue(s[0])
    ensures |s| == 2 ==> n == 10 * DigitValue(s[0]) + DigitValue(s[1])
  {
    if |s| == 0 then 0
    else DigitsValue(s[..|s| - 1]) * 10 + DigitValue(s[|s| - 1])
  }

  /** The numeric test `amount < 0` of the source: a '-' sign and a non-zero
      digit somewhere (so -0.0 is not below zero). */
  predicate LessThanZero(amount: Decimal) {
    amount.negative && (DigitsValue(amount.whole) > 0 || DigitsValue(amount.fraction) > 0)
  }

  /** BankAccount.isAmountValid: rejects an amount below zero, then rejects
      when the text from the last '.' up to, but not including, the last
      character is longer than two. That text is the '.' and all but the
      last fraction digit, so the check accepts exactly an amount not below
      zero with at most two digits after the '.'. */
  predicate IsAmountValid(amount: Decimal): (valid: bool)
    ensures valid <==> !LessThanZero(amount) && |amount.fraction| <= 2
  {
    var text := DoubleToString(amount);
    FirstAndLastAreUnique(text, '.', DotPosition(amount));
    if LessThanZero(amount) then false
    else
      var dot := LastIndexOf(text, '.');
      !(|text[dot..|text| - 1]| > 2)
  }

  /** The value of an amount of at most two fraction digits, in cents. */
  function Cents(amount: Decimal): (c: int)
    requires |amount.fraction| <= 2
    ensures c < 0 <==> LessThanZero(amount)
    ensures (c == 0) <==> DigitsValue(amount.whole) == 0 && DigitsValue(amount.fraction) == 0
  {
    var scale := if |amount.fraction| == 1 then 10 else 1;
    var magnitude := DigitsValue(amount.whole) * 100 + DigitsValue(amount.fraction) * scale;
    if amount.negative then -magnitude else magnitude
  }

  /** A valid amount is worth a whole, non-negative number of cents. */
  lemma ValidAmountIsCents(amount: Decimal)
    requires IsAmountValid(amount)
    ensures |amount.fraction| <= 2 && Cents(amount) >= 0
  {
  }

  /** The unit-test amounts rejected for being below zero. */
  lemma NegativeAmountVectors()
    ensures !IsAmountValid(Decimal(true, "1", "0"))
    ensures !IsAmountValid(Decimal(true, "0", "01"))
  {
  }

  /** The unit-test amounts rejected for their third fraction digit. */
  lemma OverPreciseAmountVectors()
    ensures !IsAmountValid(Decimal(false, "10", "111"))
    ensures !IsAmountValid(Decimal(false, "10", "1111111"))
  {
  }

  /** The unit-test whole amounts, accepted, with their value in cents. */
  lemma WholeAmountVectors()
    ensures IsAmountValid(Decimal(false, "0", "0")) && Cents(Decimal(false, "0", "0")) == 0
    ensures IsAmountValid(Decimal(false, "1", "0")) && Cents(Decimal(false, "1", "0")) == 100
    ensures IsAmountValid(Decimal(false, "100", "0")) && Cents(Decimal(false, "100", "0")) == 10000
  {
  }

  /** The smallest unit-test amount, one cent, accepted. */
  lemma OneCentVector()
    ensures IsAmountValid(Decimal(false, "0", "01")) && Cents(Decimal(false, "0", "01")) == 1
  {
  }

  /** The unit-test amounts with one and with two fraction digits, accepted,
      with their value in cents. */
  lemma FractionalAmountVectors()
    ensures IsAmountValid(Decimal(false, "10", "1")) && Cents(Decimal(false, "10", "1")) == 1010
    ensures IsAmountValid(Decimal(false, "10", "11")) && Cents(Decimal(false, "10", "11")) == 1011
  {
  }
}
