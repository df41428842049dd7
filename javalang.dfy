/** The pieces of the Java runtime the bank classes lean on: nullable
    references, the exceptions they can raise, the way a call completes,
    and the java.lang.String queries they use (indexOf, lastIndexOf, charAt). */
module JavaLang {

  /** A Java reference that may be null. */
  datatype Nullable<T> = Null | Ref(value: T)

  /** The exception kinds the bank code can raise (messages are not modelled). */
  datatype Exception =
    | IllegalArgument         // java.lang.IllegalArgumentException
    | InsufficientFunds       // the project's InsufficientFundsException
    | NullPointer             // a method called on a null String
    | StringIndexOutOfBounds  // String.charAt / String.substring out of range

  /** How a value-returning Java call ends: it returns a value or throws. */
  datatype Outcome<T> = Return(value: T) | Throw(exception: Exception)

  /** How a void Java call ends: normally or by an exception. */
  datatype Completion = Normal | Abrupt(exception: Exception)

  /** The index `0 <= j < |s|` with `s[j] == c` and no earlier `c`. */
  predicate IsFirst(s: string, c: char, j: int) {
    0 <= j < |s| && s[j] == c && forall k :: 0 <= k < j ==> s[k] != c
  }

  /** The index `0 <= j < |s|` with `s[j] == c` and no later `c`. */
  predicate IsLast(s: string, c: char, j: int) {
    0 <= j < |s| && s[j] == c && forall k :: j < k < |s| ==> s[k] != c
  }

  /** String.indexOf(char): the first index of `c`, or -1 when there is none. */
  function IndexOf(s: string, c: char): (r: int)
    ensures r == -1 <==> c !in s
    ensures r != -1 ==> IsFirst(s, c, r)
  {
    if |s| == 0 then -1
    else if s[0] == c then 0
    else
      var k := IndexOf(s[1..], c);
      if k == -1 then -1 else k + 1
  }

  /** String.lastIndexOf(char): the last index of `c`, or -1 when there is none. */
  function LastIndexOf(s: string, c: char): (r: int)
    ensures r == -1 <==> c !in s
    ensures r != -1 ==> IsLast(s, c, r)
  {
    if |s| == 0 then -1
    else if s[|s| - 1] == c then |s| - 1
    else
      var k := LastIndexOf(s[..|s| - 1], c);
      assert s[..|s| - 1] + [s[|s| - 1]] == s;
      k
  }

  /** String.charAt: the character at `i`, or StringIndexOutOfBoundsException. */
  function CharAt(s: string, i: int): (r: Outcome<char>)
    ensures r.Return? <==> 0 <= i < |s|
    ensures r.Return? ==> r.value == s[i]
    ensures r.Throw? ==> r.exception == StringIndexOutOfBounds
  {
    if 0 <= i < |s| then Return(s[i]) else Throw(StringIndexOutOfBounds)
  }

  /** Character.isLetter, restricted to the ASCII letters. */
  predicate IsLetter(c: char) {
    'a' <= c <= 'z' || 'A' <= c <= 'Z'
  }

  /** An index is first/last exactly when IndexOf/LastIndexOf returns it. */
  lemma {:induction false} FirstAndLastAreUnique(s: string, c: char, j: nat)
    ensures IsFirst(s, c, j) <==> IndexOf(s, c) == j
    ensures IsLast(s, c, j) <==> LastIndexOf(s, c) == j
  {
    if IsFirst(s, c, j) {
      assert s[j] == c;
    }
    if IsLast(s, c, j) {
      assert s[j] == c;
    }
  }
}
