/**
 * Swedish postal codes: the shape the calculator accepts (three digits, an
 * optional whitespace character, two digits) and the wizard's normaliser,
 * which removes all whitespace and then puts one space after the first three
 * digits of the first run of five digits.
 */
module PostalCodes {
  import opened Wrappers

  /** `\d` in a JavaScript regular expression: an ASCII digit. */
  predicate IsDigit(c: char) {
    '0' <= c <= '9'
  }

  /** `\s` in a JavaScript regular expression. */
  predicate IsWhitespace(c: char) {
    || c == ' ' || c == '\t' || c == '\n' || c == '\r'
    || c == '\U{000B}' || c == '\U{000C}' || c == '\U{00A0}' || c == '\U{1680}'
    || ('\U{2000}' <= c <= '\U{200A}')
    || c == '\U{2028}' || c == '\U{2029}' || c == '\U{202F}' || c == '\U{205F}'
    || c == '\U{3000}' || c == '\U{FEFF}'
  }

  predicate AllDigits(s: string) {
    forall i :: 0 <= i < |s| ==> IsDigit(s[i])
  }

  predicate NoWhitespace(s: string) {
    forall i :: 0 <= i < |s| ==> !IsWhitespace(s[i])
  }

  /** `/^\d{3}\s?\d{2}$/`: "DDDDD" or "DDD DD" with any one whitespace character in the middle. */
  predicate IsPostalCode(s: string)
    ensures IsPostalCode(s) ==> var t := StripWhitespace(s); |t| == 5 && AllDigits(t)
  {
    if |s| == 5 && AllDigits(s) then
      StripWhitespaceClean(s);
      true
    else if |s| == 6 && AllDigits(s[..3]) && IsWhitespace(s[3]) && AllDigits(s[4..]) then
      StripSixCharacterCode(s);
      true
    else
      false
  }

  /** "DDD DD" with any whitespace in the middle strips to its five digits. */
  lemma StripSixCharacterCode(s: string)
    requires |s| == 6 && AllDigits(s[..3]) && IsWhitespace(s[3]) && AllDigits(s[4..])
    ensures StripWhitespace(s) == s[..3] + s[4..]
  {
    var t := s[..3] + s[4..];
    assert t[..3] == s[..3] && t[3..] == s[4..];
    StripInsertedWhitespace(t, 3, s[3]);
    assert t[..3] + [s[3]] + t[3..] == s;
  }

  /** `s.replace(/\s/g, "")`: s with every whitespace character removed, the rest kept in order. */
  function StripWhitespace(s: string): (t: string)
    ensures NoWhitespace(t)
    ensures |t| <= |s|
  {
    if s == [] then []
    else (if IsWhitespace(s[0]) then [] else [s[0]]) + StripWhitespace(s[1..])
  }

  /** Every character other than whitespace is kept, as often as it occurs. */
  lemma {:induction false} StripWhitespaceCounts(s: string, c: char)
    ensures multiset(StripWhitespace(s))[c] == if IsWhitespace(c) then 0 else multiset(s)[c]
  {
    if s != [] {
      assert s == [s[0]] + s[1..];
      StripWhitespaceCounts(s[1..], c);
    }
  }

  /** Removing whitespace from a concatenation removes it from each part. */
  lemma {:induction false} StripWhitespaceAppend(a: string, b: string)
    ensures StripWhitespace(a + b) == StripWhitespace(a) + StripWhitespace(b)
  {
    if a == [] {
      assert a + b == b;
    } else {
      assert (a + b)[0] == a[0];
      assert (a + b)[1..] == a[1..] + b;
      StripWhitespaceAppend(a[1..], b);
    }
  }

  /** A string without whitespace is left unchanged. */
  lemma {:induction false} StripWhitespaceClean(s: string)
    requires NoWhitespace(s)
    ensures StripWhitespace(s) == s
  {
    if s != [] {
      StripWhitespaceClean(s[1..]);
    }
  }

  /** Five digits start at position j. */
  predicate DigitRunAt(s: string, j: nat)
    requires j + 5 <= |s|
  {
    AllDigits(s[j..j + 5])
  }

  /** The leftmost position at or after `from` where five digits start: where `/(\d{3})(\d{2})/` matches. */
  function FirstDigitRun(s: string, from: nat): (r: Option<nat>)
    decreases |s| - from
    ensures r.Some? ==> from <= r.value && r.value + 5 <= |s| && DigitRunAt(s, r.value)
    ensures r.Some? ==> forall j :: from <= j < r.value ==> !DigitRunAt(s, j)
    ensures r.None? ==> forall j :: from <= j && j + 5 <= |s| ==> !DigitRunAt(s, j)
  {
    if from + 5 > |s| then None
    else if DigitRunAt(s, from) then Some(from)
    else FirstDigitRun(s, from + 1)
  }

  /**
   * `pc.replace(/\s/g, "").replace(/(\d{3})(\d{2})/, "$1 $2")`: strip all
   * whitespace, then put a space after the first three digits of the first
   * run of five digits (if there is one).
   */
  function NormalisePostalCode(s: string): (r: string)
    ensures |StripWhitespace(s)| <= |r| <= |StripWhitespace(s)| + 1
  {
    var t := StripWhitespace(s);
    match FirstDigitRun(t, 0)
    case None => t
    case Some(i) => t[..i + 3] + " " + t[i + 3..]
  }

  /** Inserting a whitespace character into a whitespace-free string and stripping whitespace gives the string back. */
  lemma StripInsertedWhitespace(t: string, k: nat, w: char)
    requires NoWhitespace(t) && k <= |t| && IsWhitespace(w)
    ensures StripWhitespace(t[..k] + [w] + t[k..]) == t
  {
    var a, b := t[..k], t[k..];
    assert NoWhitespace(a) && NoWhitespace(b);
    StripWhitespaceAppend(a + [w], b);
    StripWhitespaceAppend(a, [w]);
    StripWhitespaceClean(a);
    StripWhitespaceClean(b);
    assert StripWhitespace([w]) == [];
    assert a + b == t;
  }

  /** Normalising changes only whitespace: removing whitespace afterwards gives what it gave before. */
  lemma NormaliseKeepsNonWhitespace(s: string)
    ensures StripWhitespace(NormalisePostalCode(s)) == StripWhitespace(s)
  {
    var t := StripWhitespace(s);
    match FirstDigitRun(t, 0)
    case None =>
      StripWhitespaceClean(t);
    case Some(i) =>
      StripInsertedWhitespace(t, i + 3, ' ');
  }

  /** Normalising an already normalised code changes nothing. */
  lemma NormaliseIdempotent(s: string)
    ensures NormalisePostalCode(NormalisePostalCode(s)) == NormalisePostalCode(s)
  {
    NormaliseKeepsNonWhitespace(s);
  }

  /** Five digits with any whitespace in between normalise to "DDD DD". */
  lemma NormaliseFiveDigits(s: string)
    requires |StripWhitespace(s)| == 5 && AllDigits(StripWhitespace(s))
    ensures var t := StripWhitespace(s);
      NormalisePostalCode(s) == t[..3] + " " + t[3..] && IsPostalCode(NormalisePostalCode(s))
  {
    var t := StripWhitespace(s);
    assert DigitRunAt(t, 0) by { assert t[0..5] == t; }
  }

  /** Without a run of five digits, the whitespace-free string is kept and is not a postal code. */
  lemma NoDigitRunRejected(t: string)
    requires NoWhitespace(t) && FirstDigitRun(t, 0).None?
    ensures !IsPostalCode(t) && !(|t| == 5 && AllDigits(t))
  {
    if |t| == 5 {
      assert t[0..5] == t;
    }
    if |t| == 6 {
      assert !IsWhitespace(t[3]);
    }
  }

  /** With a run at i, the inserted space makes a postal code exactly when the string is that run alone. */
  lemma DigitRunAcceptedIff(t: string, i: nat)
    requires i + 5 <= |t| && DigitRunAt(t, i)
    ensures IsPostalCode(t[..i + 3] + " " + t[i + 3..]) <==> (|t| == 5 && AllDigits(t))
  {
    var r := t[..i + 3] + " " + t[i + 3..];
    assert |r| == |t| + 1;
    if |t| == 5 {
      assert t[0..5] == t;
      assert r[..3] == t[..3] && r[3] == ' ' && r[4..] == t[3..];
    }
  }

  /**
   * The normalised code has the accepted shape exactly when the input,
   * whitespace removed, is five digits.
   */
  lemma NormaliseAcceptedIff(s: string)
    ensures IsPostalCode(NormalisePostalCode(s)) <==> (|StripWhitespace(s)| == 5 && AllDigits(StripWhitespace(s)))
  {
    var t := StripWhitespace(s);
    match FirstDigitRun(t, 0)
    case None =>
      NoDigitRunRejected(t);
    case Some(i) =>
      DigitRunAcceptedIff(t, i);
  }
}
