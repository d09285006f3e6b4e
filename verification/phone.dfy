/** The phone-number normaliser: every phone key the store is searched by
    comes out of `Normalize`. */
module Phone {
  import opened Seqs

  /** The literal India country-code prefix of every canonical number. */
  const PREFIX: string := "+91-"

  /** Decimal digits; only ASCII '0'..'9' are modelled. */
  predicate IsDigit(c: char)
  {
    '0' <= c <= '9'
  }

  /** The digits of `s`, in order, with every other character dropped. */
  function Digits(s: string): (r: string)
    ensures |r| <= |s|
    ensures forall i :: 0 <= i < |r| ==> IsDigit(r[i])
    ensures forall x :: multiset(r)[x] == if IsDigit(x) then multiset(s)[x] else 0
  {
    FilterCounts(s, IsDigit);
    Filter(s, IsDigit)
  }

  /** Digits are taken piece by piece, keeping their order. */
  lemma DigitsAppend(a: string, b: string)
    ensures Digits(a + b) == Digits(a) + Digits(b)
  {
    FilterAppend(a, b, IsDigit);
  }

  /** A string of digits is its own digit string. */
  lemma DigitsOfDigitString(s: string)
    requires forall i :: 0 <= i < |s| ==> IsDigit(s[i])
    ensures Digits(s) == s
  {
    FilterKeepsAll(s, IsDigit);
  }

  /** The canonical form: "+91-" followed by exactly ten digits. */
  predicate IsCanonical(p: string)
  {
    |p| == 14 && p[..4] == PREFIX && forall i :: 4 <= i < 14 ==> IsDigit(p[i])
  }

  /** A bare ten-digit number, or a twelve-digit number that starts with the
      country code 91, becomes "+91-" and its last ten digits; anything else
      becomes "", which callers read as "invalid". */
  function Normalize(mobile: string): (r: string)
    ensures r == "" || IsCanonical(r)
    ensures r != "" <==>
      |Digits(mobile)| == 10 || (|Digits(mobile)| == 12 && Digits(mobile)[..2] == "91")
    ensures r != "" ==> r[4..] == Digits(mobile)[|Digits(mobile)| - 10..]
  {
    var digits := Digits(mobile);
    if |digits| == 10 then PREFIX + digits
    else if |digits| == 12 && digits[..2] == "91" then PREFIX + digits[2..]
    else ""
  }

  /** Only the digits matter: separators, spaces and the '+' sign are ignored. */
  lemma NormalizeIgnoresSeparators(mobile: string)
    ensures Normalize(mobile) == Normalize(Digits(mobile))
  {
    FilterIdempotent(mobile, IsDigit);
  }

  /** Inserting one non-digit character anywhere leaves the result unchanged. */
  lemma NormalizeIgnoresInsertedSeparator(a: string, c: char, b: string)
    requires !IsDigit(c)
    ensures Normalize(a + [c] + b) == Normalize(a + b)
  {
    FilterSkipsRejected(a, c, b, IsDigit);
  }

  /** The digits of the prefix are the country code. */
  lemma DigitsOfPrefix()
    ensures Digits(PREFIX) == "91"
  {
    assert Filter("-", IsDigit) == [] by {
      assert "-"[1..] == [];
    }
    assert Filter("1-", IsDigit) == "1" by {
      assert "1-"[1..] == "-";
    }
    assert Filter("91-", IsDigit) == "91" by {
      assert "91-"[1..] == "1-";
    }
    assert PREFIX[1..] == "91-";
  }

  /** The digits of a canonical number are "91" followed by its ten subscriber digits. */
  lemma DigitsOfCanonical(p: string)
    requires IsCanonical(p)
    ensures Digits(p) == "91" + p[4..]
  {
    var subscriber := p[4..];
    assert p == PREFIX + subscriber;
    assert forall i :: 0 <= i < |subscriber| ==> IsDigit(subscriber[i]);
    DigitsOfDigitString(subscriber);
    DigitsOfPrefix();
    DigitsAppend(PREFIX, subscriber);
  }

  /** A canonical number normalises to itself. */
  lemma NormalizeFixesCanonical(p: string)
    requires IsCanonical(p)
    ensures Normalize(p) == p
  {
    DigitsOfCanonical(p);
    assert p == PREFIX + p[4..];
  }

  /** Normalising twice is normalising once. */
  lemma NormalizeIdempotent(mobile: string)
    ensures Normalize(Normalize(mobile)) == Normalize(mobile)
  {
    var r := Normalize(mobile);
    if r == "" {
      assert Digits(r) == [];
    } else {
      NormalizeFixesCanonical(r);
    }
  }

  /** Writing the country code in front of a ten-digit number, in any spelling
      whose digits are "91" ("+91 ", "91", "(+91) "), does not change its canonical form. */
  lemma NormalizeIgnoresCountryCode(code: string, mobile: string)
    requires Digits(code) == "91"
    requires |Digits(mobile)| == 10
    ensures Normalize(code + mobile) == Normalize(mobile)
  {
    DigitsAppend(code, mobile);
    assert Digits(code + mobile)[2..] == Digits(mobile);
  }
}
