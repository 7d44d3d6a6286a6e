/** The few operations of the Arduino `String` class the firmware relies on:
    `trim`, `toInt`, `endsWith`, the decimal rendering `String(int)`, and
    `c_str()` and `==` against a literal, which both stop at a NUL. */
module ArduinoString {

  /** The characters C's isspace accepts: space, \t, \n, \v, \f and \r. */
  predicate IsSpace(c: char) {
    c == ' ' || 9 <= c as int <= 13
  }

  predicate IsDigit(c: char) {
    '0' as int <= c as int <= '9' as int
  }

  /** `s` with its leading white space removed. */
  function TrimStart(s: string): (r: string)
    ensures |r| <= |s| && r == s[|s| - |r|..]
    ensures r == [] || !IsSpace(r[0])
    ensures forall i :: 0 <= i < |s| - |r| ==> IsSpace(s[i])
  {
    if |s| > 0 && IsSpace(s[0]) then TrimStart(s[1..]) else s
  }

  /** `s` with its trailing white space removed. */
  function TrimEnd(s: string): (r: string)
    ensures |r| <= |s| && r == s[..|r|]
    ensures r == [] || !IsSpace(r[|r| - 1])
    ensures forall i :: |r| <= i < |s| ==> IsSpace(s[i])
  {
    if |s| > 0 && IsSpace(s[|s| - 1]) then TrimEnd(s[..|s| - 1]) else s
  }

  /** String::trim: white space removed from both ends. */
  function Trim(s: string): string {
    TrimEnd(TrimStart(s))
  }

  /** What trim keeps is a slice of the input with no white space at either
      end, and everything it drops is white space. */
  lemma TrimIsInnerSlice(s: string)
    ensures var r := Trim(s);
      && (r == [] || (!IsSpace(r[0]) && !IsSpace(r[|r| - 1])))
      && (exists a, b :: 0 <= a <= b <= |s| && r == s[a..b]
            && (forall i :: 0 <= i < a ==> IsSpace(s[i]))
            && (forall i :: b <= i < |s| ==> IsSpace(s[i])))
  {
    var t := TrimStart(s);
    var r := TrimEnd(t);
    var a := |s| - |t|;
    var b := a + |r|;
    assert r == [] || !IsSpace(r[0]) by {
      if r != [] {
        assert r[0] == t[0];
      }
    }
    assert r == s[a..b] && (forall i :: 0 <= i < a ==> IsSpace(s[i])) by {
      assert t == s[a..];
    }
    assert forall i :: b <= i < |s| ==> IsSpace(s[i]) by {
      forall i | b <= i < |s| ensures IsSpace(s[i]) {
        assert s[i] == t[i - a];
      }
    }
  }

  /** String::endsWith. */
  predicate EndsWith(s: string, suffix: string) {
    |suffix| <= |s| && s[|s| - |suffix|..] == suffix
  }

  /** The text a C-string function (strcmp, strlen) sees in `s`: everything
      before its first NUL character. */
  function CStr(s: string): string {
    if s == [] || s[0] == '\0' then [] else [s[0]] + CStr(s[1..])
  }

  /** The C string is the longest NUL-free prefix: it contains no NUL and
      is followed by a NUL or the end of `s`. */
  lemma {:induction false} CStrIsPrefix(s: string)
    ensures CStr(s) <= s && '\0' !in CStr(s)
    ensures |CStr(s)| < |s| ==> s[|CStr(s)|] == '\0'
  {
    if s != [] && s[0] != '\0' {
      CStrIsPrefix(s[1..]);
    }
  }

  /** String == "literal", i.e. String::equals, which compares the buffer
      with strcmp: `s` starts with the literal, and the literal ends where
      `s` ends or has a NUL. */
  predicate Equals(s: string, literal: string) {
    |literal| <= |s| && s[..|literal|] == literal && (|literal| == |s| || s[|literal|] == '\0')
  }

  /** Helper: a NUL-free prefix followed by a NUL or the end is the C string. */
  lemma {:induction false} CStrOfPrefix(s: string, n: nat)
    requires n <= |s| && '\0' !in s[..n] && (n == |s| || s[n] == '\0')
    ensures CStr(s) == s[..n]
  {
    if n > 0 {
      assert s[0] == s[..n][0];
      assert s[1..][..n - 1] == s[..n][1..];
      CStrOfPrefix(s[1..], n - 1);
    }
  }

  /** For a literal without NUL, String == is comparing the C string. */
  lemma EqualsComparesCStr(s: string, literal: string)
    requires '\0' !in literal
    ensures Equals(s, literal) == (CStr(s) == literal)
  {
    CStrIsPrefix(s);
    if Equals(s, literal) {
      CStrOfPrefix(s, |literal|);
    }
  }

  /** Helper: a string without a NUL is its own C string. */
  lemma CStrOfPlain(s: string)
    requires '\0' !in s
    ensures CStr(s) == s
  {
    CStrIsPrefix(s);
  }

  /** A NUL and whatever follows it are invisible to the comparison. */
  lemma {:induction false} CStrStopsAtNul(s: string, tail: string)
    requires '\0' !in s
    ensures CStr(s + ['\0'] + tail) == s
  {
    if s != [] {
      assert (s + ['\0'] + tail)[1..] == s[1..] + ['\0'] + tail;
      CStrStopsAtNul(s[1..], tail);
    }
  }

  /** A string equal to one literal is unequal to every other. */
  lemma EqualsOne(s: string, literal: string, other: string)
    requires '\0' !in literal && '\0' !in other && literal != other
    requires Equals(s, literal)
    ensures !Equals(s, other)
  {
    EqualsComparesCStr(s, literal);
    EqualsComparesCStr(s, other);
  }

  /** Helper: a word without a NUL compares with any literal by plain equality. */
  lemma PlainWord(s: string)
    requires '\0' !in s
    ensures forall literal :: Equals(s, literal) == (s == literal)
  {
  }

  /** Whatever follows a NUL in `s` does not change a comparison with a
      literal. */
  lemma EqualsStopsAtNul(s: string, tail: string, literal: string)
    requires '\0' !in s && '\0' !in literal
    ensures Equals(s + ['\0'] + tail, literal) == Equals(s, literal)
  {
    CStrStopsAtNul(s, tail);
    CStrOfPlain(s);
    EqualsComparesCStr(s + ['\0'] + tail, literal);
    EqualsComparesCStr(s, literal);
  }

  /** The longest prefix of `s` made of decimal digits. */
  function LeadingDigits(s: string): (r: string)
    ensures |r| <= |s| && r == s[..|r|]
    ensures forall i :: 0 <= i < |r| ==> IsDigit(r[i])
    ensures |r| < |s| ==> !IsDigit(s[|r|])
  {
    if s != [] && IsDigit(s[0]) then [s[0]] + LeadingDigits(s[1..]) else []
  }

  /** The value of a string of decimal digits. */
  function DigitsValue(s: string): (v: nat)
    requires forall i :: 0 <= i < |s| ==> IsDigit(s[i])
  {
    if s == [] then 0
    else
      assert IsDigit(s[|s| - 1]);
      10 * DigitsValue(s[..|s| - 1]) + (s[|s| - 1] as int - '0' as int)
  }

  /** String::toInt, that is C's atol: leading white space skipped, an
      optional sign, then the longest run of digits; 0 when there is none. */
  function ToInt(s: string): int {
    var t := TrimStart(s);
    if |t| > 0 && t[0] == '-' then -(DigitsValue(LeadingDigits(t[1..])) as int)
    else if |t| > 0 && t[0] == '+' then DigitsValue(LeadingDigits(t[1..]))
    else DigitsValue(LeadingDigits(t))
  }

  /** The decimal digits of a natural number, most significant first. */
  function NatString(n: nat): (s: string)
    ensures |s| > 0 && forall i :: 0 <= i < |s| ==> IsDigit(s[i])
    decreases n
  {
    if n < 10 then [('0' as int + n) as char]
    else NatString(n / 10) + [('0' as int + n % 10) as char]
  }

  /** String(n) for an int. */
  function DecimalString(n: int): (s: string)
    ensures |s| > 0
  {
    if n < 0 then "-" + NatString(-n) else NatString(n)
  }

  lemma {:induction false} DigitsValueOfNatString(n: nat)
    ensures DigitsValue(NatString(n)) == n
    decreases n
  {
    if n >= 10 {
      var s := NatString(n);
      assert s[..|s| - 1] == NatString(n / 10);
      DigitsValueOfNatString(n / 10);
    }
  }

  /** A digit string is its own longest digit prefix. */
  lemma {:induction false} LeadingDigitsOfDigits(s: string)
    requires forall i :: 0 <= i < |s| ==> IsDigit(s[i])
    ensures LeadingDigits(s) == s
  {
    if s != [] {
      LeadingDigitsOfDigits(s[1..]);
    }
  }

  /** toInt reads back every number String(int) writes. */
  lemma ToIntOfDecimalString(n: int)
    ensures ToInt(DecimalString(n)) == n
  {
    var s := DecimalString(n);
    assert TrimStart(s) == s;
    if n < 0 {
      assert s[1..] == NatString(-n);
      LeadingDigitsOfDigits(NatString(-n));
      DigitsValueOfNatString(-n);
    } else {
      LeadingDigitsOfDigits(NatString(n));
      DigitsValueOfNatString(n);
    }
  }
}
