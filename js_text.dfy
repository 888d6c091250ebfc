/*
 * The string operations the adapters rely on: String.prototype.trim, ASCII
 * case folding, case-insensitive substring search, decimal digits, template
 * rendering of a non-negative integer, Number(string) and parseInt(string, 10).
 */
module JsText {
  import opened JsValues

  /** WhiteSpace and LineTerminator of ECMAScript, the characters trim() and Number() strip. */
  predicate IsWhiteSpace(c: char) {
    c == '\t' || c == '\n' || c == '\U{B}' || c == '\U{C}' || c == '\r' || c == ' '
    || c == '\U{A0}' || c == '\U{1680}' || ('\U{2000}' <= c <= '\U{200A}')
    || c == '\U{2028}' || c == '\U{2029}' || c == '\U{202F}' || c == '\U{205F}'
    || c == '\U{3000}' || c == '\U{FEFF}'
  }

  /** String.prototype.trimStart */
  function TrimStart(s: string): (r: string)
    ensures |r| <= |s| && r == s[|s| - |r|..]
    ensures r == [] || !IsWhiteSpace(r[0])
    ensures forall i :: 0 <= i < |s| - |r| ==> IsWhiteSpace(s[i])
  {
    if s != [] && IsWhiteSpace(s[0]) then
      var r := TrimStart(s[1..]);
      assert s[1..][|s| - 1 - |r|..] == s[|s| - |r|..];
      assert forall i :: 1 <= i < |s| - |r| ==> s[i] == s[1..][i - 1];
      r
    else s
  }

  /** String.prototype.trimEnd */
  function TrimEnd(s: string): (r: string)
    ensures |r| <= |s| && r == s[..|r|]
    ensures r == [] || !IsWhiteSpace(r[|r| - 1])
    ensures forall i :: |r| <= i < |s| ==> IsWhiteSpace(s[i])
  {
    if s != [] && IsWhiteSpace(s[|s| - 1]) then TrimEnd(s[..|s| - 1]) else s
  }

  /** String.prototype.trim; TrimIsSlice states what it keeps. */
  function Trim(s: string): (r: string)
    ensures |r| <= |s|
  {
    TrimEnd(TrimStart(s))
  }

  /** Neither end of the text trim() gives is white space. */
  lemma TrimEnds(s: string)
    ensures Trim(s) == [] || (!IsWhiteSpace(Trim(s)[0]) && !IsWhiteSpace(Trim(s)[|Trim(s)| - 1]))
  {
    var t := TrimStart(s);
    assert TrimEnd(t) != [] ==> TrimEnd(t)[0] == t[0];
  }

  /** trim() gives a slice of its argument with only white space around it. */
  lemma TrimIsSlice(s: string)
    ensures var k := |s| - |TrimStart(s)|;
      && k + |Trim(s)| <= |s|
      && Trim(s) == s[k..k + |Trim(s)|]
      && (forall i :: 0 <= i < k ==> IsWhiteSpace(s[i]))
      && (forall i :: k + |Trim(s)| <= i < |s| ==> IsWhiteSpace(s[i]))
  {
    var t := TrimStart(s);
    var r := TrimEnd(t);
    assert Trim(s) == r;
    SliceOfSuffix(s, t, r);
  }

  /** A prefix r of a suffix t of s, with white space after r in t, sits in s
      with white space after it. */
  lemma SliceOfSuffix(s: string, t: string, r: string)
    requires |t| <= |s| && t == s[|s| - |t|..]
    requires |r| <= |t| && r == t[..|r|]
    requires forall i :: |r| <= i < |t| ==> IsWhiteSpace(t[i])
    ensures var k := |s| - |t|;
      && r == s[k..k + |r|]
      && (forall i :: k + |r| <= i < |s| ==> IsWhiteSpace(s[i]))
  {
    var k := |s| - |t|;
    forall i | k + |r| <= i < |s|
      ensures IsWhiteSpace(s[i])
    {
      assert s[i] == t[i - k];
    }
  }

  /** trimEnd() keeps every digit: text that ends in a run of digits followed
      by `rest` keeps the run and a prefix of `rest`. */
  lemma TrimEndAfterDigits(head: string, digits: string, rest: string)
    requires digits != [] && AllDigits(digits)
    ensures var e := TrimEnd(head + digits + rest);
      && |head| + |digits| <= |e|
      && e == head + digits + rest[..|e| - |head| - |digits|]
  {
    var s := head + digits + rest;
    var e := TrimEnd(s);
    var j := |head| + |digits|;
    assert s[j - 1] == digits[|digits| - 1];
    assert !IsWhiteSpace(s[j - 1]);
    assert e == s[..|e|];
    assert s[..|e|] == head + digits + rest[..|e| - j];
  }

  /** trim() keeps a string that neither starts nor ends with white space. */
  lemma TrimKeeps(s: string)
    requires s == [] || (!IsWhiteSpace(s[0]) && !IsWhiteSpace(s[|s| - 1]))
    ensures Trim(s) == s
  {
  }

  /** trimStart() drops exactly the leading white space. */
  lemma {:induction false} TrimStartSkips(lead: string, x: string)
    requires forall i :: 0 <= i < |lead| ==> IsWhiteSpace(lead[i])
    requires x == [] || !IsWhiteSpace(x[0])
    ensures TrimStart(lead + x) == x
  {
    if lead != [] {
      assert (lead + x)[1..] == lead[1..] + x;
      TrimStartSkips(lead[1..], x);
    }
  }

  /** trimEnd() drops exactly the trailing white space. */
  lemma {:induction false} TrimEndSkips(x: string, tail: string)
    requires forall i :: 0 <= i < |tail| ==> IsWhiteSpace(tail[i])
    requires x == [] || !IsWhiteSpace(x[|x| - 1])
    ensures TrimEnd(x + tail) == x
  {
    if tail != [] {
      var t' := tail[..|tail| - 1];
      assert (x + tail)[..|x + tail| - 1] == x + t';
      TrimEndSkips(x, t');
    }
  }

  /** trim() removes white space only at the ends: it gives the string between
      the first and the last character that is not white space. */
  lemma TrimIsCore(lead: string, core: string, tail: string)
    requires forall i :: 0 <= i < |lead| ==> IsWhiteSpace(lead[i])
    requires forall i :: 0 <= i < |tail| ==> IsWhiteSpace(tail[i])
    requires core == [] || (!IsWhiteSpace(core[0]) && !IsWhiteSpace(core[|core| - 1]))
    ensures Trim(lead + core + tail) == core
  {
    if core == [] {
      assert lead + core + tail == lead + tail + [];
      TrimStartSkips(lead + tail, []);
    } else {
      assert lead + core + tail == lead + (core + tail);
      TrimStartSkips(lead, core + tail);
      TrimEndSkips(core, tail);
    }
  }

  /** trim() is idempotent. */
  lemma TrimTwice(s: string)
    ensures Trim(Trim(s)) == Trim(s)
  {
    var t := Trim(s);
    if t != [] {
      assert TrimStart(s) != [];
      assert t[0] == TrimStart(s)[0];
    }
    TrimKeeps(t);
  }

  /** The lower-case form of an ASCII letter; every other character is kept. */
  function LowerChar(c: char): char {
    if 'A' <= c <= 'Z' then (c as int + 32) as char else c
  }

  /** toLowerCase restricted to ASCII. It decides equality with a lower-case
      ASCII word exactly as the full Unicode mapping does: no character outside
      ASCII lowers to one of the letters such words are made of, except the
      Kelvin sign (to 'k') and the dotted capital I (to two characters). */
  function ToLower(s: string): (r: string)
    ensures |r| == |s|
    ensures forall i :: 0 <= i < |s| ==> r[i] == LowerChar(s[i])
  {
    seq(|s|, i requires 0 <= i < |s| => LowerChar(s[i]))
  }

  /** The word t (in lower case) occurs in s at position k, ignoring ASCII case. */
  predicate OccursIgnoringCaseAt(s: string, t: string, k: int) {
    0 <= k && k + |t| <= |s| && ToLower(s[k..k + |t|]) == t
  }

  /** A search from position `from` on for an occurrence of t in s, ignoring
      ASCII case: what a regular expression `/t/i` does for `test`. */
  function SearchIgnoringCase(s: string, t: string, from: nat): (found: bool)
    decreases |s| - from
    ensures found <==> exists k :: from <= k && OccursIgnoringCaseAt(s, t, k)
  {
    if from + |t| > |s| then
      assert forall k :: from <= k ==> !OccursIgnoringCaseAt(s, t, k);
      false
    else if ToLower(s[from..from + |t|]) == t then
      assert OccursIgnoringCaseAt(s, t, from);
      true
    else
      SearchIgnoringCase(s, t, from + 1)
  }

  /** `/t/i.test(s)` for a lower-case literal t. */
  predicate ContainsIgnoringCase(s: string, t: string) {
    SearchIgnoringCase(s, t, 0)
  }

  predicate IsDigit(c: char) {
    '0' <= c <= '9'
  }

  predicate AllDigits(s: string) {
    forall i :: 0 <= i < |s| ==> IsDigit(s[i])
  }

  function DigitValue(c: char): nat
    requires IsDigit(c)
  {
    c as int - '0' as int
  }

  function DigitChar(d: nat): (c: char)
    requires d < 10
    ensures IsDigit(c) && DigitValue(c) == d
  {
    ('0' as int + d) as char
  }

  /** The value of a string of decimal digits, most significant first. */
  function DigitsValue(s: string): nat
    requires AllDigits(s)
  {
    if s == [] then 0 else 10 * DigitsValue(s[..|s| - 1]) + DigitValue(s[|s| - 1])
  }

  /** `${n}` for a non-negative integer: its shortest decimal form. */
  function NatToString(n: nat): (s: string)
    ensures |s| > 0 && AllDigits(s)
    ensures DigitsValue(s) == n
    ensures s[0] == '0' ==> s == "0"
  {
    if n < 10 then [DigitChar(n)]
    else
      var s := NatToString(n / 10) + [DigitChar(n % 10)];
      assert s[..|s| - 1] == NatToString(n / 10);
      s
  }

  function Pow10(k: nat): (p: nat)
    ensures p > 0
  {
    if k == 0 then 1 else 10 * Pow10(k - 1)
  }

  /** The index of the first occurrence of c in s, or |s|. */
  function IndexOfChar(s: string, c: char): (k: nat)
    ensures k <= |s|
    ensures forall i :: 0 <= i < k ==> s[i] != c
    ensures k < |s| ==> s[k] == c
  {
    if s == [] || s[0] == c then 0 else 1 + IndexOfChar(s[1..], c)
  }

  lemma IndexOfDigits(s: string)
    requires AllDigits(s)
    ensures IndexOfChar(s, '.') == |s|
  {
    var k := IndexOfChar(s, '.');
    assert k < |s| ==> IsDigit(s[k]);
  }

  /** The value of an unsigned decimal literal: digits with an optional
      fraction part, at least one digit in all ("7", "7.", ".5", "7.25"). */
  function DecimalValue(b: string): Option<real>
  {
    var k := IndexOfChar(b, '.');
    var whole := b[..k];
    var frac := if k < |b| then b[k + 1..] else [];
    if AllDigits(whole) && AllDigits(frac) && |whole| + |frac| > 0 then
      Some(DigitsValue(whole) as real + DigitsValue(frac) as real / Pow10(|frac|) as real)
    else
      None
  }

  /** Number(s) for a string: surrounding white space is ignored, the empty
      string is 0, an optional sign precedes "Infinity" or a decimal literal,
      anything else is NaN. */
  function ToNumber(s: string): (n: Num)
    ensures Trim(s) == [] ==> n == Fin(0.0)
    ensures n.PosInf? <==> Trim(s) == "Infinity" || Trim(s) == "+Infinity"
    ensures n.NegInf? <==> Trim(s) == "-Infinity"
  {
    var t := Trim(s);
    if t == [] then Fin(0.0)
    else
      var negative := t[0] == '-';
      var body := if t[0] == '-' || t[0] == '+' then t[1..] else t;
      if body == "Infinity" then (if negative then NegInf else PosInf)
      else match DecimalValue(body)
        case Some(v) => Fin(if negative then -v else v)
        case None => NaN
  }

  /** The length of the run of digits at the start of s. */
  function DigitPrefix(s: string): (k: nat)
    ensures k <= |s| && AllDigits(s[..k])
    ensures k == |s| || !IsDigit(s[k])
  {
    if s == [] || !IsDigit(s[0]) then 0
    else
      var k := 1 + DigitPrefix(s[1..]);
      assert s[..k] == [s[0]] + s[1..][..k - 1];
      k
  }

  /** parseInt(s, 10): leading white space and an optional sign are skipped,
      then the longest run of decimal digits is read; without a digit the
      result is NaN. */
  function ParseInt(s: string): (n: Num)
    ensures n.NaN? || (n.Fin? && IsInteger(n.val))
  {
    var t := TrimStart(s);
    var negative := t != [] && t[0] == '-';
    var rest := if t != [] && (t[0] == '-' || t[0] == '+') then t[1..] else t;
    var k := DigitPrefix(rest);
    if k == 0 then NaN
    else
      var v: int := if negative then 0 - DigitsValue(rest[..k]) else DigitsValue(rest[..k]);
      Fin(v as real)
  }

  /** Reading back the decimal form of a number gives the number. */
  lemma ToNumberOfNat(n: nat)
    ensures ToNumber(NatToString(n)) == Fin(n as real)
  {
    var s := NatToString(n);
    TrimKeeps(s);
    assert s[0] != '-' && s[0] != '+' && s[0] != 'I';
    assert s != "Infinity" by { assert "Infinity"[0] == 'I'; }
    IndexOfDigits(s);
    assert s[..|s|] == s;
    assert DecimalValue(s) == Some(n as real);
  }

  /** parseInt reads a number back from its decimal form followed by text that
      does not start with a digit. */
  lemma ParseIntOfNat(n: nat, tail: string)
    requires tail == [] || !IsDigit(tail[0])
    ensures ParseInt(NatToString(n) + tail) == Fin(n as real)
  {
    var s := NatToString(n);
    var t := s + tail;
    assert TrimStart(t) == t by { assert IsDigit(t[0]); }
    assert DigitPrefix(t) == |s| by { DigitPrefixOf(s, tail); }
    assert t[..|s|] == s;
  }

  /** parseInt of a text without a decimal digit is NaN. */
  lemma ParseIntWithoutDigits(s: string)
    requires forall i :: 0 <= i < |s| ==> !IsDigit(s[i])
    ensures ParseInt(s).NaN?
  {
    var t := TrimStart(s);
    var rest := if t != [] && (t[0] == '-' || t[0] == '+') then t[1..] else t;
    if rest != [] {
      assert rest[0] == s[|s| - |rest|];
    }
  }

  /** parseInt after white space and an optional sign reads the digits that
      follow, up to the first character that is not a digit; a minus sign
      negates them. */
  lemma ParseIntOfSigned(lead: string, sign: string, digits: string, tail: string)
    requires IntegerParts(lead, sign, digits, tail)
    ensures ParseInt(lead + sign + digits + tail)
      == Fin(if sign == "-" then -(DigitsValue(digits) as real) else DigitsValue(digits) as real)
  {
    SignedParts(lead, sign, digits, tail);
    SignedStart(sign, digits, tail);
    TrimStartSkips(lead, sign + (digits + tail));
    DigitPrefixOf(digits, tail);
    ParseIntAfterSign(lead + sign + digits + tail, sign, digits, tail);
  }

  /** The parts in which parseInt finds a number: white space, an optional
      sign, a run of decimal digits, then text that does not start with a digit. */
  predicate IntegerParts(lead: string, sign: string, digits: string, tail: string) {
    && (forall i :: 0 <= i < |lead| ==> IsWhiteSpace(lead[i]))
    && (sign == "" || sign == "+" || sign == "-")
    && digits != [] && AllDigits(digits)
    && (tail == [] || !IsDigit(tail[0]))
  }

  /** s splits into the parts in which parseInt finds a number. */
  ghost predicate LeadsWithInteger(s: string) {
    exists lead, sign, digits, tail :: IntegerParts(lead, sign, digits, tail) && s == lead + sign + digits + tail
  }

  /** parseInt is NaN exactly when its argument does not lead with an
      integer: "x1", "- 5" and "+-5" all give NaN. */
  lemma ParseIntNaNExactly(s: string)
    ensures ParseInt(s).NaN? <==> !LeadsWithInteger(s)
  {
    if ParseInt(s).Fin? {
      var lead, sign, digits, tail := ParseIntFinHasShape(s);
    }
    if LeadsWithInteger(s) {
      var lead, sign, digits, tail :| IntegerParts(lead, sign, digits, tail) && s == lead + sign + digits + tail;
      ParseIntOfSigned(lead, sign, digits, tail);
    }
  }

  /** When parseInt finds a number, its argument splits into the parts it read. */
  lemma ParseIntFinHasShape(s: string) returns (lead: string, sign: string, digits: string, tail: string)
    requires ParseInt(s).Fin?
    ensures IntegerParts(lead, sign, digits, tail) && s == lead + sign + digits + tail
  {
    var t := TrimStart(s);
    lead := s[..|s| - |t|];
    sign := if t != [] && (t[0] == '-' || t[0] == '+') then [t[0]] else [];
    var rest := t[|sign|..];
    var k := DigitPrefix(rest);
    assert k > 0;
    digits := rest[..k];
    tail := rest[k..];
    LeadOfTrimStart(s, lead);
    SignOfTrimStart(t, sign);
    DigitsOfPrefix(rest, k);
    Reassemble(s, lead, t, sign, rest, digits, tail);
  }

  /** What trimStart() drops is white space. */
  lemma LeadOfTrimStart(s: string, lead: string)
    requires lead == s[..|s| - |TrimStart(s)|]
    ensures forall i :: 0 <= i < |lead| ==> IsWhiteSpace(lead[i])
    ensures s == lead + TrimStart(s)
  {
    forall i | 0 <= i < |lead|
      ensures IsWhiteSpace(lead[i])
    {
      assert lead[i] == s[i];
    }
  }

  /** The sign parseInt skips, if any, is the first character after the white space. */
  lemma SignOfTrimStart(t: string, sign: string)
    requires sign == if t != [] && (t[0] == '-' || t[0] == '+') then [t[0]] else []
    ensures sign == "" || sign == "+" || sign == "-"
    ensures t == sign + t[|sign|..]
  {
  }

  /** The digit run at the start of rest, and what follows it. */
  lemma DigitsOfPrefix(rest: string, k: nat)
    requires k == DigitPrefix(rest) && k > 0
    ensures rest[..k] != [] && AllDigits(rest[..k])
    ensures rest[k..] == [] || !IsDigit(rest[k..][0])
    ensures rest == rest[..k] + rest[k..]
  {
  }

  /** Nested concatenations, flattened. */
  lemma Reassemble(s: string, lead: string, t: string, sign: string, rest: string, digits: string, tail: string)
    requires s == lead + t && t == sign + rest && rest == digits + tail
    ensures s == lead + sign + digits + tail
  {
  }

  /** The parts of lead + sign + digits + tail, regrouped. */
  lemma SignedParts(lead: string, sign: string, digits: string, tail: string)
    ensures lead + sign + digits + tail == lead + (sign + (digits + tail))
    ensures (digits + tail)[..|digits|] == digits
  {
  }

  /** A sign, if any, followed by a digit: the text does not start with white space. */
  lemma SignedStart(sign: string, digits: string, tail: string)
    requires sign == "" || sign == "+" || sign == "-"
    requires digits != [] && AllDigits(digits)
    ensures IsDigit((digits + tail)[0])
    ensures !IsWhiteSpace((sign + (digits + tail))[0])
  {
    assert (digits + tail)[0] == digits[0];
    if sign != [] { assert (sign + (digits + tail))[0] == sign[0]; }
  }

  /** parseInt of text whose white space is followed by its sign, if any,
      and then a run of digits. */
  lemma ParseIntAfterSign(s: string, sign: string, digits: string, tail: string)
    requires sign == "" || sign == "+" || sign == "-"
    requires TrimStart(s) == sign + (digits + tail)
    requires digits != [] && IsDigit((digits + tail)[0])
    requires DigitPrefix(digits + tail) == |digits| && (digits + tail)[..|digits|] == digits
    ensures ParseInt(s)
      == Fin(if sign == "-" then -(DigitsValue(digits) as real) else DigitsValue(digits) as real)
  {
    if sign == "" {
      assert sign + (digits + tail) == digits + tail;
      ParseIntUnsigned(s, digits, tail);
    } else {
      ParseIntWithSign(s, sign[0], digits, tail);
      assert sign == [sign[0]];
    }
  }

  /** parseInt after trim() of text without a decimal digit is NaN. */
  lemma ParseIntOfTrimWithoutDigits(s: string)
    requires forall i :: 0 <= i < |s| ==> !IsDigit(s[i])
    ensures ParseInt(Trim(s)).NaN?
  {
    var out := Trim(s);
    TrimIsSlice(s);
    NoDigitsInSlice(s, |s| - |TrimStart(s)|, out);
    ParseIntWithoutDigits(out);
  }

  /** A slice of a text without a decimal digit has none either. */
  lemma NoDigitsInSlice(s: string, k: nat, out: string)
    requires k + |out| <= |s| && out == s[k..k + |out|]
    requires forall i :: 0 <= i < |s| ==> !IsDigit(s[i])
    ensures forall i :: 0 <= i < |out| ==> !IsDigit(out[i])
  {
    forall i | 0 <= i < |out|
      ensures !IsDigit(out[i])
    {
      assert out[i] == s[k + i];
    }
  }

  /** parseInt after trim() of white space, a sign, digits and then text
      that does not start with a digit reads the signed digits. */
  lemma ParseIntOfTrimSigned(lead: string, sign: string, digits: string, rest: string)
    requires forall i :: 0 <= i < |lead| ==> IsWhiteSpace(lead[i])
    requires sign == "" || sign == "+" || sign == "-"
    requires digits != [] && AllDigits(digits)
    requires rest == [] || !IsDigit(rest[0])
    ensures ParseInt(Trim(lead + sign + digits + rest))
      == Fin(if sign == "-" then -(DigitsValue(digits) as real) else DigitsValue(digits) as real)
  {
    assert sign == [] || !IsWhiteSpace(sign[0]);
    TrimAroundDigits(lead, sign, digits, rest);
    var out := Trim(lead + sign + digits + rest);
    ParseIntOfSignedText(out, sign, digits, out[|sign| + |digits|..]);
  }

  /** parseInt of a sign, digits and text that does not start with a digit. */
  lemma ParseIntOfSignedText(out: string, sign: string, digits: string, tail: string)
    requires sign == "" || sign == "+" || sign == "-"
    requires digits != [] && AllDigits(digits)
    requires tail == [] || !IsDigit(tail[0])
    requires out == sign + digits + tail
    ensures ParseInt(out)
      == Fin(if sign == "-" then -(DigitsValue(digits) as real) else DigitsValue(digits) as real)
  {
    SignedParts([], sign, digits, tail);
    SignedStart(sign, digits, tail);
    assert out == sign + (digits + tail);
    assert TrimStart(out) == out;
    DigitPrefixOf(digits, tail);
    ParseIntAfterSign(out, sign, digits, tail);
  }

  /** trim() of white space, a head, digits and more text keeps the head, the
      digits and a prefix of the text. */
  lemma TrimAroundDigits(lead: string, head: string, digits: string, rest: string)
    requires forall i :: 0 <= i < |lead| ==> IsWhiteSpace(lead[i])
    requires head == [] || !IsWhiteSpace(head[0])
    requires digits != [] && AllDigits(digits)
    ensures var out := Trim(lead + head + digits + rest);
      var j := |head| + |digits|;
      && j <= |out|
      && out == head + digits + out[j..]
      && (j == |out| || out[j] == rest[0])
  {
    var core := head + digits + rest;
    assert lead + head + digits + rest == lead + core;
    assert !IsWhiteSpace(core[0]) by {
      if head == [] { assert core[0] == digits[0]; } else { assert core[0] == head[0]; }
    }
    TrimStartSkips(lead, core);
    TrimEndAfterDigits(head, digits, rest);
  }

  /** parseInt where the digits follow the white space directly. */
  lemma ParseIntUnsigned(s: string, digits: string, tail: string)
    requires TrimStart(s) == digits + tail
    requires digits != [] && IsDigit((digits + tail)[0])
    requires DigitPrefix(digits + tail) == |digits| && (digits + tail)[..|digits|] == digits
    ensures ParseInt(s) == Fin(DigitsValue(digits) as real)
  {
    var t := TrimStart(s);
    assert t[0] != '-' && t[0] != '+';
  }

  /** parseInt where a '+' or '-' sits between the white space and the digits. */
  lemma ParseIntWithSign(s: string, c: char, digits: string, tail: string)
    requires c == '+' || c == '-'
    requires TrimStart(s) == [c] + (digits + tail) && digits != []
    requires DigitPrefix(digits + tail) == |digits| && (digits + tail)[..|digits|] == digits
    ensures ParseInt(s)
      == Fin(if c == '-' then -(DigitsValue(digits) as real) else DigitsValue(digits) as real)
  {
    var t := TrimStart(s);
    var rest := t[1..];
    assert t[0] == c && rest == digits + tail;
    assert rest[..DigitPrefix(rest)] == digits;
  }

  lemma {:induction false} DigitPrefixOf(s: string, tail: string)
    requires AllDigits(s)
    requires tail == [] || !IsDigit(tail[0])
    ensures DigitPrefix(s + tail) == |s|
  {
    if s != [] {
      assert (s + tail)[1..] == s[1..] + tail;
      DigitPrefixOf(s[1..], tail);
    }
  }
}
