/** The slice of Python the scraper leans on: JSON scalars as Python values,
    truthiness, `==` against False or a number, `str()`, `str.lower()`, the
    substring test `in`, `float()`, and the exceptions these raise together with
    the text `str(e)` gives for each. */
module PyValues {

  datatype Option<+T> = None | Some(value: T)

  /** An exception the scraper can raise while it walks the listings. */
  datatype Error =
    | KeyError(key: string)                          // d[key] on a missing key
    | IndexError                                     // xs[0] on an empty list
    | TypeError(message: string)                     // subscripting None, float(None)
    | AttributeError(typeName: string, attribute: string)  // .lower() on a non-string
    | ValueError(message: string)                    // float() of a non-numeric string
    | Transport(message: string)                     // requests.get or .json() failed

  /** The outcome of code that may raise; `:-` propagates the exception. */
  datatype Result<+T> = Ok(value: T) | Err(error: Error) {
    predicate IsFailure() { Err? }
    function PropagateFailure<U>(): Result<U>
      requires Err?
    {
      Err(error)
    }
    function Extract(): T
      requires Ok?
    {
      value
    }
  }

  /** A JSON scalar as `response.json()` hands it to Python. A float carries the
      text Python's repr() prints for it, since that text is IEEE-754 business. */
  datatype Value =
    | PyNone
    | PyBool(b: bool)
    | PyInt(i: int)
    | PyFloat(x: real, repr: string)
    | PyStr(s: string)

  /** Python truthiness: None, False, 0, 0.0 and "" are falsy. */
  predicate Truthy(v: Value) {
    match v
    case PyNone => false
    case PyBool(b) => b
    case PyInt(i) => i != 0
    case PyFloat(x, _) => x != 0.0
    case PyStr(s) => s != ""
  }

  /** `v == False` in Python: bool is a subclass of int, so 0 and 0.0 equal False too. */
  predicate EqualsFalse(v: Value) {
    v == PyBool(false) || v == PyInt(0) || (v.PyFloat? && v.x == 0.0)
  }

  /** `v == n` in Python for a number n (an int or a float): numbers compare
      by value across bool, int and float; None and strings never equal one. */
  predicate EqualsNumber(v: Value, n: real) {
    match v
    case PyBool(b) => (if b then 1.0 else 0.0) == n
    case PyInt(i) => i as real == n
    case PyFloat(x, _) => x == n
    case _ => false
  }

  function TypeName(v: Value): string {
    match v
    case PyNone => "NoneType"
    case PyBool(_) => "bool"
    case PyInt(_) => "int"
    case PyFloat(_, _) => "float"
    case PyStr(_) => "str"
  }

  /** `str(e)` for the exceptions above. */
  function ErrorText(e: Error): (t: string)
    ensures e.KeyError? || e.IndexError? || e.AttributeError? ==> t != ""
  {
    match e
    case KeyError(key) => "'" + key + "'"
    case IndexError => "list index out of range"
    case TypeError(m) => m
    case AttributeError(t, a) => "'" + t + "' object has no attribute '" + a + "'"
    case ValueError(m) => m
    case Transport(m) => m
  }

  // ---------------------------------------------------------------------------
  // Strings: lower(), `in`

  function LowerChar(c: char): char {
    if 'A' <= c <= 'Z' then (c as int + 32) as char else c
  }

  /** `s.lower()`, on the ASCII letters. */
  function Lower(s: string): (r: string)
    ensures |r| == |s|
    ensures forall i :: 0 <= i < |s| ==> r[i] == LowerChar(s[i])
  {
    seq(|s|, i requires 0 <= i < |s| => LowerChar(s[i]))
  }

  /** `t in s` for strings: some window of s spells t. Scans from the left. */
  predicate Contains(s: string, t: string)
    decreases |s|
  {
    |t| <= |s| && (s[..|t|] == t || Contains(s[1..], t))
  }

  /** Reference reading of `t in s`: a window s[i..j] equal to t. */
  ghost predicate HasWindow(s: string, t: string) {
    exists i, j :: 0 <= i <= j <= |s| && j - i == |t| && s[i..j] == t
  }

  /** Reference reading of `w in s.lower()`: some window of s spells w in any case. */
  ghost predicate MentionsAnyCase(s: string, w: string) {
    exists i, j :: 0 <= i <= j <= |s| && j - i == |w| && Lower(s[i..j]) == w
  }

  lemma {:induction false} ContainsHasWindow(s: string, t: string)
    requires Contains(s, t)
    ensures HasWindow(s, t)
    decreases |s|
  {
    if s[..|t|] == t {
      assert s[0..|t|] == t;
    } else {
      ContainsHasWindow(s[1..], t);
      var i, j :| 0 <= i <= j <= |s| - 1 && j - i == |t| && s[1..][i..j] == t;
      assert s[i + 1..j + 1] == t;
    }
  }

  lemma {:induction false} WindowContains(s: string, t: string, i: nat)
    requires i + |t| <= |s| && s[i..i + |t|] == t
    ensures Contains(s, t)
    decreases i
  {
    if i > 0 {
      assert s[1..][i - 1..i - 1 + |t|] == s[i..i + |t|];
      WindowContains(s[1..], t, i - 1);
    }
  }

  /** The left-to-right scan agrees with the window reading of `t in s`. */
  lemma ContainsIsWindow(s: string, t: string)
    ensures Contains(s, t) <==> HasWindow(s, t)
  {
    if Contains(s, t) {
      ContainsHasWindow(s, t);
    }
    if HasWindow(s, t) {
      var i, j :| 0 <= i <= j <= |s| && j - i == |t| && s[i..j] == t;
      WindowContains(s, t, i);
    }
  }

  lemma LowerSlice(s: string, i: int, j: int)
    requires 0 <= i <= j <= |s|
    ensures Lower(s)[i..j] == Lower(s[i..j])
  {
  }

  /** Searching the lowered text for a lower-case word finds it in any case. */
  lemma ContainsLowerIsAnyCase(s: string, w: string)
    requires Lower(w) == w
    ensures Contains(Lower(s), w) <==> MentionsAnyCase(s, w)
  {
    ContainsIsWindow(Lower(s), w);
    if Contains(Lower(s), w) {
      var i, j :| 0 <= i <= j <= |Lower(s)| && j - i == |w| && Lower(s)[i..j] == w;
      LowerSlice(s, i, j);
    }
    if MentionsAnyCase(s, w) {
      var i, j :| 0 <= i <= j <= |s| && j - i == |w| && Lower(s[i..j]) == w;
      LowerSlice(s, i, j);
      assert HasWindow(Lower(s), w);
    }
  }

  // ---------------------------------------------------------------------------
  // str() of a value

  predicate IsDigit(c: char) { '0' <= c <= '9' }

  function DigitChar(d: nat): char
    requires d < 10
  {
    ('0' as int + d) as char
  }

  function DigitValue(c: char): nat
    requires IsDigit(c)
  {
    c as int - '0' as int
  }

  predicate AllDigits(s: string) {
    forall i :: 0 <= i < |s| ==> IsDigit(s[i])
  }

  /** Decimal digits of n, most significant first, as `str(n)` prints them. */
  function NatText(n: nat): (t: string)
    ensures |t| > 0 && AllDigits(t)
    decreases n
  {
    if n < 10 then [DigitChar(n)] else NatText(n / 10) + [DigitChar(n % 10)]
  }

  function IntText(i: int): string {
    if i < 0 then "-" + NatText(-i) else NatText(i)
  }

  /** `str(v)` as an f-string interpolates it. */
  function Show(v: Value): string {
    match v
    case PyNone => "None"
    case PyBool(b) => if b then "True" else "False"
    case PyInt(i) => IntText(i)
    case PyFloat(_, repr) => repr
    case PyStr(s) => s
  }

  // ---------------------------------------------------------------------------
  // float()

  /** The value of a run of decimal digits. */
  function DigitsValue(s: string): nat
    requires AllDigits(s)
    decreases |s|
  {
    if s == [] then 0 else 10 * DigitsValue(s[..|s| - 1]) + DigitValue(s[|s| - 1])
  }

  function Pow10(n: nat): (p: nat)
    ensures p > 0
  {
    if n == 0 then 1 else 10 * Pow10(n - 1)
  }

  function IndexOf(s: string, c: char): (r: Option<nat>)
    ensures r.Some? ==> r.value < |s| && s[r.value] == c
    ensures r.None? <==> forall i :: 0 <= i < |s| ==> s[i] != c
  {
    if s == [] then None
    else if s[0] == c then Some(0)
    else match IndexOf(s[1..], c)
      case None => None
      case Some(k) => Some(k + 1)
  }

  predicate IsSpace(c: char) {
    c == ' ' || 9 <= c as int <= 13
  }

  function StripLeft(s: string): string
    decreases |s|
  {
    if s != [] && IsSpace(s[0]) then StripLeft(s[1..]) else s
  }

  function StripRight(s: string): string
    decreases |s|
  {
    if s != [] && IsSpace(s[|s| - 1]) then StripRight(s[..|s| - 1]) else s
  }

  /** digits, digits "." digits, digits "." or "." digits. */
  function ParseUnsigned(s: string): Option<real> {
    match IndexOf(s, '.')
    case None =>
      if s != [] && AllDigits(s) then Some(DigitsValue(s) as real) else None
    case Some(k) =>
      var whole, fraction := s[..k], s[k + 1..];
      if AllDigits(whole) && AllDigits(fraction) && |whole| + |fraction| > 0 then
        Some(DigitsValue(whole) as real + DigitsValue(fraction) as real / Pow10(|fraction|) as real)
      else None
  }

  /** The decimal literals float() accepts: surrounding white space, an optional sign. */
  function ParseDecimal(text: string): Option<real> {
    var s := StripRight(StripLeft(text));
    if s != [] && s[0] == '-' then
      match ParseUnsigned(s[1..])
      case None => None
      case Some(x) => Some(-x)
    else if s != [] && s[0] == '+' then ParseUnsigned(s[1..])
    else ParseUnsigned(s)
  }

  /** `float(v)`, read exactly: there is no double range, so an int beyond it
      converts where Python raises OverflowError. */
  function ToFloat(v: Value): (r: Result<real>)
    ensures r.Err? ==> v.PyNone? || v.PyStr?
    ensures v.PyStr? && r.Err? ==> r.error.ValueError?
  {
    match v
    case PyNone => Err(TypeError("float() argument must be a string or a real number, not 'NoneType'"))
    case PyBool(b) => Ok(if b then 1.0 else 0.0)
    case PyInt(i) => Ok(i as real)
    case PyFloat(x, _) => Ok(x)
    case PyStr(s) =>
      match ParseDecimal(s)
      case Some(x) => Ok(x)
      case None => Err(ValueError("could not convert string to float: '" + s + "'"))
  }

  lemma {:induction false} NatTextValue(n: nat)
    ensures DigitsValue(NatText(n)) == n
    decreases n
  {
    if n >= 10 {
      var t := NatText(n / 10) + [DigitChar(n % 10)];
      assert t[..|t| - 1] == NatText(n / 10);
      NatTextValue(n / 10);
    }
  }

  lemma StripDigits(t: string)
    requires |t| > 0 && AllDigits(t)
    ensures StripLeft(t) == t && StripRight(t) == t
  {
  }

  /** str(i) of any int read back by float() gives i: the two agree on decimal text. */
  lemma ToFloatOfIntText(i: int)
    ensures ToFloat(PyStr(IntText(i))) == Ok(i as real)
  {
    var n: nat := if i < 0 then -i else i;
    var digits := NatText(n);
    NatTextValue(n);
    StripDigits(digits);
    assert IndexOf(digits, '.').None?;
    if i < 0 {
      var t := "-" + digits;
      assert !IsSpace(t[0]) && !IsSpace(t[|t| - 1]);
      assert StripRight(StripLeft(t)) == t;
      assert t[1..] == digits;
    } else {
      assert digits[0] != '-' && digits[0] != '+';
    }
  }
}
