/** The pieces of Python's string behaviour the chat service relies on:
    `str.strip()` with no argument, `str()` applied to a decoded JSON scalar,
    and substring containment. */
module PyText {
  import opened Wrappers

  /** The characters for which Python's `str.isspace()` holds; `str.strip()`
      with no argument removes exactly these from both ends: tab, line feed,
      vertical tab, form feed and carriage return; the file, group, record and
      unit separators and the space; next line; no-break space; the Ogham
      space mark; the spaces U+2000 to U+200A; the line and paragraph
      separators; the narrow no-break space; the medium mathematical space;
      the ideographic space. */
  predicate IsSpace(c: char) {
    ('\t' <= c <= '\r') || ('\U{1C}' <= c <= ' ') || c == '\U{85}' || c == '\U{A0}' || c == '\U{1680}'
    || ('\U{2000}' <= c <= '\U{200A}') || c == '\U{2028}' || c == '\U{2029}' || c == '\U{202F}'
    || c == '\U{205F}' || c == '\U{3000}'
  }

  /** The same characters, listed one by one: the whitespace table of
      Python's `str.isspace()`. */
  const PythonWhitespace: set<char> := {
    '\t', '\n', '\U{0B}', '\U{0C}', '\r', '\U{1C}', '\U{1D}', '\U{1E}', '\U{1F}', ' ',
    '\U{85}', '\U{A0}', '\U{1680}',
    '\U{2000}', '\U{2001}', '\U{2002}', '\U{2003}', '\U{2004}', '\U{2005}',
    '\U{2006}', '\U{2007}', '\U{2008}', '\U{2009}', '\U{200A}',
    '\U{2028}', '\U{2029}', '\U{202F}', '\U{205F}', '\U{3000}'
  }

  /** The range test `IsSpace` holds for exactly the listed characters. */
  lemma IsSpaceIsPythonWhitespace(c: char)
    ensures IsSpace(c) <==> c in PythonWhitespace
  {
  }

  predicate AllSpace(s: string) {
    forall k :: 0 <= k < |s| ==> IsSpace(s[k])
  }

  /** Every character of `s` at an index in `[i, j)` is whitespace. */
  predicate SpaceBetween(s: string, i: nat, j: nat)
    requires i <= j <= |s|
  {
    forall k :: i <= k < j ==> IsSpace(s[k])
  }

  /** Neither end of `s` is whitespace: what `strip` leaves behind. */
  predicate IsStripped(s: string) {
    s == [] || (!IsSpace(s[0]) && !IsSpace(s[|s| - 1]))
  }

  /** The first index at or after `i` that does not hold whitespace, or `|s|`. */
  function SkipForward(s: string, i: nat): (j: nat)
    requires i <= |s|
    ensures i <= j <= |s| && SpaceBetween(s, i, j)
    ensures j == |s| || !IsSpace(s[j])
    decreases |s| - i
  {
    if i < |s| && IsSpace(s[i]) then SkipForward(s, i + 1) else i
  }

  /** The least index `i` down to `lo` such that `s[i..j]` is all whitespace. */
  function SkipBackward(s: string, lo: nat, j: nat): (i: nat)
    requires lo <= j <= |s|
    ensures lo <= i <= j && SpaceBetween(s, i, j)
    ensures i == lo || !IsSpace(s[i - 1])
  {
    if lo < j && IsSpace(s[j - 1]) then SkipBackward(s, lo, j - 1) else j
  }

  /** How many whitespace characters `s.strip()` cuts from the front of `s`. */
  function LeadingSpace(s: string): (n: nat)
    ensures n <= |s|
  {
    SkipForward(s, 0)
  }

  /** Python's `s.strip()`: the stripped slice of `s` that starts after its
      leading whitespace and has only whitespace after it. */
  function Strip(s: string): (r: string)
    ensures IsStripped(r)
    ensures LeadingSpace(s) + |r| <= |s| && r == s[LeadingSpace(s)..LeadingSpace(s) + |r|]
    ensures SpaceBetween(s, 0, LeadingSpace(s)) && SpaceBetween(s, LeadingSpace(s) + |r|, |s|)
  {
    var i := SkipForward(s, 0);
    var j := SkipBackward(s, i, |s|);
    s[i..j]
  }

  /** A stripped slice surrounded by whitespace is determined by `s` alone:
      it is `Strip(s)`. Together with `Strip`'s contract this pins `Strip` down. */
  lemma StripUnique(s: string, i: nat, j: nat)
    requires i <= j <= |s|
    requires SpaceBetween(s, 0, i) && SpaceBetween(s, j, |s|) && IsStripped(s[i..j])
    ensures Strip(s) == s[i..j]
  {
    var i' := LeadingSpace(s);
    var j' := i' + |Strip(s)|;
    if i < j {
      assert !IsSpace(s[i]) && !IsSpace(s[j - 1]);
    }
    if i' < j' {
      assert !IsSpace(s[i']) && !IsSpace(s[j' - 1]);
    }
  }

  lemma {:induction false} StripOfStripped(s: string)
    requires IsStripped(s)
    ensures Strip(s) == s
  {
    StripUnique(s, 0, |s|);
  }

  /** Stripping twice is stripping once. */
  lemma {:induction false} StripIdempotent(s: string)
    ensures Strip(Strip(s)) == Strip(s)
  {
    StripOfStripped(Strip(s));
  }

  /** `s.strip()` is empty exactly when every character of `s` is whitespace. */
  lemma {:induction false} StripEmptyIff(s: string)
    ensures Strip(s) == [] <==> AllSpace(s)
  {
    if AllSpace(s) {
      StripUnique(s, 0, 0);
    }
  }

  /** `t` occurs in `s` as a contiguous piece (Python's `t in s`). */
  ghost predicate Contains(s: string, t: string) {
    exists i :: OccursAt(s, t, i)
  }

  predicate OccursAt(s: string, t: string, i: int) {
    0 <= i <= |s| - |t| && s[i..i + |t|] == t
  }

  lemma ContainsMiddle(a: string, t: string, b: string)
    ensures Contains(a + t + b, t)
  {
    assert OccursAt(a + t + b, t, |a|);
  }

  /** A JSON scalar as `json.loads` hands it to Python. */
  datatype Scalar = Null | Bool(b: bool) | Int(i: int) | Str(s: string)

  function DigitChar(d: nat): (c: char)
    requires d < 10
    ensures '0' <= c <= '9'
  {
    "0123456789"[d]
  }

  /** Every character of `s` is a decimal digit. */
  predicate Digits(s: string) {
    forall k :: 0 <= k < |s| ==> '0' <= s[k] <= '9'
  }

  /** The decimal numeral of `n`, most significant digit first, as `str(n)` writes it. */
  function Decimal(n: nat): (r: string)
    ensures |r| >= 1 && Digits(r)
    ensures |r| > 1 ==> r[0] != '0'
  {
    if n < 10 then [DigitChar(n)] else Decimal(n / 10) + [DigitChar(n % 10)]
  }

  /** The value of a numeral: the reference reading against which `Decimal` is checked. */
  function DecimalValue(s: string): nat
    requires Digits(s)
  {
    if s == [] then 0
    else DecimalValue(s[..|s| - 1]) * 10 + (s[|s| - 1] as int - '0' as int)
  }

  lemma {:induction false} DecimalRoundTrip(n: nat)
    ensures DecimalValue(Decimal(n)) == n
  {
    if n < 10 {
      DigitValue(n);
      assert Decimal(n)[..0] == [];
    } else {
      var s := Decimal(n / 10) + [DigitChar(n % 10)];
      assert s[..|s| - 1] == Decimal(n / 10);
      DigitValue(n % 10);
      DecimalRoundTrip(n / 10);
      assert DecimalValue(s) == DecimalValue(Decimal(n / 10)) * 10 + n % 10;
    }
  }

  /** The digit `DigitChar` writes stands for its argument. */
  lemma DigitValue(d: nat)
    requires d < 10
    ensures DigitChar(d) as int - '0' as int == d
  {
  }

  /** Python's `str(i)` of an integer: the decimal numeral of its magnitude,
      with a minus sign in front exactly when it is negative. */
  function IntText(i: int): (r: string)
    ensures r != [] && (r[0] == '-' <==> i < 0)
    ensures var sign := if i < 0 then 1 else 0; sign <= |r| && r[sign..] == Decimal(if i < 0 then -i else i)
  {
    if i < 0 then
      var d := Decimal(-i);
      assert (['-'] + d)[1..] == d;
      ['-'] + d
    else
      var d := Decimal(i);
      assert '0' <= d[0] <= '9';
      d
  }

  /** Python's `str(v)`: `None`, `True`/`False`, the signed numeral, or the string itself. */
  function PyStr(v: Scalar): (r: string)
    ensures v == Null ==> r == "None"
    ensures v.Bool? ==> r == (if v.b then "True" else "False")
    ensures v.Str? ==> r == v.s
    ensures v.Int? ==> r == IntText(v.i)
  {
    match v
    case Null => "None"
    case Bool(b) => if b then "True" else "False"
    case Int(i) => IntText(i)
    case Str(s) => s
  }

  lemma NumeralCharIsNotSpace(c: char)
    requires '0' <= c <= '9' || c == '-'
    ensures !IsSpace(c)
  {
  }

  /** `str(v).strip()` of a JSON scalar that is not a string is `str(v)`
      itself, and it is never empty: only a string can come out blank. */
  lemma {:induction false} PyStrOfNonString(v: Scalar)
    requires !v.Str?
    ensures PyStr(v) != [] && Strip(PyStr(v)) == PyStr(v)
  {
    if v.Int? {
      var d := Decimal(if v.i < 0 then -v.i else v.i);
      NumeralCharIsNotSpace(d[0]);
      NumeralCharIsNotSpace(d[|d| - 1]);
      NumeralCharIsNotSpace('-');
      var s := PyStr(v);
      assert s[|s| - 1] == d[|d| - 1];
    }
    var s := PyStr(v);
    assert s != [] && !IsSpace(s[0]) && !IsSpace(s[|s| - 1]);
    StripOfStripped(s);
  }

  /** `str(d.get(key, "")).strip()` for a decoded JSON object `d` whose
      `key` holds `v`. The definition is `Strip(PyStr(v.GetOr(Str(""))))`;
      this is that expression with the case split worked out once
      (`FieldTextIsStrippedStr` proves the two equal): a missing key reads
      as "", and only a string can carry whitespace for `strip` to remove. */
  function FieldText(v: Option<Scalar>): (r: string)
    ensures IsStripped(r)
  {
    match v
    case None => ""
    case Some(Str(s)) => Strip(s)
    case Some(x) => PyStrOfNonString(x); PyStr(x)
  }

  /** `FieldText` is its definition, `str(value).strip()`. */
  lemma FieldTextIsStrippedStr(v: Option<Scalar>)
    ensures FieldText(v) == Strip(PyStr(v.GetOr(Str(""))))
  {
    match v
    case None => StripOfStripped("");
    case Some(Str(s)) =>
    case Some(x) => PyStrOfNonString(x);
  }

  /** `str(d.get(key, "")).strip()` is empty exactly when the key is missing
      or holds a string of whitespace only. */
  lemma {:induction false} FieldTextBlank(v: Option<Scalar>)
    ensures FieldText(v) == [] <==> v == None || (v.value.Str? && AllSpace(v.value.s))
  {
    match v
    case None =>
    case Some(Str(s)) => StripEmptyIff(s);
    case Some(x) => PyStrOfNonString(x);
  }
}
