/** The JavaScript numbers the wizard produces. Every number it reads comes
    from `parseInt`, so a value is either an integer or NaN. */
module JsNumbers {
  import opened Common
  import opened Strings

  datatype Number = NaN | Int(value: int)

  /** The whitespace `parseInt` skips before a number (the ECMAScript
      StrWhiteSpaceChar set: tab, line feed, vertical tab, form feed, carriage
      return, space, the space separators and the byte-order mark). */
  predicate IsJsWhitespace(c: char) {
    c == '\t' || c == '\n' || c == '\U{000B}' || c == '\U{000C}' || c == '\r' || c == ' '
    || c == '\U{00A0}' || c == '\U{1680}' || ('\U{2000}' <= c <= '\U{200A}')
    || c == '\U{2028}' || c == '\U{2029}' || c == '\U{202F}' || c == '\U{205F}'
    || c == '\U{3000}' || c == '\U{FEFF}'
  }

  /** The text after its leading whitespace: a suffix that does not start
      with whitespace, and every character dropped is whitespace. */
  function TrimStart(s: string): (r: string)
    ensures |r| <= |s| && r == s[|s| - |r|..]
    ensures |r| > 0 ==> !IsJsWhitespace(r[0])
    ensures forall i :: 0 <= i < |s| - |r| ==> IsJsWhitespace(s[i])
  {
    if |s| > 0 && IsJsWhitespace(s[0]) then TrimStart(s[1..]) else s
  }

  /** The text after one leading sign, if it has one. */
  function Unsigned(t: string): string {
    if |t| > 0 && (t[0] == '-' || t[0] == '+') then t[1..] else t
  }

  /** `parseInt(s)` for decimal text: leading whitespace is skipped, an
      optional sign is read, then the longest run of digits; no digit gives
      NaN and anything after the digits is ignored. A number comes out
      exactly when a digit follows the whitespace and the sign, and it is
      negative only after a minus sign. */
  function ParseInt(s: string): (n: Number)
    ensures n.Int? <==> |Unsigned(TrimStart(s))| > 0 && IsDigit(Unsigned(TrimStart(s))[0])
    ensures n.Int? && n.value < 0 ==> |TrimStart(s)| > 0 && TrimStart(s)[0] == '-'
  {
    var t := TrimStart(s);
    var negative := |t| > 0 && t[0] == '-';
    var ds := LeadingDigits(Unsigned(t));
    if |ds| == 0 then NaN
    else Int(if negative then 0 - DigitsValue(ds) as int else DigitsValue(ds))
  }

  /** `n || 0`: NaN (and zero) become 0. */
  function OrZero(n: Number): (r: int)
    ensures n.Int? ==> r == n.value
    ensures n.NaN? ==> r == 0
  {
    match n
    case NaN => 0
    case Int(v) => v
  }

  /** JavaScript truthiness of a number: false for NaN and 0. */
  predicate Truthy(n: Number) {
    n.Int? && n.value != 0
  }

  /** `a + b` on numbers; a missing value (`undefined`) counts as NaN. */
  function Add(a: Number, b: Number): (r: Number)
    ensures r.Int? <==> a.Int? && b.Int?
    ensures r.Int? ==> r.value == a.value + b.value
  {
    if a.Int? && b.Int? then Int(a.value + b.value) else NaN
  }

  /** A missing object field read as a number is NaN. */
  function FieldNumber(f: Option<Number>): Number {
    f.GetOr(NaN)
  }

  /** The decimal text of an integer (`String(n)`). */
  function IntToString(n: int): (s: string)
    ensures |s| > 0
  {
    if n < 0 then "-" + NatToDigits(-n) else NatToDigits(n)
  }

  /** `parseInt` reads back the text of every integer. */
  lemma ParseIntOfIntToString(n: int)
    ensures ParseInt(IntToString(n)) == Int(n)
  {
    var s := IntToString(n);
    var ds := NatToDigits(if n < 0 then -n else n);
    assert TrimStart(s) == s;
    LeadingDigitsOfDigitsThen(ds, "");
    assert ds + "" == ds;
    DigitsValueOfNatToDigits(if n < 0 then -n else n);
    if n < 0 {
      assert s[1..] == ds;
    } else {
      assert s[0] != '-' && s[0] != '+';
    }
  }

  /** Text with no digit after its whitespace and its sign parses to NaN:
      "", "-", "+x" and "abc" alike. */
  lemma ParseIntNaN(s: string)
    requires var u := Unsigned(TrimStart(s)); |u| == 0 || !IsDigit(u[0])
    ensures ParseInt(s) == NaN
  {
  }
}
