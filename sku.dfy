/** The pure helpers of webapp/main.py: `getSku`, which turns a reference
    such as "1234 - Premium Roll" into its number, and the 'na' short cut of
    `calculoconsumo`. */
module Sku {
  import opened Common
  import opened Strings
  import opened JsNumbers

  /** The argument of `getSku`: a JSON integer or a JSON string. */
  datatype SkuInput = IntArg(n: int) | StrArg(s: string)

  /** A SKU number, or the 'na' sentinel. */
  datatype Sku = Num(n: int) | Na

  /** `getSku` either returns or raises `ValueError` from `int()`. */
  datatype SkuResult = Parsed(sku: Sku) | ValueError

  /** `s.split(' ')[0]`: the text before the first space. */
  function FirstToken(s: string): (t: string)
    ensures StartsWith(s, t)
    ensures ' ' !in t
    ensures |t| < |s| ==> s[|t|] == ' '
  {
    if |s| == 0 || s[0] == ' ' then [] else [s[0]] + FirstToken(s[1..])
  }

  /** Python's `int(t)` on a token with no space in it: an optional sign
      followed by one or more ASCII digits, nothing else. */
  function PyInt(t: string): (r: Option<int>)
    ensures r.Some? ==> |t| > 0 && (IsDigit(t[0]) || t[0] == '-' || t[0] == '+')
    ensures r.Some? ==> forall i :: 1 <= i < |t| ==> IsDigit(t[i])
    ensures r.Some? && r.value < 0 ==> t[0] == '-'
  {
    var signed := |t| > 0 && (t[0] == '-' || t[0] == '+');
    var digits := if signed then t[1..] else t;
    if |digits| == 0 || !AllDigits(digits) then None
    else if |t| > 0 && t[0] == '-' then Some(0 - DigitsValue(digits) as int)
    else Some(DigitsValue(digits))
  }

  /** `getSku(ref)`: an integer is returned as it is, 'na' as the sentinel,
      any other text as the integer before its first space. */
  function GetSku(ref: SkuInput): (r: SkuResult)
    ensures ref.IntArg? ==> r == Parsed(Num(ref.n))
    ensures ref == StrArg("na") ==> r == Parsed(Na)
    ensures r == Parsed(Na) ==> ref == StrArg("na")
    ensures ref.StrArg? && ref.s != "na" ==>
              (r.Parsed? <==> PyInt(FirstToken(ref.s)).Some?)
              && (r.Parsed? ==> r.sku == Num(PyInt(FirstToken(ref.s)).value))
  {
    match ref
    case IntArg(n) => Parsed(Num(n))
    case StrArg(s) =>
      if s == "na" then Parsed(Na)
      else match PyInt(FirstToken(s))
        case Some(n) => Parsed(Num(n))
        case None => ValueError
  }

  /** `int()` reads back the decimal text of every integer. */
  lemma PyIntOfIntToString(n: int)
    ensures PyInt(IntToString(n)) == Some(n)
  {
    var m := if n < 0 then -n else n;
    var ds := NatToDigits(m);
    DigitsValueOfNatToDigits(m);
    if n < 0 {
      assert IntToString(n)[1..] == ds;
    } else {
      assert IntToString(n)[0] != '-' && IntToString(n)[0] != '+';
    }
  }

  /** The token before the first space of a space-free text followed by a
      space is that text. */
  lemma {:induction false} FirstTokenOfWordThenSpace(w: string, rest: string)
    requires ' ' !in w
    ensures FirstToken(w + " " + rest) == w
  {
    if |w| > 0 {
      FirstTokenOfWordThenSpace(w[1..], rest);
      assert (w + " " + rest)[1..] == w[1..] + " " + rest;
    }
  }

  /** A reference written as its number, a space and a name gives back the
      number. */
  lemma GetSkuOfReference(n: int, name: string)
    ensures GetSku(StrArg(IntToString(n) + " " + name)) == Parsed(Num(n))
  {
    var w := IntToString(n);
    assert ' ' !in w by {
      assert AllDigits(NatToDigits(if n < 0 then -n else n));
    }
    FirstTokenOfWordThenSpace(w, name);
    PyIntOfIntToString(n);
    assert w + " " + name != "na" by {
      assert (w + " " + name)[|w|] == ' ';
    }
  }

  /** Text whose first token is not a number raises; the empty text is one. */
  lemma GetSkuRejects()
    ensures GetSku(StrArg("")) == ValueError
    ensures GetSku(StrArg(" 12")) == ValueError
    ensures GetSku(StrArg("N/A")) == ValueError
  {
    assert FirstToken(" 12") == "";
    assert FirstToken("N/A") == "N/A" by {
      assert FirstToken("A") == "A";
      assert FirstToken("/A") == "/A";
    }
  }

  /** What `calculoconsumo` returns: the 'na' marker pair, or the monthly
      consumption and the price (always 0, the price line being disabled). */
  datatype Consumption = NoAplica | Figures(consumoMensual: real, precio: real)

  /** `calculoconsumo` for one product. `computed` is the dataframe
      computation, or `None` when it raised, in which case the consumption
      is 0. */
  function CalculoConsumo(sku: Sku, computed: Option<real>): (r: Consumption)
    ensures r == NoAplica <==> sku == Na
    ensures r.Figures? ==> r.precio == 0.0
    ensures r.Figures? && computed.None? ==> r.consumoMensual == 0.0
    ensures r.Figures? && computed.Some? ==> r.consumoMensual == computed.value
  {
    if sku != Na then Figures(computed.GetOr(0.0), 0.0) else NoAplica
  }

  /** A product gets "No Aplica" exactly when its reference was the text
      'na'; any numbered reference gets figures. */
  lemma NoAplicaOnlyForNa(ref: SkuInput, computed: Option<real>, n: int, name: string)
    ensures GetSku(ref).Parsed? ==> (CalculoConsumo(GetSku(ref).sku, computed) == NoAplica <==> ref == StrArg("na"))
    ensures GetSku(StrArg(IntToString(n) + " " + name)).Parsed?
            && CalculoConsumo(GetSku(StrArg(IntToString(n) + " " + name)).sku, computed).Figures?
  {
    GetSkuOfReference(n, name);
  }
}
