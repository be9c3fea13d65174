/** Display formatting of prices, large amounts and percentage changes
    (src/utils/Formatter.ts). The branch, prefix and suffix logic is modelled
    exactly; the digit rendering done by `toLocaleString` and `toFixed` is
    left abstract: a formatter returns a sequence of pieces, and `Render`
    turns them into text given the two digit renderers as parameters. */
module Formatter {

  /** The values a formatter argument can take: `undefined`, `null`, NaN or
      a finite number. The formatters accept `undefined` and `null`, which
      the components' own numbers never are, hence a type of their own. */
  datatype JsNumber = Undefined | Null | NaN | Finite(v: real)

  /** A piece of formatted text: literal characters, a number rendered by
      `toLocaleString('en-US')` with the given number of fraction digits, or
      a number rendered by `toFixed(places)`. */
  datatype Piece = Lit(text: string) | Locale(value: real, fractionDigits: nat) | Fixed(value: real, places: nat)

  /** A digit renderer: the text for a value and a number of decimals. */
  type Renderer = (real, nat) -> string

  function RenderPiece(p: Piece, locale: Renderer, fixed: Renderer): string
  {
    match p
    case Lit(t) => t
    case Locale(x, d) => locale(x, d)
    case Fixed(x, d) => fixed(x, d)
  }

  function Render(ps: seq<Piece>, locale: Renderer, fixed: Renderer): string
  {
    if |ps| == 0 then "" else RenderPiece(ps[0], locale, fixed) + Render(ps[1..], locale, fixed)
  }

  /** The numbers a piece sequence renders, in order. */
  function Values(ps: seq<Piece>): seq<real>
  {
    if |ps| == 0 then []
    else if ps[0].Lit? then Values(ps[1..])
    else [ps[0].value] + Values(ps[1..])
  }

  /** The first character a renderer may produce is never `c`. */
  ghost predicate NeverLeads(render: Renderer, c: char)
  {
    forall x, d :: |render(x, d)| == 0 || render(x, d)[0] != c
  }

  const Thousand: real := 1000.0
  const Million: real := 1000000.0
  const Billion: real := 1000000000.0
  const Trillion: real := 1000000000000.0

  /** `formatPrice`: a dollar sign followed by the price, with no fraction
      digits from 1000 up, two from 1 up, and four fixed places below 1;
      `$0.00` when the argument is not a number. */
  function FormatPrice(price: JsNumber): (r: seq<Piece>)
    ensures |r| > 0 && r[0].Lit? && |r[0].text| > 0 && r[0].text[0] == '$'
    ensures price.Finite? <==> |r| == 2
    ensures price.Finite? ==> r[0] == Lit("$")
    ensures price.Finite? ==> !r[1].Lit? && r[1].value == price.v
  {
    if !price.Finite? then [Lit("$0.00")]
    else if price.v >= Thousand then [Lit("$"), Locale(price.v, 0)]
    else if price.v >= 1.0 then [Lit("$"), Locale(price.v, 2)]
    else [Lit("$"), Fixed(price.v, 4)]
  }

  /** Whatever the digit renderers produce, a formatted price starts with
      `$`, and a missing or NaN price reads `$0.00`. */
  lemma PriceText(price: JsNumber, locale: Renderer, fixed: Renderer)
    ensures var s := Render(FormatPrice(price), locale, fixed);
      |s| > 0 && s[0] == '$'
      && (!price.Finite? ==> s == "$0.00")
  {
  }

  /** The precision tiers of `formatPrice`, each stated as an equivalence
      with the range of the price. */
  lemma PriceTiers(p: real)
    ensures FormatPrice(Finite(p))[1..] == [Locale(p, 0)] <==> p >= Thousand
    ensures FormatPrice(Finite(p))[1..] == [Locale(p, 2)] <==> 1.0 <= p < Thousand
    ensures FormatPrice(Finite(p))[1..] == [Fixed(p, 4)] <==> p < 1.0
  {
  }

  /** `formatLargeNumber` as written: T, B and M suffixes on the value scaled
      to that unit with two fixed places; below one million the dollar sign
      is put in front of `formatPrice`'s output, which already has one. */
  function FormatLargeNumber(num: JsNumber): (r: seq<Piece>)
    ensures |r| > 0 && r[0].Lit? && |r[0].text| > 0 && r[0].text[0] == '$'
    ensures !num.Finite? <==> r == [Lit("$0")]
    ensures num.Finite? && num.v < Million ==> r == [Lit("$")] + FormatPrice(num)
    ensures num.Finite? && num.v >= Million ==> |r| == 3 && r[0] == Lit("$") && r[1].Fixed? && r[1].places == 2
    ensures num.Finite? && num.v >= Million ==> 1.0 <= r[1].value
    ensures num.Finite? && Million <= num.v < Trillion ==> r[1].value < Thousand
  {
    if !num.Finite? then [Lit("$0")]
    else if num.v >= Trillion then [Lit("$"), Fixed(num.v / Trillion, 2), Lit("T")]
    else if num.v >= Billion then [Lit("$"), Fixed(num.v / Billion, 2), Lit("B")]
    else if num.v >= Million then [Lit("$"), Fixed(num.v / Million, 2), Lit("M")]
    else [Lit("$")] + FormatPrice(num)
  }

  /** Whatever the digit renderers produce, a formatted amount starts with
      `$`, and a missing or NaN amount reads `$0`. */
  lemma LargeNumberText(num: JsNumber, locale: Renderer, fixed: Renderer)
    ensures var s := Render(FormatLargeNumber(num), locale, fixed);
      |s| > 0 && s[0] == '$'
      && (!num.Finite? ==> s == "$0")
  {
  }

  /** The unit a large amount is shown in: 1 below a million. */
  function UnitOf(v: real): real
  {
    if v >= Trillion then Trillion
    else if v >= Billion then Billion
    else if v >= Million then Million
    else 1.0
  }

  /** The suffix names the unit: scaling the rendered number back by its
      unit gives the amount. */
  lemma LargeNumberScale(v: real)
    ensures var r := FormatLargeNumber(Finite(v));
      |Values(r)| == 1 && Values(r)[0] * UnitOf(v) == v
    ensures var r := FormatLargeNumber(Finite(v));
      r[|r| - 1] == Lit("T") <==> v >= Trillion
    ensures var r := FormatLargeNumber(Finite(v));
      r[|r| - 1] == Lit("B") <==> Billion <= v < Trillion
    ensures var r := FormatLargeNumber(Finite(v));
      r[|r| - 1] == Lit("M") <==> Million <= v < Billion
  {
    var r := FormatLargeNumber(Finite(v));
    assert |r| == 3 && r[1..][1..] == [r[2]];
    assert [r[2]][1..] == [];
    if v < Million {
      assert Values(r) == Values([r[2]]) == [v];
    } else {
      assert Values(r) == [r[1].value] + Values([r[2]]) == [r[1].value];
    }
  }

  /** Below one million, `formatLargeNumber` as written renders two dollar
      signs, whatever the digit renderers produce (for example `$$999.00`). */
  lemma LargeNumberDoubleDollar(v: real, locale: Renderer, fixed: Renderer)
    requires v < Million
    ensures var s := Render(FormatLargeNumber(Finite(v)), locale, fixed);
      |s| >= 2 && s[..2] == "$$"
  {
  }

  /** `formatLargeNumber` with a single dollar sign below one million: the
      amount is rendered by `formatPrice` alone. */
  function FormatLargeNumberCorrected(num: JsNumber): (r: seq<Piece>)
    ensures |r| > 0 && r[0].Lit? && |r[0].text| > 0 && r[0].text[0] == '$'
    ensures num.Finite? && num.v < Million ==> r == FormatPrice(num)
    ensures !(num.Finite? && num.v < Million) ==> r == FormatLargeNumber(num)
  {
    if !num.Finite? then [Lit("$0")]
    else if num.v >= Trillion then [Lit("$"), Fixed(num.v / Trillion, 2), Lit("T")]
    else if num.v >= Billion then [Lit("$"), Fixed(num.v / Billion, 2), Lit("B")]
    else if num.v >= Million then [Lit("$"), Fixed(num.v / Million, 2), Lit("M")]
    else FormatPrice(num)
  }

  /** With digit renderers that never start with `$`, the corrected
      formatter renders exactly one leading dollar sign for every input. */
  lemma LargeNumberCorrectedSingleDollar(num: JsNumber, locale: Renderer, fixed: Renderer)
    requires NeverLeads(locale, '$') && NeverLeads(fixed, '$')
    ensures var s := Render(FormatLargeNumberCorrected(num), locale, fixed);
      |s| > 0 && s[0] == '$' && (|s| < 2 || s[1] != '$')
  {
    var r := FormatLargeNumberCorrected(num);
    if num.Finite? {
      assert r[0] == Lit("$") && |r| >= 2;
      var rest := Render(r[1..], locale, fixed);
      assert r[1..][0] == r[1];
      assert rest == RenderPiece(r[1], locale, fixed) + Render(r[2..], locale, fixed) by {
        assert r[1..][1..] == r[2..];
      }
      var first := RenderPiece(r[1], locale, fixed);
      assert |first| == 0 || first[0] != '$';
    }
  }

  /** `formatPercentage`: a `+` sign for non-negative changes, the change
      with two fixed places, and `%`; `0.00%` when not a number. */
  function FormatPercentage(change: JsNumber): (r: seq<Piece>)
    ensures |r| > 0 && r[|r| - 1].Lit? && |r[|r| - 1].text| > 0
    ensures r[|r| - 1].text[|r[|r| - 1].text| - 1] == '%'
    ensures change.Finite? ==> |r| == 3 && r[1] == Fixed(change.v, 2)
    ensures change.Finite? ==> (r[0] == Lit("+") <==> change.v >= 0.0)
    ensures change.Finite? ==> r[2] == Lit("%") && (change.v < 0.0 ==> r[0] == Lit(""))
  {
    if !change.Finite? then [Lit("0.00%")]
    else [Lit(if change.v >= 0.0 then "+" else ""), Fixed(change.v, 2), Lit("%")]
  }

  /** A formatted percentage always ends in `%`; with a renderer that never
      starts with `+`, it starts with `+` exactly when the change is a
      non-negative number. */
  lemma PercentageText(change: JsNumber, locale: Renderer, fixed: Renderer)
    requires NeverLeads(fixed, '+')
    ensures var s := Render(FormatPercentage(change), locale, fixed);
      |s| > 0 && s[|s| - 1] == '%'
      && (s[0] == '+' <==> change.Finite? && change.v >= 0.0)
      && (!change.Finite? ==> s == "0.00%")
  {
    var r := FormatPercentage(change);
    if change.Finite? {
      var f := fixed(change.v, 2);
      assert r[1..][1..][1..] == [];
      var s := Render(r, locale, fixed);
      assert Render(r[1..][1..], locale, fixed) == "%";
      assert s == r[0].text + f + "%";
      assert |f| == 0 || f[0] != '+';
    }
  }
}
