/** `src/utils/formatters.py`: the Persian display of prices, changes and
    dates, with their fallbacks. Python's number formatting (`:,.0f`,
    `:.2f`) and `strftime` are parameters. */
module Formatters {
  import opened Wrappers
  import Text

  /** The argument a formatter receives. */
  datatype Value = PyNone | Num(x: real) | Str(s: string)

  predicate Truthy(v: Value)
  {
    match v
    case PyNone => false
    case Num(x) => x != 0.0
    case Str(s) => s != ""
  }

  const Unknown: string := "نامشخص"
  const Toman: string := " تومان"
  const ArabicThousands: char := '\U{66C}'
  /** "۰٫۰٪" */
  const ZeroChange: string := "\U{6F0}\U{66B}\U{6F0}\U{66A}"
  const Up: string := "\U{1F4C8}"
  const Down: string := "\U{1F4C9}"
  const Flat: string := "\U{27A1}\U{FE0F}"
  const Percent: string := "\U{66A}"

  /** `format_price`: a falsy value, or one `:,.0f` rejects (a string), is
      "unknown"; a number is rendered with Arabic thousands separators in
      place of commas, followed by " تومان". */
  function FormatPrice(v: Value, grouped: real -> string): (r: string)
    ensures !(Truthy(v) && v.Num?) ==> r == Unknown
    ensures Truthy(v) && v.Num? ==>
      |r| == |grouped(v.x)| + |Toman| && r[|grouped(v.x)|..] == Toman
      && (forall i :: 0 <= i < |grouped(v.x)| ==>
            r[i] == (if grouped(v.x)[i] == ',' then ArabicThousands else grouped(v.x)[i]))
  {
    if !Truthy(v) then Unknown
    else match v
      case Num(x) => Text.ReplaceChar(grouped(x), ',', ArabicThousands) + Toman
      case _ => Unknown
  }

  /** A formatted price never holds a comma. */
  lemma PriceHasNoComma(v: Value, grouped: real -> string)
    ensures ',' !in FormatPrice(v, grouped)
  {
    var r := FormatPrice(v, grouped);
    if Truthy(v) && v.Num? {
      forall i | 0 <= i < |r| ensures r[i] != ',' {
        if i >= |grouped(v.x)| { assert r[i] == Toman[i - |grouped(v.x)|]; }
      }
    }
  }

  /** The trend symbol: up for a rise, down for a fall, flat for zero. */
  function Symbol(x: real): (sym: string)
    ensures sym == Up <==> x > 0.0
    ensures sym == Down <==> x < 0.0
    ensures sym == Flat <==> x == 0.0
  {
    if x > 0.0 then Up else if x < 0.0 then Down else Flat
  }

  function Abs(x: real): real
  {
    if x < 0.0 then -x else x
  }

  /** `float(change)` for the values a formatter can see. */
  function ToFloat(v: Value, parseFloat: string -> Option<real>): Option<real>
  {
    match v
    case PyNone => None
    case Num(x) => Some(x)
    case Str(s) => parseFloat(s)
  }

  /** `format_change`: a falsy value is "۰٫۰٪"; one `float` rejects is the
      flat symbol and "۰٫۰٪"; otherwise the trend symbol, a space, the
      magnitude to two places and the Persian percent sign. */
  function FormatChange(v: Value, parseFloat: string -> Option<real>, twoPlaces: real -> string): (r: string)
    ensures !Truthy(v) ==> r == ZeroChange
    ensures Truthy(v) && ToFloat(v, parseFloat).None? ==> r == Flat + " " + ZeroChange
    ensures Truthy(v) && ToFloat(v, parseFloat).Some? ==>
      var x := ToFloat(v, parseFloat).value;
      |r| > |Symbol(x)| && r[..|Symbol(x)|] == Symbol(x)
      && r[|Symbol(x)|..] == " " + twoPlaces(Abs(x)) + Percent
  {
    if !Truthy(v) then ZeroChange
    else match ToFloat(v, parseFloat)
      case None => Flat + " " + ZeroChange
      case Some(x) =>
        var r := Symbol(x) + " " + twoPlaces(Abs(x)) + Percent;
        assert r == Symbol(x) + (" " + twoPlaces(Abs(x)) + Percent);
        r
  }

  /** A change and its negation print the same magnitude under opposite
      symbols. */
  lemma ChangeMirror(x: real, parseFloat: string -> Option<real>, twoPlaces: real -> string)
    requires x != 0.0
    ensures var a := FormatChange(Num(x), parseFloat, twoPlaces);
            var b := FormatChange(Num(-x), parseFloat, twoPlaces);
      a[|Symbol(x)|..] == b[|Symbol(-x)|..] && a[..|Symbol(x)|] != b[..|Symbol(-x)|]
  {
    assert Abs(x) == Abs(-x);
  }

  /** The argument of `format_date`: missing, a datetime, or an object
      without `strftime`. */
  datatype DateArg = NoDate | Date(t: int) | NotADate

  /** `format_date`: "unknown" for a missing value or one `strftime` does not
      apply to; otherwise the `%Y/%m/%d %H:%M` rendering. */
  function FormatDate(d: DateArg, render: int -> string): (r: string)
    ensures d.Date? ==> r == render(d.t)
    ensures !d.Date? ==> r == Unknown
  {
    match d
    case Date(t) => render(t)
    case _ => Unknown
  }
}
