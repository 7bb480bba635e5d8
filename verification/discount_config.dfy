/** What both entry points have in common before and after the scan: the
    function input, the abstract outcome of `JSON.parse`, the configuration
    guards, and the shape of a discount in the result. */
module DiscountConfig {
  import opened JsValues
  import opened Decimal
  import opened CartScan

  /** The input both functions receive: the discount node's metafield value
      (`input?.discountNode?.metafield?.value`, absent when any link of the
      chain is missing) and `input.cart.lines`. */
  datatype RunInput = RunInput(metafieldValue: Option<string>, lines: seq<CartLine>)

  /** What `JSON.parse(metafieldValue)` and the destructuring
      `const { products, minQty, percentOff } = config` give:
      - `SyntaxError`: the parser threw, which the code catches;
      - `ParsedNull`: the text was `null`, which parses but cannot be destructured;
      - `ParsedConfig`: any other value. `products` is `Some` exactly when the
        field holds an array (of product ids); a missing field, `null` or any
        non-array value is `None`. A non-object value (a number, string,
        boolean or array) destructures to `ParsedConfig(None, Undefined, Undefined)`. */
  datatype ParseOutcome =
    | SyntaxError
    | ParsedNull
    | ParsedConfig(products: Option<seq<string>>, minQty: Field, percentOff: Field)

  /** `JSON.parse` is a library call; the model takes it as a parameter. */
  type Parser = string -> ParseOutcome

  /** The metafield holds text (`!!metafieldValue`) that parses to `outcome`. */
  predicate ParsesTo(input: RunInput, parse: Parser, outcome: ParseOutcome)
  {
    NonEmptyText(input.metafieldValue) && parse(input.metafieldValue.value) == outcome
  }

  /** Where the shared prefix of both functions ends. */
  datatype Loaded =
    | Unavailable                                                  // returned EMPTY_DISCOUNT
    | NullConfig                                                   // destructuring threw
    | Usable(products: seq<string>, minQty: Field, percentOff: Field)

  /** The metafield text, the parse, the destructuring and the `products`
      guard: everything before the scan that the two functions do alike. */
  function LoadConfig(metafieldValue: Option<string>, parse: Parser): (r: Loaded)
    ensures r.Usable? ==> |r.products| > 0
    ensures r.Usable? <==>
              && NonEmptyText(metafieldValue)
              && parse(metafieldValue.value).ParsedConfig?
              && parse(metafieldValue.value).products.Some?
              && parse(metafieldValue.value).products.value != []
    ensures r.NullConfig? <==> NonEmptyText(metafieldValue) && parse(metafieldValue.value).ParsedNull?
    ensures r.Usable? ==> parse(metafieldValue.value)
                          == ParsedConfig(Some(r.products), r.minQty, r.percentOff)
  {
    if !NonEmptyText(metafieldValue) then
      Unavailable
    else
      match parse(metafieldValue.value)
      case SyntaxError => Unavailable
      case ParsedNull => NullConfig
      case ParsedConfig(products, minQty, percentOff) =>
        if products.None? || |products.value| == 0 then Unavailable
        else Usable(products.value, minQty, percentOff)
  }

  /** The body of a discount: its targets, `value.percentage.value` and
      `message`. */
  datatype Discount = Discount(targets: seq<Target>, percentage: string, message: string)

  /** `discountApplicationStrategy: "FIRST"`, the only strategy used. */
  datatype Strategy = First

  /** A function result: the strategy field (present in one variant only) and
      the list of discounts. */
  datatype Output = Output(strategy: Option<Strategy>, discounts: seq<Discount>)

  /** `Buy ${minQty}, get ${percentOff}% off`. */
  function OfferMessage(minQty: string, percentOff: string): string
  {
    "Buy " + minQty + ", get " + percentOff + "% off"
  }

  /** The position of the first `c` in `s`, or `|s|` when there is none. */
  function IndexOf(s: string, c: char): (k: nat)
    ensures k <= |s|
  {
    if s == [] || s[0] == c then 0 else 1 + IndexOf(s[1..], c)
  }

  /** In `a + [c] + x` with no `c` in `a`, the first `c` is the one after `a`. */
  lemma {:induction false} IndexOfMarker(a: string, x: string, c: char)
    requires c !in a
    ensures IndexOf(a + [c] + x, c) == |a|
    decreases |a|
  {
    if a != [] {
      assert (a + [c] + x)[1..] == a[1..] + [c] + x;
      IndexOfMarker(a[1..], x, c);
    }
  }

  /** Two strings free of `c` followed by `c` agree up to that `c`. */
  lemma SplitAtMarker(a: string, x: string, b: string, y: string, c: char)
    requires c !in a && c !in b
    requires a + [c] + x == b + [c] + y
    ensures a == b && x == y
  {
    var m := a + [c] + x;
    IndexOfMarker(a, x, c);
    IndexOfMarker(b, y, c);
    assert a == m[..|a|] == b;
    assert x == m[|a| + 1..] == y;
  }

  lemma NoCommaInNumber(i: int)
    ensures ',' !in IntToString(i)
  {
  }

  /** The message splits at its first comma into "Buy " and the minimum on
      the left and the rest of the text on the right. */
  lemma OfferMessageShape(minQty: string, percentOff: string)
    ensures OfferMessage(minQty, percentOff)[..4] == "Buy "
    ensures OfferMessage(minQty, percentOff)[4..] == minQty + [','] + (" get " + percentOff + "% off")
  {
  }

  /** The message of a discount determines both numbers it was built from. */
  lemma OfferMessageInjective(minQty1: int, percentOff1: int, minQty2: int, percentOff2: int)
    requires OfferMessage(IntToString(minQty1), IntToString(percentOff1))
          == OfferMessage(IntToString(minQty2), IntToString(percentOff2))
    ensures minQty1 == minQty2 && percentOff1 == percentOff2
  {
    var a, p := IntToString(minQty1), IntToString(percentOff1);
    var b, q := IntToString(minQty2), IntToString(percentOff2);
    OfferMessageShape(a, p);
    OfferMessageShape(b, q);
    NoCommaInNumber(minQty1);
    NoCommaInNumber(minQty2);
    var x, y := " get " + p + "% off", " get " + q + "% off";
    SplitAtMarker(a, x, b, y, ',');
    IntToStringInjective(minQty1, minQty2);
    assert p == x[5..|x| - 5];
    assert q == y[5..|y| - 5];
    IntToStringInjective(percentOff1, percentOff2);
  }
}
