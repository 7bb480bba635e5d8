/** The `run` entry point: the older discount-function target, whose result
    carries `discountApplicationStrategy: "FIRST"` and which also refuses a
    configuration whose `minQty` or `percentOff` is falsy. */
module RunFunction {
  import opened JsValues
  import opened Decimal
  import opened CartScan
  import opened DiscountConfig

  /** `EMPTY_DISCOUNT`: no discount, strategy FIRST. */
  const EmptyDiscount: Output := Output(Some(First), [])

  /** `run(input)`, with `JSON.parse` supplied as `parse`. */
  function Run(input: RunInput, parse: Parser): (r: Completion<Output>)
    ensures r.Throw? <==> ParsesTo(input, parse, ParsedNull)
    ensures r.Normal? ==> r.value.strategy == Some(First) && |r.value.discounts| <= 1
    ensures r.Normal? && r.value.discounts != [] ==>
              && r.value.discounts[0].targets != []
              && |r.value.discounts[0].targets| <= |input.lines|
  {
    match LoadConfig(input.metafieldValue, parse)
    case Unavailable => Normal(EmptyDiscount)
    case NullConfig => Throw(DestructureNull)
    case Usable(products, minQty, percentOff) =>
      if !Truthy(minQty) || !Truthy(percentOff) then
        Normal(EmptyDiscount)
      else
        var targets := Targets(input.lines, products, minQty);
        if |targets| == 0 then
          Normal(EmptyDiscount)
        else
          Normal(Output(Some(First), [
            Discount(targets, IntToString(percentOff.n),
                     OfferMessage(Interpolate(minQty), Interpolate(percentOff)))]))
  }

  /** No metafield, or an empty one, gives no discount. */
  lemma RunWithoutConfigText(input: RunInput, parse: Parser)
    requires !NonEmptyText(input.metafieldValue)
    ensures Run(input, parse) == Normal(EmptyDiscount)
  {
  }

  /** Text that `JSON.parse` rejects gives no discount; the error is caught. */
  lemma RunUnparsableConfig(input: RunInput, parse: Parser)
    requires ParsesTo(input, parse, SyntaxError)
    ensures Run(input, parse) == Normal(EmptyDiscount)
  {
  }

  /** A configuration whose text is `null` makes the destructuring throw. */
  lemma RunNullConfigThrows(input: RunInput, parse: Parser)
    requires ParsesTo(input, parse, ParsedNull)
    ensures Run(input, parse) == Throw(DestructureNull)
  {
  }

  /** A missing, non-array or empty `products` gives no discount, whatever
      the cart holds. */
  lemma RunWithoutProducts(input: RunInput, parse: Parser, products: Option<seq<string>>, minQty: Field, percentOff: Field)
    requires ParsesTo(input, parse, ParsedConfig(products, minQty, percentOff))
    requires products.None? || products.value == []
    ensures Run(input, parse) == Normal(EmptyDiscount)
  {
  }

  /** A missing, `null` or zero `minQty` or `percentOff` gives no discount,
      whatever the cart holds. */
  lemma RunWithFalsyThreshold(input: RunInput, parse: Parser, products: Option<seq<string>>, minQty: Field, percentOff: Field)
    requires ParsesTo(input, parse, ParsedConfig(products, minQty, percentOff))
    requires !Truthy(minQty) || !Truthy(percentOff)
    ensures Run(input, parse) == Normal(EmptyDiscount)
  {
  }

  /** A usable configuration and a cart in which no line qualifies give no
      discount. */
  lemma RunWithoutQualifyingLine(input: RunInput, parse: Parser, products: seq<string>, minQty: int, percentOff: int)
    requires ParsesTo(input, parse, ParsedConfig(Some(products), Num(minQty), Num(percentOff)))
    requires forall i :: 0 <= i < |input.lines| ==> !Qualifies(input.lines[i], products, Num(minQty))
    ensures Run(input, parse) == Normal(EmptyDiscount)
  {
    TargetsEmpty(input.lines, products, Num(minQty));
  }

  /** A usable configuration and at least one qualifying line give exactly one
      discount, under strategy FIRST: it targets exactly the qualifying lines,
      in cart order, its percentage is the decimal text of `percentOff`, and its
      message is "Buy {minQty}, get {percentOff}% off". */
  lemma RunGivesOneDiscount(input: RunInput, parse: Parser, products: seq<string>, minQty: int, percentOff: int, i: nat)
    requires ParsesTo(input, parse, ParsedConfig(Some(products), Num(minQty), Num(percentOff)))
    requires products != [] && minQty != 0 && percentOff != 0
    requires i < |input.lines| && Qualifies(input.lines[i], products, Num(minQty))
    ensures Run(input, parse).Normal?
    ensures var out := Run(input, parse).value;
            && out.strategy == Some(First)
            && |out.discounts| == 1
            && out.discounts[0].targets == Targets(input.lines, products, Num(minQty))
            && CartLineTarget(input.lines[i].id) in out.discounts[0].targets
            && out.discounts[0].percentage == IntToString(percentOff)
            && ParseInt(out.discounts[0].percentage) == Some(percentOff)
            && out.discounts[0].message == OfferMessage(IntToString(minQty), IntToString(percentOff))
  {
    TargetsMembership(input.lines, products, Num(minQty));
  }
}
