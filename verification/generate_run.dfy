/** The `cartLinesDiscountsGenerateRun` entry point: the newer discount-function
    target. Its result has no strategy field, and it has no guard on `minQty`
    or `percentOff`: both go straight into the scan and the result. */
module GenerateRunFunction {
  import opened JsValues
  import opened Decimal
  import opened CartScan
  import opened DiscountConfig

  /** `EMPTY_DISCOUNT`: no discount and no strategy field. */
  const EmptyDiscount: Output := Output(None, [])

  /** `cartLinesDiscountsGenerateRun(input)`, with `JSON.parse` supplied as
      `parse`. The discount's `value` is built before its `message`, so a
      nullish `percentOff` throws there. */
  function CartLinesDiscountsGenerateRun(input: RunInput, parse: Parser): (r: Completion<Output>)
    ensures r.Normal? ==> r.value.strategy == None && |r.value.discounts| <= 1
    ensures r.Normal? && r.value.discounts != [] ==>
              && r.value.discounts[0].targets != []
              && |r.value.discounts[0].targets| <= |input.lines|
    ensures r == Throw(DestructureNull) <==> ParsesTo(input, parse, ParsedNull)
    ensures r.Throw? && !ParsesTo(input, parse, ParsedNull) ==>
              && NonEmptyText(input.metafieldValue)
              && parse(input.metafieldValue.value).ParsedConfig?
              && !parse(input.metafieldValue.value).percentOff.Num?
  {
    match LoadConfig(input.metafieldValue, parse)
    case Unavailable => Normal(EmptyDiscount)
    case NullConfig => Throw(DestructureNull)
    case Usable(products, minQty, percentOff) =>
      var targets := Targets(input.lines, products, minQty);
      if |targets| == 0 then
        Normal(EmptyDiscount)
      else
        match CallToString(percentOff)
        case Throw(error) => Throw(error)
        case Normal(percentage) =>
          Normal(Output(None, [
            Discount(targets, percentage, OfferMessage(Interpolate(minQty), Interpolate(percentOff)))]))
  }

  /** No metafield, or an empty one, gives no discount. */
  lemma GenerateWithoutConfigText(input: RunInput, parse: Parser)
    requires !NonEmptyText(input.metafieldValue)
    ensures CartLinesDiscountsGenerateRun(input, parse) == Normal(EmptyDiscount)
  {
  }

  /** Text that `JSON.parse` rejects gives no discount; the error is caught. */
  lemma GenerateUnparsableConfig(input: RunInput, parse: Parser)
    requires ParsesTo(input, parse, SyntaxError)
    ensures CartLinesDiscountsGenerateRun(input, parse) == Normal(EmptyDiscount)
  {
  }

  /** A configuration whose text is `null` makes the destructuring throw. */
  lemma GenerateNullConfigThrows(input: RunInput, parse: Parser)
    requires ParsesTo(input, parse, ParsedNull)
    ensures CartLinesDiscountsGenerateRun(input, parse) == Throw(DestructureNull)
  {
  }

  /** A missing, non-array or empty `products` gives no discount, whatever
      the cart holds. */
  lemma GenerateWithoutProducts(input: RunInput, parse: Parser, products: Option<seq<string>>, minQty: Field, percentOff: Field)
    requires ParsesTo(input, parse, ParsedConfig(products, minQty, percentOff))
    requires products.None? || products.value == []
    ensures CartLinesDiscountsGenerateRun(input, parse) == Normal(EmptyDiscount)
  {
  }

  /** A usable `products` and a cart in which no line qualifies give no
      discount, whatever `percentOff` is. */
  lemma GenerateWithoutQualifyingLine(input: RunInput, parse: Parser, products: seq<string>, minQty: Field, percentOff: Field)
    requires ParsesTo(input, parse, ParsedConfig(Some(products), minQty, percentOff))
    requires forall i :: 0 <= i < |input.lines| ==> !Qualifies(input.lines[i], products, minQty)
    ensures CartLinesDiscountsGenerateRun(input, parse) == Normal(EmptyDiscount)
  {
    TargetsEmpty(input.lines, products, minQty);
  }

  /** A missing `minQty` matches no line (`quantity >= undefined` is false), so
      it gives no discount. */
  lemma GenerateWithoutMinQty(input: RunInput, parse: Parser, products: seq<string>, percentOff: Field)
    requires ParsesTo(input, parse, ParsedConfig(Some(products), Undefined, percentOff))
    ensures CartLinesDiscountsGenerateRun(input, parse) == Normal(EmptyDiscount)
  {
    TargetsEmpty(input.lines, products, Undefined);
  }

  /** A `null` `minQty` compares as 0, so every line of a configured product
      qualifies whatever its quantity, and the message reads "Buy null, ...". */
  lemma GenerateWithNullMinQty(input: RunInput, parse: Parser, products: seq<string>, percentOff: int, i: nat)
    requires ParsesTo(input, parse, ParsedConfig(Some(products), Null, Num(percentOff)))
    requires i < |input.lines| && HasProductId(input.lines[i])
    requires input.lines[i].productId.value in products
    ensures CartLinesDiscountsGenerateRun(input, parse).Normal?
    ensures var out := CartLinesDiscountsGenerateRun(input, parse).value;
            && |out.discounts| == 1
            && CartLineTarget(input.lines[i].id) in out.discounts[0].targets
            && out.discounts[0].message == OfferMessage("null", IntToString(percentOff))
  {
    TargetsMembership(input.lines, products, Null);
  }

  /** With qualifying lines, a missing or `null` `percentOff` makes
      `percentOff.toString()` throw instead of returning a result. */
  lemma GenerateNullishPercentThrows(input: RunInput, parse: Parser, products: seq<string>, minQty: Field, percentOff: Field, i: nat)
    requires ParsesTo(input, parse, ParsedConfig(Some(products), minQty, percentOff))
    requires percentOff.Undefined? || percentOff.Null?
    requires i < |input.lines| && Qualifies(input.lines[i], products, minQty)
    ensures CartLinesDiscountsGenerateRun(input, parse) == Throw(ToStringOfNullish)
  {
    TargetsMembership(input.lines, products, minQty);
  }

  /** A usable `products`, an integer `percentOff` and at least one qualifying
      line give exactly one discount and no strategy field: it targets exactly
      the qualifying lines, in cart order, its percentage is the decimal text
      of `percentOff`, and its message is "Buy {minQty}, get {percentOff}% off". */
  lemma GenerateGivesOneDiscount(input: RunInput, parse: Parser, products: seq<string>, minQty: Field, percentOff: int, i: nat)
    requires ParsesTo(input, parse, ParsedConfig(Some(products), minQty, Num(percentOff)))
    requires i < |input.lines| && Qualifies(input.lines[i], products, minQty)
    ensures CartLinesDiscountsGenerateRun(input, parse).Normal?
    ensures var out := CartLinesDiscountsGenerateRun(input, parse).value;
            && out.strategy == None
            && |out.discounts| == 1
            && out.discounts[0].targets == Targets(input.lines, products, minQty)
            && CartLineTarget(input.lines[i].id) in out.discounts[0].targets
            && out.discounts[0].percentage == IntToString(percentOff)
            && ParseInt(out.discounts[0].percentage) == Some(percentOff)
            && out.discounts[0].message == OfferMessage(Interpolate(minQty), IntToString(percentOff))
  {
    TargetsMembership(input.lines, products, minQty);
  }
}
