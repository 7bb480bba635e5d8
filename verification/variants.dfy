/** How the two entry points relate: where they agree, where they part, and
    the fail-safe form of each that never lets an exception reach the caller. */
module Variants {
  import opened JsValues
  import opened Decimal
  import opened CartScan
  import opened DiscountConfig
  import RunFunction
  import GenerateRunFunction

  /** Whenever the configuration parses to a value whose `minQty` and
      `percentOff` are truthy (or does not parse to a value at all), the two
      entry points throw alike or return the same discounts; only the strategy
      field tells them apart. */
  lemma VariantsAgree(input: RunInput, parse: Parser)
    requires NonEmptyText(input.metafieldValue) && parse(input.metafieldValue.value).ParsedConfig? ==>
               Truthy(parse(input.metafieldValue.value).minQty) && Truthy(parse(input.metafieldValue.value).percentOff)
    ensures RunFunction.Run(input, parse).Throw? <==> GenerateRunFunction.CartLinesDiscountsGenerateRun(input, parse).Throw?
    ensures RunFunction.Run(input, parse).Normal? ==>
              && RunFunction.Run(input, parse).value.strategy == Some(First)
              && GenerateRunFunction.CartLinesDiscountsGenerateRun(input, parse).value.strategy == None
              && RunFunction.Run(input, parse).value.discounts
                 == GenerateRunFunction.CartLinesDiscountsGenerateRun(input, parse).value.discounts
  {
  }

  /** A zero `percentOff` is refused by `run` but not by
      `cartLinesDiscountsGenerateRun`, which emits a "0% off" discount on the
      qualifying lines. */
  lemma VariantsDivergeOnZeroPercent(input: RunInput, parse: Parser, products: seq<string>, minQty: int, i: nat)
    requires ParsesTo(input, parse, ParsedConfig(Some(products), Num(minQty), Num(0)))
    requires i < |input.lines| && Qualifies(input.lines[i], products, Num(minQty))
    ensures RunFunction.Run(input, parse) == Normal(RunFunction.EmptyDiscount)
    ensures var r := GenerateRunFunction.CartLinesDiscountsGenerateRun(input, parse);
            && r.Normal?
            && |r.value.discounts| == 1
            && r.value.discounts[0].percentage == "0"
            && r.value.discounts[0].message == OfferMessage(IntToString(minQty), "0")
  {
    TargetsMembership(input.lines, products, Num(minQty));
  }
}
