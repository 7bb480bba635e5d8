/** Both entry points answer every irregular configuration they test for with
    `EMPTY_DISCOUNT`, yet each can let a `TypeError` escape to the caller on
    an input it does not test for. These are the corrected forms: the same
    evaluation, with a thrown error turned into the entry point's empty
    result. */
module FailSafe {
  import opened JsValues
  import opened DiscountConfig
  import RunFunction
  import GenerateRunFunction

  /** `run` with any `TypeError` answered by `EMPTY_DISCOUNT`. */
  function RunFailSafe(input: RunInput, parse: Parser): (out: Output)
    ensures out.strategy == Some(First) && |out.discounts| <= 1
    ensures RunFunction.Run(input, parse).Normal? ==> out == RunFunction.Run(input, parse).value
    ensures ParsesTo(input, parse, ParsedNull) ==> out == RunFunction.EmptyDiscount
  {
    match RunFunction.Run(input, parse)
    case Normal(result) => result
    case Throw(_) => RunFunction.EmptyDiscount
  }

  /** `cartLinesDiscountsGenerateRun` with any `TypeError` answered by
      `EMPTY_DISCOUNT`. */
  function GenerateRunFailSafe(input: RunInput, parse: Parser): (out: Output)
    ensures out.strategy == None && |out.discounts| <= 1
    ensures GenerateRunFunction.CartLinesDiscountsGenerateRun(input, parse).Normal? ==>
              out == GenerateRunFunction.CartLinesDiscountsGenerateRun(input, parse).value
    ensures ParsesTo(input, parse, ParsedNull) ==> out == GenerateRunFunction.EmptyDiscount
  {
    match GenerateRunFunction.CartLinesDiscountsGenerateRun(input, parse)
    case Normal(result) => result
    case Throw(_) => GenerateRunFunction.EmptyDiscount
  }

  /** The configuration that made the generate variant throw, a usable
      `products` with a missing or `null` `percentOff`, now gives no discount,
      whatever the cart holds. */
  lemma GenerateFailSafeWithoutPercent(input: RunInput, parse: Parser, products: seq<string>, minQty: Field, percentOff: Field)
    requires ParsesTo(input, parse, ParsedConfig(Some(products), minQty, percentOff))
    requires percentOff.Undefined? || percentOff.Null?
    ensures GenerateRunFailSafe(input, parse) == GenerateRunFunction.EmptyDiscount
  {
  }

  /** With the corrected forms, the two variants return the same discounts for
      every configuration with truthy `minQty` and `percentOff`, including a
      `null` configuration. */
  lemma FailSafeVariantsAgree(input: RunInput, parse: Parser)
    requires NonEmptyText(input.metafieldValue) && parse(input.metafieldValue.value).ParsedConfig? ==>
               Truthy(parse(input.metafieldValue.value).minQty) && Truthy(parse(input.metafieldValue.value).percentOff)
    ensures RunFailSafe(input, parse).discounts == GenerateRunFailSafe(input, parse).discounts
  {
  }
}
