# Volume-discount function, modelled in Dafny

The volume-discount extension gives "buy N, get X% off" pricing. A merchant picks
some products and a percentage. The picks are stored as JSON in a metafield on
the discount node. At checkout the discount function reads that metafield and
scans the cart lines. A line qualifies when it is a configured product bought
at least `minQty` times. The function returns either no discount or one discount
on all qualifying lines.

The repository has two near-identical entry points, and both are modelled:

- `run` (`extensions/volume-discount/src/run.js`). Its result carries
  `discountApplicationStrategy: "FIRST"`. It also refuses a falsy `minQty` or
  `percentOff`.
- `cartLinesDiscountsGenerateRun`
  (`extensions/volume-discount/src/cart_lines_discounts_generate_run.js`). Its
  result has no strategy field. It has no guard on `minQty` or `percentOff`.

Modules, one concept each:

- `JsValues` (`js_values.dfy`) holds the JavaScript semantics the code relies
  on. It covers the truthiness of the metafield text and of the numeric
  fields. It covers `quantity >= minQty` when `minQty` is `undefined` (always
  false) or `null` (compares as 0). It also defines `Completion`, which is
  either a value or a thrown `TypeError`.
- `Decimal` (`decimal.dfy`) holds `toString()` and template interpolation of
  integers. They are proved against `ParseInt`, their inverse.
- `CartScan` (`cart_scan.dfy`) holds the shared qualification rule
  (`Qualifies`) and the scan (`Targets`, an order-preserving filter). `ScanLines`
  is the loop as written, and it is proved equal to `Targets`.
- `DiscountConfig` (`discount_config.dfy`) holds the input, the abstract
  outcome of `JSON.parse`, and the guards both entry points share
  (`LoadConfig`). It also holds the result shape and the discount message.
- `RunFunction` (`run.dfy`) and `GenerateRunFunction` (`generate_run.dfy`)
  hold the two entry points and their `EMPTY_DISCOUNT` constants.
- `Variants` (`variants.dfy`) says where the two entry points agree and where
  they part.
- `FailSafe` (`failsafe.dfy`) holds the corrected entry points (see Findings).
- `Scenarios` (`scenarios.dfy`) holds worked examples.

`JSON.parse` is a library call, so each entry point takes it as a parameter,
`parse: string -> ParseOutcome`. It can answer a syntax error (which the code
catches), `null`, or a value with its three fields destructured. Every
evaluation is a Dafny function, so it is deterministic: the same input and
parser always give the same result.

Details of the code that the model keeps:

- `minQty` is only tested for truthiness (`run.js:40`). So a negative
  `minQty` passes the guard, and every line of a configured product
  qualifies.
- Every irregular input the code tests for returns `EMPTY_DISCOUNT`
  (`run.js:21-42`, `cart_lines_discounts_generate_run.js:10-27`). Two inputs
  it does not test for throw instead (see Findings).
- `products` is an array tested with `includes`. Only membership matters, so
  order and repeats in it do not change the result.
- An empty product id on a line counts as "no product id", because `""` is
  falsy (`run.js:48`).

## Model

| member | source | states |
|---|---|---|
| JsValues.NonEmptyText | extensions/volume-discount/src/run.js:19-21 | The metafield test `!metafieldValue` passes exactly for present, non-empty text. |
| JsValues.Truthy | extensions/volume-discount/src/run.js:40 | A numeric field is truthy exactly when it holds a non-zero integer. `undefined`, `null` and 0 are falsy. |
| JsValues.AtLeast | extensions/volume-discount/src/run.js:51 | `quantity >= minQty` is false for `undefined` (NaN), compares against 0 for `null`, and is the integer comparison otherwise. |
| CartScan.HasProductId | extensions/volume-discount/src/run.js:47-48 | A line is scanned only when `line.merchandise?.product?.id` is present and non-empty. |
| CartScan.Qualifies | extensions/volume-discount/src/run.js:47-53 | A line qualifies when it has a product id, the id is in `products`, and its quantity is at least `minQty`. |
| DiscountConfig.OfferMessage | extensions/volume-discount/src/run.js:72 | The message is "Buy ", the minimum, ", get ", the percentage, then "% off". |
| RunFunction.EmptyDiscount | extensions/volume-discount/src/run.js:9-12 | `EMPTY_DISCOUNT` of `run`: strategy FIRST and an empty discount list. |
| GenerateRunFunction.EmptyDiscount | extensions/volume-discount/src/cart_lines_discounts_generate_run.js:3-5 | `EMPTY_DISCOUNT` of the generate entry point: an empty discount list and no strategy field. |
| CartScan.Targets | extensions/volume-discount/src/run.js:44-58 | The scan adds at most one target per cart line. |
| CartScan.TargetsMembership | extensions/volume-discount/src/run.js:46-58 | Every qualifying line's id is a target. Every target is the id of a line that has a product id, whose id is among `products`, and whose quantity is at least `minQty`. |
| CartScan.TargetsEmpty | extensions/volume-discount/src/run.js:44-62 | The scan finds no target exactly when no cart line qualifies. |
| CartScan.TargetsSubsequenceOfLines | extensions/volume-discount/src/cart_lines_discounts_generate_run.js:29-44 | The targets are the cart's line ids with some deleted. Cart order is kept, and no line contributes twice. |
| CartScan.TargetsAppend | extensions/volume-discount/src/run.js:46-58 | Scanning two carts joined end to end gives the first cart's targets followed by the second's. So the filter keeps relative order. |
| CartScan.TargetsInsert | extensions/volume-discount/src/cart_lines_discounts_generate_run.js:31-44 | Inserting a line anywhere adds its target at the same place if it qualifies. No existing target is removed. |
| CartScan.QualifiesAtThreshold | extensions/volume-discount/src/run.js:50-53 | The threshold is inclusive. A configured product with quantity exactly `minQty` qualifies, and one with `minQty - 1` does not. |
| CartScan.TargetsDistinct | extensions/volume-discount/src/cart_lines_discounts_generate_run.js:31-44 | When line ids are unique in the cart, no target appears twice. |
| CartScan.ScanLines | extensions/volume-discount/src/run.js:44-58 | The `for … of` loop that pushes `{cartLine: {id}}` computes exactly the filter `Targets`. |
| Decimal.NatToString | extensions/volume-discount/src/run.js:70 | The decimal text of a natural number is canonical digits whose value is that number. |
| Decimal.IntToString | extensions/volume-discount/src/run.js:70 | `percentOff.toString()` for an integer is non-empty. It starts with a minus sign exactly for negatives, followed by canonical digits with no leading zero. It reads back as the same integer. |
| Decimal.IntToStringInjective | extensions/volume-discount/src/run.js:70 | Different integers give different percentage strings. |
| Decimal.Interpolate | extensions/volume-discount/src/run.js:72 | `${f}` is the integer's decimal text for an integer field, and "undefined" or "null" otherwise. |
| Decimal.CallToString | extensions/volume-discount/src/cart_lines_discounts_generate_run.js:55 | `f.toString()` throws exactly when the field is `undefined` or `null`. Otherwise it is the integer's decimal text, the same text `${f}` gives. |
| DiscountConfig.LoadConfig | extensions/volume-discount/src/run.js:19-38 | The steps before the scan that both entry points share. The result is a usable configuration exactly when the text is non-empty and parses to a value with a non-empty `products` array. It is `null` exactly when the text parses to `null`. A usable configuration never has an empty product list. |
| DiscountConfig.OfferMessageInjective | extensions/volume-discount/src/run.js:72 | The message "Buy {minQty}, get {percentOff}% off" determines both numbers. |
| RunFunction.Run | extensions/volume-discount/src/run.js:18-76 | `run` throws exactly when the configuration text is `null`. Otherwise it returns strategy FIRST and at most one discount, and any such discount has a non-empty list of targets. |
| RunFunction.RunWithoutConfigText | extensions/volume-discount/src/run.js:19-24 | An absent or empty metafield gives `EMPTY_DISCOUNT`. |
| RunFunction.RunUnparsableConfig | extensions/volume-discount/src/run.js:26-32 | Text that fails to parse gives `EMPTY_DISCOUNT`. No exception reaches the caller. |
| RunFunction.RunNullConfigThrows | extensions/volume-discount/src/run.js:34 | Text that parses to `null` throws a `TypeError` at the destructuring. |
| RunFunction.RunWithoutProducts | extensions/volume-discount/src/run.js:36-38 | A missing, non-array or empty `products` gives `EMPTY_DISCOUNT`, whatever the cart. |
| RunFunction.RunWithFalsyThreshold | extensions/volume-discount/src/run.js:40-42 | A missing, `null` or zero `minQty` or `percentOff` gives `EMPTY_DISCOUNT`, whatever the cart. |
| RunFunction.RunWithoutQualifyingLine | extensions/volume-discount/src/run.js:60-62 | A usable configuration with no qualifying line gives `EMPTY_DISCOUNT`. |
| RunFunction.RunGivesOneDiscount | extensions/volume-discount/src/run.js:64-75 | A usable configuration with a qualifying line gives strategy FIRST and exactly one discount. It targets the qualifying lines, including that one. Its percentage is the decimal text of `percentOff` and reads back as it. Its message is "Buy {minQty}, get {percentOff}% off". |
| GenerateRunFunction.CartLinesDiscountsGenerateRun | extensions/volume-discount/src/cart_lines_discounts_generate_run.js:7-61 | A normal result has no strategy field and at most one discount, and any such discount has targets. It throws `DestructureNull` exactly for `null` text. Any other throw needs a parsed configuration whose `percentOff` is not a number. |
| GenerateRunFunction.GenerateWithoutConfigText | extensions/volume-discount/src/cart_lines_discounts_generate_run.js:8-13 | An absent or empty metafield gives `{discounts: []}` with no strategy field. |
| GenerateRunFunction.GenerateUnparsableConfig | extensions/volume-discount/src/cart_lines_discounts_generate_run.js:15-21 | Text that fails to parse gives `{discounts: []}`. |
| GenerateRunFunction.GenerateNullConfigThrows | extensions/volume-discount/src/cart_lines_discounts_generate_run.js:23 | Text that parses to `null` throws a `TypeError` at the destructuring. |
| GenerateRunFunction.GenerateWithoutProducts | extensions/volume-discount/src/cart_lines_discounts_generate_run.js:25-27 | A missing, non-array or empty `products` gives `{discounts: []}`, whatever the cart. |
| GenerateRunFunction.GenerateWithoutQualifyingLine | extensions/volume-discount/src/cart_lines_discounts_generate_run.js:46-48 | With no qualifying line, the result is `{discounts: []}`, whatever `percentOff` is. |
| GenerateRunFunction.GenerateWithoutMinQty | extensions/volume-discount/src/cart_lines_discounts_generate_run.js:37 | A missing `minQty` matches no line, so the result is `{discounts: []}`. |
| GenerateRunFunction.GenerateWithNullMinQty | extensions/volume-discount/src/cart_lines_discounts_generate_run.js:36-57 | A `null` `minQty` compares as 0. So every line of a configured product is targeted whatever its quantity, and the message reads "Buy null, get …% off". |
| GenerateRunFunction.GenerateNullishPercentThrows | extensions/volume-discount/src/cart_lines_discounts_generate_run.js:55 | If some line qualifies and `percentOff` is missing or `null`, the call throws a `TypeError` instead of returning. |
| GenerateRunFunction.GenerateGivesOneDiscount | extensions/volume-discount/src/cart_lines_discounts_generate_run.js:50-60 | An integer `percentOff` with a qualifying line gives exactly one discount and no strategy field. It targets the qualifying lines. Its percentage is the decimal text of `percentOff`, and its message is built from `minQty` and `percentOff`. |
| Variants.VariantsAgree | extensions/volume-discount/src/cart_lines_discounts_generate_run.js:25-60 | When `minQty` and `percentOff` are truthy, both entry points throw alike or return the same discount list. They differ only in the strategy field. |
| Variants.VariantsDivergeOnZeroPercent | extensions/volume-discount/src/run.js:40-42 | For a zero `percentOff` with qualifying lines, `run` gives no discount. `cartLinesDiscountsGenerateRun` gives a "0" percentage with a "…0% off" message. |
| FailSafe.RunFailSafe | extensions/volume-discount/src/run.js:34 | Corrected `run`. It always returns strategy FIRST and at most one discount. It agrees with `run` wherever `run` returns, and `null` text gives `EMPTY_DISCOUNT`. |
| FailSafe.GenerateRunFailSafe | extensions/volume-discount/src/cart_lines_discounts_generate_run.js:23 | Corrected generate entry point. It always returns and has no strategy field. It agrees with the original wherever the original returns, and `null` text gives `{discounts: []}`. |
| FailSafe.GenerateFailSafeWithoutPercent | extensions/volume-discount/src/cart_lines_discounts_generate_run.js:50-56 | In the corrected generate entry point, a missing or `null` `percentOff` gives `{discounts: []}`, whatever the cart. |
| FailSafe.FailSafeVariantsAgree | extensions/volume-discount/src/run.js:26-75 | For truthy `minQty` and `percentOff`, the corrected entry points return the same discounts on every input, including `null` text. |
| Scenarios.ThresholdLineTargeted | extensions/volume-discount/src/run.js:44-75 | Config P1, 2, 10 with lines (L1, P1, 2) and (L2, P2, 5) gives one discount with targets [L1], percentage "10" and message "Buy 2, get 10% off". |
| Scenarios.BelowThresholdNoDiscount | extensions/volume-discount/src/run.js:51-62 | The same config with one line (L1, P1, 1) gives `EMPTY_DISCOUNT`. |
| Scenarios.TargetsKeepCartOrder | extensions/volume-discount/src/cart_lines_discounts_generate_run.js:29-44 | Two qualifying lines, L1 then L2, are targeted as [L1, L2]. |

## Left out

- `JSON.parse` is a library call. It becomes the `parse` parameter, whose answer is a syntax error, `null`, or the destructured fields. The parser itself is not modelled.
- The `console.error` logging has no effect on the result.
- JSON values outside the integer abstraction are not modelled. These are fractional numbers, strings or booleans in `minQty` or `percentOff`, and non-string entries in `products`.
- A missing `input.cart` would throw on `input.cart.lines`. The cart is always part of the function input, so every input has lines.
- Decimal.IntToString: integers of magnitude 10^21 or more come out as plain digits. JavaScript prints them in exponent notation. JavaScript's `-0` is not distinguished from 0.
- The configuration editing screen (`app/routes/app._index.tsx`) is not modelled. That covers the loader, the save action, the React page and the `toggleProduct` helper. They are UI state, authenticated GraphQL calls and metafield storage. The screen always writes `minQty` 2, and its 1 to 80 percentage bound is only an input attribute. The discount functions do not rely on either, so neither is a precondition here.

## Findings

| source | as written | input that shows it | evidently intended | confidence | as-written member | corrected member |
|---|---|---|---|---|---|---|
| extensions/volume-discount/src/run.js:34 | The parsed configuration is destructured without a `null` check. | Metafield text `null`: `JSON.parse` returns `null` and the destructuring throws a `TypeError`. | An unusable configuration gives no discount, like every other irregular configuration. | medium, not executed | RunFunction.RunNullConfigThrows | FailSafe.RunFailSafe |
| extensions/volume-discount/src/cart_lines_discounts_generate_run.js:23 | Same destructuring without a `null` check. | Metafield text `null`. | No discount. | medium, not executed | GenerateRunFunction.GenerateNullConfigThrows | FailSafe.GenerateRunFailSafe |
| extensions/volume-discount/src/cart_lines_discounts_generate_run.js:55 | `percentOff.toString()` is called with no check that `percentOff` exists. | `{"products":["gid://P1"],"minQty":2}` with a cart line of P1, quantity 2. | No discount, as `run` gives for the same configuration. | medium, not executed | GenerateRunFunction.GenerateNullishPercentThrows | FailSafe.GenerateFailSafeWithoutPercent |
