/** Worked examples of the evaluator on concrete carts, with the editor's
    fixed `minQty` of 2 and a `percentOff` of 10. */
module Scenarios {
  import opened JsValues
  import opened Decimal
  import opened CartScan
  import opened DiscountConfig
  import RunFunction
  import GenerateRunFunction

  /** What `JSON.parse` makes of a saved configuration for product P1. */
  function SavedConfig(text: string): ParseOutcome
  {
    ParsedConfig(Some(["gid://P1"]), Num(2), Num(10))
  }

  /** Two lines, one of P1 at the threshold and one of an unconfigured product:
      only the first is targeted. */
  lemma ThresholdLineTargeted()
    ensures var input := RunInput(Some("{...}"), [CartLine("L1", Some("gid://P1"), 2), CartLine("L2", Some("gid://P2"), 5)]);
            RunFunction.Run(input, SavedConfig)
            == Normal(Output(Some(First), [Discount([CartLineTarget("L1")], "10", "Buy 2, get 10% off")]))
  {
    var lines := [CartLine("L1", Some("gid://P1"), 2), CartLine("L2", Some("gid://P2"), 5)];
    assert lines[1..] == [CartLine("L2", Some("gid://P2"), 5)];
    assert Targets(lines, ["gid://P1"], Num(2)) == [CartLineTarget("L1")];
    TenAndTwo();
    assert OfferMessage("2", "10") == "Buy 2, get 10% off";
    var input := RunInput(Some("{...}"), lines);
    assert LoadConfig(input.metafieldValue, SavedConfig) == Usable(["gid://P1"], Num(2), Num(10));
  }

  lemma TenAndTwo()
    ensures IntToString(10) == "10" && IntToString(2) == "2"
  {
  }

  /** One line of P1 below the threshold: no discount. */
  lemma BelowThresholdNoDiscount()
    ensures var input := RunInput(Some("{...}"), [CartLine("L1", Some("gid://P1"), 1)]);
            RunFunction.Run(input, SavedConfig) == Normal(RunFunction.EmptyDiscount)
  {
  }

  /** Two qualifying lines are targeted in cart order. */
  lemma TargetsKeepCartOrder()
    ensures var input := RunInput(Some("{...}"), [CartLine("L1", Some("gid://P1"), 3), CartLine("L2", Some("gid://P1"), 2)]);
            var r := GenerateRunFunction.CartLinesDiscountsGenerateRun(input, SavedConfig);
            r.Normal? && r.value.discounts[0].targets == [CartLineTarget("L1"), CartLineTarget("L2")]
  {
  }
}
