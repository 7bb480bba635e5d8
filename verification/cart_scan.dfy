/** The per-line qualification rule and the scan over the cart lines that both
    entry points share: a line is a discount target when it carries a product
    id, that id is one of the configured products, and its quantity reaches the
    minimum. */
module CartScan {
  import opened JsValues

  /** One cart line: `line.id`, `line.merchandise?.product?.id` (absent for
      merchandise that is not a product variant) and `line.quantity`. */
  datatype CartLine = CartLine(id: string, productId: Option<string>, quantity: nat)

  /** One entry of a discount's `targets`: `{ cartLine: { id } }`. */
  datatype Target = CartLineTarget(lineId: string)

  /** `if (!productId) continue;` lets through a present, non-empty id only. */
  predicate HasProductId(line: CartLine)
  {
    NonEmptyText(line.productId)
  }

  /** `isConfiguredProduct && meetsQuantity` for a line that has a product id. */
  predicate Qualifies(line: CartLine, products: seq<string>, minQty: Field)
  {
    && HasProductId(line)
    && line.productId.value in products
    && AtLeast(line.quantity, minQty)
  }

  /** The targets the scan collects, in cart order: one per qualifying line. */
  function Targets(lines: seq<CartLine>, products: seq<string>, minQty: Field): (t: seq<Target>)
    ensures |t| <= |lines|
  {
    if lines == [] then
      []
    else
      var rest := Targets(lines[1..], products, minQty);
      if Qualifies(lines[0], products, minQty) then [CartLineTarget(lines[0].id)] + rest else rest
  }

  /** Some qualifying line of the cart has the target's id. */
  ghost predicate FromQualifyingLine(target: Target, lines: seq<CartLine>, products: seq<string>, minQty: Field)
  {
    exists i :: 0 <= i < |lines| && target == CartLineTarget(lines[i].id) && Qualifies(lines[i], products, minQty)
  }

  /** A line's id is among the targets exactly when some line with that id
      qualifies. */
  lemma {:induction false} TargetsMembership(lines: seq<CartLine>, products: seq<string>, minQty: Field)
    ensures forall i :: 0 <= i < |lines| && Qualifies(lines[i], products, minQty) ==>
              CartLineTarget(lines[i].id) in Targets(lines, products, minQty)
    ensures forall target :: target in Targets(lines, products, minQty) ==>
              FromQualifyingLine(target, lines, products, minQty)
    decreases |lines|
  {
    if lines != [] {
      var rest := lines[1..];
      TargetsMembership(rest, products, minQty);
      var t := Targets(lines, products, minQty);
      var tr := Targets(rest, products, minQty);
      forall i | 0 <= i < |lines| && Qualifies(lines[i], products, minQty)
        ensures CartLineTarget(lines[i].id) in t
      {
        if i > 0 {
          assert lines[i] == rest[i - 1];
        }
      }
      forall target | target in t
        ensures FromQualifyingLine(target, lines, products, minQty)
      {
        if target in tr {
          assert FromQualifyingLine(target, rest, products, minQty);
          var i :| 0 <= i < |rest| && target == CartLineTarget(rest[i].id) && Qualifies(rest[i], products, minQty);
          assert rest[i] == lines[i + 1];
        } else {
          assert target == CartLineTarget(lines[0].id) && Qualifies(lines[0], products, minQty);
        }
      }
    }
  }

  /** The scan finds nothing exactly when no line qualifies. */
  lemma {:induction false} TargetsEmpty(lines: seq<CartLine>, products: seq<string>, minQty: Field)
    ensures Targets(lines, products, minQty) == [] <==>
            forall i :: 0 <= i < |lines| ==> !Qualifies(lines[i], products, minQty)
    decreases |lines|
  {
    if lines != [] {
      TargetsEmpty(lines[1..], products, minQty);
      assert forall i :: 1 <= i < |lines| ==> lines[i] == lines[1..][i - 1];
    }
  }

  /** The ids of the lines, in cart order. */
  function LineIds(lines: seq<CartLine>): (ids: seq<Target>)
    ensures |ids| == |lines|
    ensures forall i :: 0 <= i < |lines| ==> ids[i] == CartLineTarget(lines[i].id)
  {
    if lines == [] then [] else [CartLineTarget(lines[0].id)] + LineIds(lines[1..])
  }

  /** `sub` is obtained from `s` by deleting elements, without reordering. */
  ghost predicate IsSubsequence<T>(sub: seq<T>, s: seq<T>)
    decreases |s|
  {
    || sub == []
    || (&& s != []
        && ((sub[0] == s[0] && IsSubsequence(sub[1..], s[1..])) || IsSubsequence(sub, s[1..])))
  }

  /** The targets are the cart's line ids with the non-qualifying ones deleted:
      cart order is kept and no line contributes twice. */
  lemma {:induction false} TargetsSubsequenceOfLines(lines: seq<CartLine>, products: seq<string>, minQty: Field)
    ensures IsSubsequence(Targets(lines, products, minQty), LineIds(lines))
    decreases |lines|
  {
    if lines != [] {
      TargetsSubsequenceOfLines(lines[1..], products, minQty);
      assert LineIds(lines)[1..] == LineIds(lines[1..]);
      var t := Targets(lines, products, minQty);
      if Qualifies(lines[0], products, minQty) {
        assert t[1..] == Targets(lines[1..], products, minQty);
      }
    }
  }

  /** Scanning a cart split in two is scanning each part in turn: the filter
      keeps the relative order of the lines it keeps. */
  lemma {:induction false} TargetsAppend(a: seq<CartLine>, b: seq<CartLine>, products: seq<string>, minQty: Field)
    ensures Targets(a + b, products, minQty) == Targets(a, products, minQty) + Targets(b, products, minQty)
    decreases |a|
  {
    if a != [] {
      assert (a + b)[1..] == a[1..] + b;
      TargetsAppend(a[1..], b, products, minQty);
    } else {
      assert a + b == b;
    }
  }

  /** Inserting a line anywhere in the cart inserts its target (if it
      qualifies) at the same place and removes no existing target. */
  lemma TargetsInsert(a: seq<CartLine>, line: CartLine, b: seq<CartLine>, products: seq<string>, minQty: Field)
    ensures Targets(a + [line] + b, products, minQty)
         == Targets(a, products, minQty)
          + (if Qualifies(line, products, minQty) then [CartLineTarget(line.id)] else [])
          + Targets(b, products, minQty)
  {
    TargetsAppend(a + [line], b, products, minQty);
    TargetsAppend(a, [line], products, minQty);
    assert [line][1..] == [];
  }

  /** The threshold is inclusive: a configured product bought exactly `minQty`
      times qualifies, one fewer does not. */
  lemma QualifiesAtThreshold(line: CartLine, products: seq<string>, minQty: int)
    requires HasProductId(line) && line.productId.value in products
    ensures line.quantity == minQty ==> Qualifies(line, products, Num(minQty))
    ensures line.quantity == minQty - 1 ==> !Qualifies(line, products, Num(minQty))
  {
  }

  predicate NoDuplicates<T(==)>(s: seq<T>)
  {
    forall k, m :: 0 <= k < m < |s| ==> s[k] != s[m]
  }

  /** With line ids unique within the cart, every target is distinct. */
  lemma {:induction false} TargetsDistinct(lines: seq<CartLine>, products: seq<string>, minQty: Field)
    requires NoDuplicates(LineIds(lines))
    ensures NoDuplicates(Targets(lines, products, minQty))
    decreases |lines|
  {
    if lines != [] {
      var rest := lines[1..];
      assert LineIds(rest) == LineIds(lines)[1..];
      TargetsDistinct(rest, products, minQty);
      TargetsMembership(rest, products, minQty);
      var tr := Targets(rest, products, minQty);
      forall k | 0 <= k < |tr|
        ensures tr[k] != CartLineTarget(lines[0].id)
      {
        assert tr[k] in tr;
        var i :| 0 <= i < |rest| && tr[k] == CartLineTarget(rest[i].id) && Qualifies(rest[i], products, minQty);
        assert rest[i] == lines[i + 1];
      }
      var t := Targets(lines, products, minQty);
      if Qualifies(lines[0], products, minQty) {
        forall k, m | 0 <= k < m < |t|
          ensures t[k] != t[m]
        {
          assert t[m] == tr[m - 1];
          if k > 0 {
            assert t[k] == tr[k - 1];
            assert tr[k - 1] != tr[m - 1];
          } else {
            assert t[k] == CartLineTarget(lines[0].id);
            assert tr[m - 1] != CartLineTarget(lines[0].id);
          }
        }
      }
    }
  }

  /** The `for (const line of input.cart.lines)` loop, pushing each qualifying
      line's target. */
  method ScanLines(lines: seq<CartLine>, products: seq<string>, minQty: Field) returns (targets: seq<Target>)
    ensures targets == Targets(lines, products, minQty)
  {
    targets := [];
    var i := 0;
    while i < |lines|
      invariant 0 <= i <= |lines|
      invariant targets == Targets(lines[..i], products, minQty)
    {
      var line := lines[i];
      TargetsAppend(lines[..i], [line], products, minQty);
      assert lines[..i + 1] == lines[..i] + [line];
      if HasProductId(line) {
        var isConfiguredProduct := line.productId.value in products;
        var meetsQuantity := AtLeast(line.quantity, minQty);
        if isConfiguredProduct && meetsQuantity {
          targets := targets + [CartLineTarget(line.id)];
        }
      }
      i := i + 1;
    }
    assert lines[..i] == lines;
  }
}
