/** The straight-discount handler: when the `straight_payments` gate
    applies, one 10% discount on every product-variant line of the cart. */
module StraightDiscount {
  import opened Wrappers
  import opened CartInput

  /** The percentage is carried as the decimal string the host expects. */
  const TenPercent := "10.0"

  datatype ProductVariantTarget = ProductVariantTarget(id: string, quantity: Option<int>)

  datatype Target = Target(productVariant: Option<ProductVariantTarget>)

  datatype FixedAmount = FixedAmount(amount: string)

  datatype Percentage = Percentage(value: string)

  datatype Value = Value(fixedAmount: Option<FixedAmount>, percentage: Option<Percentage>)

  datatype Discount = Discount(message: Option<string>, targets: seq<Target>, value: Value)

  /** How the host resolves several applicable discounts. Only `First` is
      ever produced; `Maximum` stands for the host's other choices. */
  datatype DiscountApplicationStrategy = First | Maximum

  datatype FunctionResult = FunctionResult(
    discounts: seq<Discount>,
    discountApplicationStrategy: DiscountApplicationStrategy)

  datatype Input = Input(cart: Cart)

  /** The variant lines of the cart, by index. */
  ghost function VariantIndices(lines: seq<Line>): set<int>
  {
    set i | 0 <= i < |lines| && lines[i].merchandise.ProductVariant?
  }

  /** The target for one product variant: the whole line, whatever its quantity. */
  function TargetFor(id: string): Target
  {
    Target(Some(ProductVariantTarget(id, None)))
  }

  /** What one line contributes: its variant's target, or nothing for a
      custom product. */
  function LineTargets(line: Line): seq<Target>
  {
    match line.merchandise
    case ProductVariant(id) => [TargetFor(id)]
    case CustomProduct => []
  }

  /** A target names a whole product variant: it has a variant and no quantity. */
  predicate WholeVariant(t: Target)
  {
    t.productVariant.Some? && t.productVariant.value.quantity.None?
  }

  /** The discount targets of the cart lines, in cart order: custom
      products are dropped and each variant line yields its target. */
  function Targets(lines: seq<Line>): (targets: seq<Target>)
    ensures |targets| <= |lines|
    ensures forall k :: 0 <= k < |targets| ==> WholeVariant(targets[k])
  {
    if |lines| == 0 then [] else LineTargets(lines[0]) + Targets(lines[1..])
  }

  /** The targets of two consecutive runs of lines are the two runs' targets
      one after the other. */
  lemma {:induction false} TargetsAppend(a: seq<Line>, b: seq<Line>)
    ensures Targets(a + b) == Targets(a) + Targets(b)
    decreases |a|
  {
    if |a| > 0 {
      assert (a + b)[1..] == a[1..] + b;
      TargetsAppend(a[1..], b);
    } else {
      assert a + b == b;
    }
  }

  /** There is one target per variant line. */
  lemma {:induction false} TargetsCount(lines: seq<Line>)
    ensures |Targets(lines)| == |VariantIndices(lines)|
    decreases |lines|
  {
    if |lines| > 0 {
      var n := |lines| - 1;
      var init := lines[..n];
      assert lines == init + [lines[n]];
      TargetsAppend(init, [lines[n]]);
      TargetsCount(init);
      assert Targets([lines[n]]) == LineTargets(lines[n]) + Targets([lines[n]][1..]);
      assert [lines[n]][1..] == [];
      if lines[n].merchandise.ProductVariant? {
        assert VariantIndices(lines) == VariantIndices(init) + {n};
      } else {
        assert VariantIndices(lines) == VariantIndices(init);
      }
    } else {
      assert VariantIndices(lines) == {};
    }
  }

  /** A variant line's target comes right after the targets of the lines
      before it, so targets keep the order of their lines. */
  lemma TargetPosition(lines: seq<Line>, j: int)
    requires 0 <= j < |lines| && lines[j].merchandise.ProductVariant?
    ensures |Targets(lines[..j])| < |Targets(lines)|
    ensures Targets(lines)[|Targets(lines[..j])|] == TargetFor(lines[j].merchandise.id)
  {
    assert lines == lines[..j] + lines[j..];
    TargetsAppend(lines[..j], lines[j..]);
  }

  /** Every target is the target of some variant line of the cart. */
  lemma {:induction false} TargetOrigin(lines: seq<Line>, k: int)
    requires 0 <= k < |Targets(lines)|
    ensures exists i ::
              0 <= i < |lines| && lines[i].merchandise.ProductVariant? &&
              Targets(lines)[k] == TargetFor(lines[i].merchandise.id)
    decreases |lines|
  {
    var head := LineTargets(lines[0]);
    if k < |head| {
      assert Targets(lines)[k] == TargetFor(lines[0].merchandise.id);
    } else {
      TargetOrigin(lines[1..], k - |head|);
      var i :| 0 <= i < |lines[1..]| && lines[1..][i].merchandise.ProductVariant? &&
        Targets(lines[1..])[k - |head|] == TargetFor(lines[1..][i].merchandise.id);
      assert lines[i + 1] == lines[1..][i];
    }
  }

  /** A custom-product line contributes nothing, wherever it sits. */
  lemma CustomLineContributesNothing(a: seq<Line>, quantity: int, b: seq<Line>)
    ensures Targets(a + [Line(quantity, CustomProduct)] + b) == Targets(a + b)
  {
    var custom := [Line(quantity, CustomProduct)];
    TargetsAppend(a + custom, b);
    TargetsAppend(a, custom);
    TargetsAppend(a, b);
    assert custom[1..] == [];
  }

  /** Quantities play no part: lines that differ only in quantity have the
      same targets, so a variant line of any quantity is a target. */
  lemma {:induction false} TargetsIgnoreQuantity(lines: seq<Line>, other: seq<Line>)
    requires |lines| == |other|
    requires forall i :: 0 <= i < |lines| ==> lines[i].merchandise == other[i].merchandise
    ensures Targets(lines) == Targets(other)
    decreases |lines|
  {
    if |lines| > 0 {
      TargetsIgnoreQuantity(lines[1..], other[1..]);
    }
  }

  /** The only value the handler offers: 10%, with no fixed amount. */
  function TenPercentOff(): Value
  {
    Value(None, Some(Percentage(TenPercent)))
  }

  /** The result when the gate does not apply: no discounts at all. */
  function NoDiscount(): FunctionResult
  {
    FunctionResult([], First)
  }

  /** The handler. The strategy is `First` on every path; without the gate
      there are no discounts, with it exactly one, carrying the cart's
      targets (possibly none), no message and the 10% value. */
  function Run(input: Input): (result: FunctionResult)
    ensures result.discountApplicationStrategy == First
    ensures result.discounts == [] <==> !Gate(input.cart.attribute)
    ensures Gate(input.cart.attribute) ==>
      |result.discounts| == 1 &&
      result.discounts[0].message.None? &&
      result.discounts[0].value == Value(None, Some(Percentage("10.0"))) &&
      result.discounts[0].targets == Targets(input.cart.lines)
  {
    var targets := Targets(input.cart.lines);
    if !Gate(input.cart.attribute) then
      NoDiscount()
    else
      FunctionResult([Discount(None, targets, TenPercentOff())], First)
  }

  /** A missing attribute, a missing value or the value "false" give no
      discounts, and the strategy is still `First`. */
  lemma NoDiscountWhenGateOff(lines: seq<Line>)
    ensures Run(Input(Cart(None, lines))) == FunctionResult([], First)
    ensures Run(Input(Cart(Some(Attribute(None)), lines))) == FunctionResult([], First)
    ensures Run(Input(Cart(Some(Attribute(Some("false"))), lines))) == FunctionResult([], First)
  {
  }

  /** Any value other than "false", including "" and "False", gives the one
      10% discount over the cart's targets. */
  lemma OneDiscountOnOtherValue(value: string, lines: seq<Line>)
    requires value != "false"
    ensures Run(Input(Cart(Some(Attribute(Some(value))), lines))).discounts ==
      [Discount(None, Targets(lines), Value(None, Some(Percentage("10.0"))))]
  {
  }

  /** With the gate on and no variant line at all, the discount is still
      returned, with no targets. */
  lemma EmptyTargetsStillOneDiscount(attribute: Option<Attribute>, lines: seq<Line>)
    requires Gate(attribute)
    requires forall i :: 0 <= i < |lines| ==> lines[i].merchandise.CustomProduct?
    ensures Run(Input(Cart(attribute, lines))).discounts ==
      [Discount(None, [], Value(None, Some(Percentage("10.0"))))]
  {
    TargetsCount(lines);
    assert VariantIndices(lines) == {};
  }

  /** Two variant lines around a custom product, gate on: the targets are
      the two variants, in order. */
  lemma TwoVariantsAndACustomProduct()
    ensures Run(Input(Cart(Some(Attribute(Some("true"))),
      [Line(1, ProductVariant("V1")), Line(3, CustomProduct), Line(1, ProductVariant("V2"))]))) ==
      FunctionResult([Discount(None, [TargetFor("V1"), TargetFor("V2")], TenPercentOff())], First)
  {
    var lines := [Line(1, ProductVariant("V1")), Line(3, CustomProduct), Line(1, ProductVariant("V2"))];
    assert lines[1..][1..][1..] == [];
    assert Targets(lines[1..][1..]) == [TargetFor("V2")];
    assert Targets(lines[1..]) == [TargetFor("V2")];
    assert Targets(lines) == [TargetFor("V1"), TargetFor("V2")];
    GateOnValue("true");
  }
}
