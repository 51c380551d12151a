/** The part of the cart snapshot that both checkout handlers read, and the
    `straight_payments` attribute gate they share. */
module CartInput {
  import opened Wrappers

  /** The one value of `straight_payments` that switches both handlers off. */
  const StraightPaymentsOff := "false"

  /** The cart's `straight_payments` attribute; its value may be missing. */
  datatype Attribute = Attribute(value: Option<string>)

  /** What a cart line holds: a product variant with its id, or a custom
      product that has no variant id. */
  datatype Merchandise = ProductVariant(id: string) | CustomProduct

  datatype Line = Line(quantity: int, merchandise: Merchandise)

  datatype Cart = Cart(attribute: Option<Attribute>, lines: seq<Line>)

  /** True when the handlers apply their customization: the attribute is
      present, has a value, and that value is not exactly "false". */
  function Gate(attribute: Option<Attribute>): (apply: bool)
    ensures apply ==> attribute.Some? && attribute.value.value.Some?
    ensures apply ==> attribute.value.value.value != StraightPaymentsOff
  {
    match attribute
    case None => false
    case Some(attr) =>
      match attr.value
      case None => false
      case Some(value) => value != StraightPaymentsOff
  }

  /** A missing attribute, or an attribute without a value, never applies. */
  lemma GateNeedsValue()
    ensures !Gate(None)
    ensures !Gate(Some(Attribute(None)))
  {
  }

  /** With a value present, the gate applies exactly when the value differs
      from "false"; the comparison is exact and case-sensitive. */
  lemma GateOnValue(value: string)
    ensures Gate(Some(Attribute(Some(value)))) <==> value != "false"
  {
  }

  /** The empty string, "true" and "False" all apply. */
  lemma GateOtherValuesApply()
    ensures Gate(Some(Attribute(Some(""))))
    ensures Gate(Some(Attribute(Some("true"))))
    ensures Gate(Some(Attribute(Some("False"))))
  {
    GateOnValue("False");
    assert "False"[0] != "false"[0];
  }
}
