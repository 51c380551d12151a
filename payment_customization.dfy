/** The payment-customization handler: when the `straight_payments` gate
    applies, hide the first payment method sold as "Pay by Installments". */
module PaymentCustomization {
  import opened Wrappers
  import opened Strings
  import opened CartInput

  /** The display-name fragment that marks the method to hide. */
  const InstallmentsName := "Pay by Installments"

  datatype PaymentMethod = PaymentMethod(id: string, name: string)

  datatype Input = Input(cart: Cart, paymentMethods: seq<PaymentMethod>)

  datatype HideOperation = HideOperation(paymentMethodId: string)

  datatype MoveOperation = MoveOperation(paymentMethodId: string, index: int)

  datatype RenameOperation = RenameOperation(paymentMethodId: string, name: string)

  /** One host instruction; this handler only ever fills in the hide part. */
  datatype Operation = Operation(
    hideOperation: Option<HideOperation>,
    moveOperation: Option<MoveOperation>,
    renameOperation: Option<RenameOperation>)

  datatype FunctionResult = FunctionResult(operations: seq<Operation>)

  /** The method's display name contains "Pay by Installments". */
  predicate IsInstallments(m: PaymentMethod)
  {
    Contains(m.name, InstallmentsName)
  }

  /** No method among `methods` is an installments method. */
  predicate NoneMatch(methods: seq<PaymentMethod>)
  {
    forall j :: 0 <= j < |methods| ==> !IsInstallments(methods[j])
  }

  /** Position `i` holds the first installments method of `methods`. */
  predicate FirstMatchAt(methods: seq<PaymentMethod>, i: int)
  {
    0 <= i < |methods| && IsInstallments(methods[i]) && NoneMatch(methods[..i])
  }

  /** The first installments method, in list order, if there is one. */
  function Find(methods: seq<PaymentMethod>): (found: Option<PaymentMethod>)
    ensures found.None? <==> NoneMatch(methods)
    ensures found.Some? ==> exists i :: FirstMatchAt(methods, i) && methods[i] == found.value
  {
    if |methods| == 0 then
      None
    else if IsInstallments(methods[0]) then
      assert FirstMatchAt(methods, 0);
      Some(methods[0])
    else
      var found := Find(methods[1..]);
      assert forall j :: 1 <= j < |methods| ==> methods[j] == methods[1..][j - 1];
      if found.Some? then
        var i :| FirstMatchAt(methods[1..], i) && methods[1..][i] == found.value;
        assert methods[1..][..i] == methods[1..i + 1];
        assert FirstMatchAt(methods, i + 1);
        found
      else
        found
  }

  /** The hide instruction for the first installments method, if any. */
  function HideInstallments(methods: seq<PaymentMethod>): (op: Option<HideOperation>)
    ensures op.None? <==> NoneMatch(methods)
    ensures op.Some? ==> exists i :: FirstMatchAt(methods, i) && methods[i].id == op.value.paymentMethodId
  {
    match Find(methods)
    case None => None
    case Some(m) => Some(HideOperation(m.id))
  }

  /** The result when the gate does not apply: no operations. */
  function NoChanges(): FunctionResult
  {
    FunctionResult([])
  }

  /** The handler. Without the gate there are no operations; with it there
      is exactly one, which hides the first installments method when there
      is one and hides nothing otherwise, and never moves or renames. */
  function Run(input: Input): (result: FunctionResult)
    ensures result.operations == [] <==> !Gate(input.cart.attribute)
    ensures Gate(input.cart.attribute) ==>
      |result.operations| == 1 &&
      result.operations[0].moveOperation.None? &&
      result.operations[0].renameOperation.None? &&
      (result.operations[0].hideOperation.Some? <==>
         exists i :: 0 <= i < |input.paymentMethods| && IsInstallments(input.paymentMethods[i]))
    ensures Gate(input.cart.attribute) && result.operations[0].hideOperation.Some? ==>
      exists i :: FirstMatchAt(input.paymentMethods, i) &&
        input.paymentMethods[i].id == result.operations[0].hideOperation.value.paymentMethodId
  {
    if !Gate(input.cart.attribute) then
      NoChanges()
    else
      FunctionResult([Operation(HideInstallments(input.paymentMethods), None, None)])
  }

  /** The first match is the same whatever follows it. */
  lemma {:induction false} FindIgnoresSuffix(methods: seq<PaymentMethod>, rest: seq<PaymentMethod>)
    requires !NoneMatch(methods)
    ensures Find(methods + rest) == Find(methods)
    decreases |methods|
  {
    if !IsInstallments(methods[0]) {
      assert (methods + rest)[1..] == methods[1..] + rest;
      assert forall j :: 1 <= j < |methods| ==> methods[j] == methods[1..][j - 1];
      FindIgnoresSuffix(methods[1..], rest);
    }
  }

  /** Methods before the first match are passed over. */
  lemma {:induction false} FindSkipsNonMatching(skipped: seq<PaymentMethod>, rest: seq<PaymentMethod>)
    requires NoneMatch(skipped)
    ensures Find(skipped + rest) == Find(rest)
    decreases |skipped|
  {
    if |skipped| == 0 {
      assert skipped + rest == rest;
    } else {
      assert (skipped + rest)[1..] == skipped[1..] + rest;
      assert forall j :: 1 <= j < |skipped| ==> skipped[j] == skipped[1..][j - 1];
      FindSkipsNonMatching(skipped[1..], rest);
    }
  }

  /** The result depends only on the gate and on the methods up to and
      including the first match: the methods after it, and the cart lines,
      play no part. */
  lemma RunDependsOnPrefix(input: Input, lines: seq<Line>, i: int)
    requires FirstMatchAt(input.paymentMethods, i)
    ensures Run(input) == Run(Input(Cart(input.cart.attribute, lines), input.paymentMethods[..i + 1]))
  {
    var methods := input.paymentMethods;
    assert methods == methods[..i + 1] + methods[i + 1..];
    assert methods[..i + 1][i] == methods[i];
    FindIgnoresSuffix(methods[..i + 1], methods[i + 1..]);
  }

  /** Cart lines never matter. */
  lemma RunIgnoresLines(input: Input, lines: seq<Line>)
    ensures Run(input) == Run(Input(Cart(input.cart.attribute, lines), input.paymentMethods))
  {
  }

  /** A missing attribute, a missing value or the value "false": no operations. */
  lemma NoOperationsWhenGateOff(cart: Cart, methods: seq<PaymentMethod>)
    requires cart.attribute in {None, Some(Attribute(None)), Some(Attribute(Some("false")))}
    ensures Run(Input(cart, methods)).operations == []
  {
  }

  /** With the gate on and no installments method, the result is still one
      operation, which hides nothing. */
  lemma NoMatchStillOneOperation(cart: Cart, methods: seq<PaymentMethod>)
    requires Gate(cart.attribute) && NoneMatch(methods)
    ensures Run(Input(cart, methods)).operations == [Operation(None, None, None)]
  {
  }

  /** Of "Credit Card", "Pay by Installments Plan" and "Pay by Installments
      Extra", only the second is hidden. */
  lemma HidesFirstOfTwoInstallmentsMethods(cart: Cart)
    requires Gate(cart.attribute)
    ensures Run(Input(cart, [
        PaymentMethod("A", "Credit Card"),
        PaymentMethod("B", "Pay by Installments Plan"),
        PaymentMethod("C", "Pay by Installments Extra")])).operations ==
      [Operation(Some(HideOperation("B")), None, None)]
  {
    var methods := [
      PaymentMethod("A", "Credit Card"),
      PaymentMethod("B", "Pay by Installments Plan"),
      PaymentMethod("C", "Pay by Installments Extra")];
    ShorterNotContains("Credit Card", InstallmentsName);
    assert IsPrefix(InstallmentsName, methods[1].name);
    assert methods[1..][0] == methods[1];
  }

  /** The match is case-sensitive: "Pay By Installments" is not hidden. */
  lemma MatchIsCaseSensitive(m: PaymentMethod)
    requires m.name == "Pay By Installments"
    ensures !IsInstallments(m)
  {
    SameLengthContains(m.name, InstallmentsName);
    assert m.name[4] != InstallmentsName[4];
  }
}
