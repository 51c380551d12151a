# Straight-payments checkout handlers

A Dafny model of two checkout extensions for an e-commerce host. Both read
the cart's `straight_payments` attribute and either do nothing or apply one
customization:

- the **straight-discount** handler returns one 10% discount whose targets
  are the cart's product-variant lines, in cart order (custom products are
  skipped, quantities are ignored), with the application strategy `FIRST`;
- the **payment-customization** handler returns one operation that hides
  the first payment method whose name contains "Pay by Installments"
  (hiding nothing when there is none).

The attribute gate, written out twice in the source, is modelled once as
`CartInput.Gate`: it applies only when the attribute is present, has a
value, and that value is not exactly `"false"`.

Modules:

- `Wrappers` (`wrappers.dfy`): `Option`.
- `Strings` (`strings.dfy`): case-sensitive substring containment
  (`Contains`), proved equal to a positional definition.
- `CartInput` (`cart.dfy`): the cart, its lines and merchandise, and the gate.
- `StraightDiscount` (`straight_discount.dfy`): the discount handler.
- `PaymentCustomization` (`payment_customization.dfy`): the payment handler.

Both handlers are pure functions, so calling either twice on the same input
gives the same result by construction.

Two edge cases of the source, kept as they are:

- With the gate off, the discount handler returns an empty list of
  discounts (`discounts: vec![]`, extensions/straight-discount/src/main.rs:15-18,
  returned at lines 45, 50 and 57), not one discount with no targets.
- With the gate on and no installments method, the payment handler still
  returns one operation whose hide part is `None`
  (extensions/payment-customization/src/main.rs:40-54).

## Model

| member | source | states |
|---|---|---|
| `CartInput.Gate` | extensions/payment-customization/src/main.rs:18-36 | the gate applies only when the attribute and its value are present and the value is not "false" |
| `CartInput.GateNeedsValue` | extensions/straight-discount/src/main.rs:40-52 | a missing attribute, or one without a value, does not apply |
| `CartInput.GateOnValue` | extensions/straight-discount/src/main.rs:54-58 | with a value present, the gate applies if and only if the value is not exactly "false" |
| `CartInput.GateOtherValuesApply` | extensions/payment-customization/src/main.rs:32-36 | "", "true" and "False" all apply: the comparison is exact and case-sensitive |
| `Strings.ContainsIff` | extensions/payment-customization/src/main.rs:42 | the substring test holds if and only if the pattern occurs at some position of the name |
| `Strings.ShorterNotContains` | extensions/payment-customization/src/main.rs:42 | a name shorter than the pattern never contains it |
| `Strings.SameLengthContains` | extensions/payment-customization/src/main.rs:42 | a name as long as the pattern contains it only by equalling it |
| `StraightDiscount.Targets` | extensions/straight-discount/src/main.rs:21-37 | there are at most as many targets as lines, and every target names a variant with no quantity |
| `StraightDiscount.TargetsAppend` | extensions/straight-discount/src/main.rs:21-37 | the targets of two runs of lines are the first run's targets followed by the second's |
| `StraightDiscount.TargetsCount` | extensions/straight-discount/src/main.rs:26-29 | the number of targets equals the number of product-variant lines |
| `StraightDiscount.TargetPosition` | extensions/straight-discount/src/main.rs:21-37 | a variant line's target is that variant's id with no quantity, placed right after the targets of the earlier lines, so cart order is kept |
| `StraightDiscount.TargetOrigin` | extensions/straight-discount/src/main.rs:26-36 | every target is the target of some product-variant line of the cart |
| `StraightDiscount.CustomLineContributesNothing` | extensions/straight-discount/src/main.rs:28 | removing a custom-product line anywhere leaves the targets unchanged |
| `StraightDiscount.TargetsIgnoreQuantity` | extensions/straight-discount/src/main.rs:23-24 | lines that differ only in quantity give the same targets: there is no quantity filter |
| `StraightDiscount.Run` | extensions/straight-discount/src/main.rs:14-76 | strategy is FIRST on every path; no discounts exactly when the gate is off; otherwise one discount with no message, value 10.0% and no fixed amount, over the cart's targets |
| `StraightDiscount.NoDiscountWhenGateOff` | extensions/straight-discount/src/main.rs:15-58 | missing attribute, missing value or "false" give an empty discount list with strategy FIRST |
| `StraightDiscount.OneDiscountOnOtherValue` | extensions/straight-discount/src/main.rs:61-75 | any value other than "false" gives exactly one 10% discount over the targets |
| `StraightDiscount.EmptyTargetsStillOneDiscount` | extensions/straight-discount/src/main.rs:21-66 | with the gate on and no variant lines, the one discount is still returned, with no targets |
| `StraightDiscount.TwoVariantsAndACustomProduct` | extensions/straight-discount/src/main.rs:21-75 | lines V1, custom, V2 give one discount targeting V1 then V2 |
| `PaymentCustomization.Find` | extensions/payment-customization/src/main.rs:40-42 | nothing is found exactly when no method matches; what is found is the first matching method in list order |
| `PaymentCustomization.HideInstallments` | extensions/payment-customization/src/main.rs:40-45 | the hide instruction exists exactly when some method matches, and names the first match's id |
| `PaymentCustomization.Run` | extensions/payment-customization/src/main.rs:14-55 | no operations exactly when the gate is off; otherwise one operation that never moves or renames, hiding something if and only if some method matches, and then the first match |
| `PaymentCustomization.FindIgnoresSuffix` | extensions/payment-customization/src/main.rs:40-42 | methods after a match do not change what is found |
| `PaymentCustomization.FindSkipsNonMatching` | extensions/payment-customization/src/main.rs:40-42 | non-matching methods before the rest are passed over |
| `PaymentCustomization.RunDependsOnPrefix` | extensions/payment-customization/src/main.rs:40-45 | the result depends only on the gate and the methods up to the first match, never on cart lines |
| `PaymentCustomization.RunIgnoresLines` | extensions/payment-customization/src/main.rs:14-55 | the cart lines never affect the result |
| `PaymentCustomization.NoOperationsWhenGateOff` | extensions/payment-customization/src/main.rs:15-36 | missing attribute, missing value or "false" give an empty operation list |
| `PaymentCustomization.NoMatchStillOneOperation` | extensions/payment-customization/src/main.rs:43-54 | with the gate on and no match, the result is one operation that hides nothing |
| `PaymentCustomization.HidesFirstOfTwoInstallmentsMethods` | extensions/payment-customization/src/main.rs:40-54 | of "Credit Card", "Pay by Installments Plan", "Pay by Installments Extra", only the second (id B) is hidden |
| `PaymentCustomization.MatchIsCaseSensitive` | extensions/payment-customization/src/main.rs:42 | "Pay By Installments" does not match |

## Left out

- The generated input and output types, the GraphQL query and schema, and
  serialisation: the types are written by hand with only the fields the
  handlers use. The attribute's key is fixed by the query, so the model's
  `Attribute` holds only its value.
- `MoveOperation`, `RenameOperation` and `FixedAmount` carry placeholder
  fields, and the strategy type has the placeholder `Maximum` beside `First`:
  the schema that defines them is not part of this model, and the handlers
  never produce them.
- The `Operation` fields `hide`, `move_` and `rename` are named
  `hideOperation`, `moveOperation` and `renameOperation`, because `hide` is
  a Dafny keyword.
- The entry-point attribute and its standard input/output plumbing: host I/O.
- The diagnostic messages written to standard error: they never affect the
  result.
- The `Result`/error path: both handlers always succeed, so each model
  returns its result directly.
- The test module, which is not part of this model.
- The percentage `"10.0"` is kept as a string; no arithmetic is done on it.
- How the host applies the returned discounts and operations.
