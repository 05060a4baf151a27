/**
 * WebApi/Features/Sales/CreateSale: the request the API accepts and
 * CreateSaleRequestValidator with its SaleItemValidator. Quantities are
 * decimals at this layer.
 */
module WebApiCreateSale {
  import opened Primitives
  import opened Validation
  import CreateSale

  /** SaleItemRequest: the quantity is a decimal, not an integer. */
  datatype SaleItemRequest = SaleItemRequest(productName: string, quantity: real, unitPrice: real)

  datatype CreateSaleRequest = CreateSaleRequest(
    saleDate: Ticks,
    customer: string,
    branch: string,
    items: seq<SaleItemRequest>)

  /** BeAValidBranch: exact, case-sensitive membership in the predefined branches. */
  predicate BeAValidBranch(branch: string) {
    branch in ["Main Branch"]
  }

  /** SaleItemValidator: product name, quantity in (0, 20] as a decimal, unit price. */
  function SaleItemRequestViolations(item: SaleItemRequest): (r: seq<Violation>)
    ensures r == [] <==> ItemRequestIsValid(item)
    ensures TopLevel(r)
  {
    Check(!IsBlank(item.productName), ProductName, ProductNameRequired)
    + Check(item.quantity > 0.0, Quantity, QuantityNotPositive)
    + Check(item.quantity <= 20.0, Quantity, QuantityAboveLimit)
    + Check(item.unitPrice > 0.0, UnitPrice, UnitPriceNotPositive)
  }

  /** RuleFor(SaleDate): not after the local clock `now`. */
  function SaleDateRules(request: CreateSaleRequest, now: Ticks): (r: seq<Violation>)
    ensures Under(r, SaleDate)
  {
    Check(request.saleDate <= now, SaleDate, SaleDateNotPast)
  }

  /** RuleFor(Customer).NotEmpty(), with no length limit. */
  function CustomerRules(request: CreateSaleRequest): (r: seq<Violation>)
    ensures Under(r, Customer)
  {
    Check(!IsBlank(request.customer), Customer, CustomerRequired)
  }

  /** RuleFor(Branch): NotEmpty, then BeAValidBranch, both evaluated. */
  function BranchRules(request: CreateSaleRequest): (r: seq<Violation>)
    ensures Under(r, Branch)
  {
    Check(!IsBlank(request.branch), Branch, BranchRequired)
    + Check(BeAValidBranch(request.branch), Branch, BranchNotValid)
  }

  /** RuleFor(SaleItems).NotEmpty(). */
  function SaleItemsRules(request: CreateSaleRequest): (r: seq<Violation>)
    ensures Under(r, SaleItems)
  {
    Check(|request.items| > 0, SaleItems, SaleItemsMissing)
  }

  /** RuleForEach(SaleItems).SetValidator(new SaleItemValidator()). */
  function SaleItemsEachRules(request: CreateSaleRequest): (r: seq<Violation>)
    ensures Under(r, SaleItems)
  {
    ForEach(SaleItems, request.items, SaleItemRequestViolations)
  }

  /** CreateSaleRequestValidator: its rules in declaration order, every one evaluated. */
  function CreateSaleRequestViolations(request: CreateSaleRequest, now: Ticks): (r: seq<Violation>)
    ensures r == [] <==> RequestIsValid(request, now)
  {
    SaleDateRules(request, now)
    + CustomerRules(request)
    + BranchRules(request)
    + SaleItemsRules(request)
    + SaleItemsEachRules(request)
  }

  predicate ItemRequestIsValid(item: SaleItemRequest) {
    && !IsBlank(item.productName)
    && 0.0 < item.quantity <= 20.0
    && item.unitPrice > 0.0
  }

  predicate RequestIsValid(request: CreateSaleRequest, now: Ticks) {
    && request.saleDate <= now
    && !IsBlank(request.customer)
    && !IsBlank(request.branch)
    && BeAValidBranch(request.branch)
    && |request.items| > 0
    && (forall i :: 0 <= i < |request.items| ==> ItemRequestIsValid(request.items[i]))
  }

  /** A failure is reported by CreateSaleRequestValidator exactly when the rule chain on its property reports it. */
  lemma InCreateSaleRequestViolations(request: CreateSaleRequest, now: Ticks, v: Violation)
    ensures v in CreateSaleRequestViolations(request, now) <==>
      match Root(v.field)
      case SaleDate => v in SaleDateRules(request, now)
      case Customer => v in CustomerRules(request)
      case Branch => v in BranchRules(request)
      case SaleItems => v in SaleItemsRules(request) || v in SaleItemsEachRules(request)
      case _ => false
  {
  }

  /** The branch must be exactly "Main Branch": any other spelling, case included, is reported. */
  lemma BranchMessages(request: CreateSaleRequest, now: Ticks)
    ensures Violation(Prop(Branch), BranchRequired) in CreateSaleRequestViolations(request, now)
        <==> IsBlank(request.branch)
    ensures Violation(Prop(Branch), BranchNotValid) in CreateSaleRequestViolations(request, now)
        <==> request.branch != "Main Branch"
  {
    InCreateSaleRequestViolations(request, now, Violation(Prop(Branch), BranchRequired));
    InCreateSaleRequestViolations(request, now, Violation(Prop(Branch), BranchNotValid));
  }

  /** Which quantity messages the item validator reports: the bounds are on a decimal. */
  lemma ItemQuantityRuleMessages(item: SaleItemRequest)
    ensures Violation(Prop(Quantity), QuantityNotPositive) in SaleItemRequestViolations(item) <==> item.quantity <= 0.0
    ensures Violation(Prop(Quantity), QuantityAboveLimit) in SaleItemRequestViolations(item) <==> item.quantity > 20.0
  {
  }

  /** The quantity rules of item `i` of a request. */
  lemma ItemQuantityMessages(request: CreateSaleRequest, now: Ticks, i: nat)
    requires i < |request.items|
    ensures Violation(Item(SaleItems, i, Quantity), QuantityNotPositive) in CreateSaleRequestViolations(request, now)
        <==> request.items[i].quantity <= 0.0
    ensures Violation(Item(SaleItems, i, Quantity), QuantityAboveLimit) in CreateSaleRequestViolations(request, now)
        <==> request.items[i].quantity > 20.0
  {
    ItemQuantityRuleMessages(request.items[i]);
    InCreateSaleRequestViolations(request, now, Violation(Item(SaleItems, i, Quantity), QuantityNotPositive));
    InCreateSaleRequestViolations(request, now, Violation(Item(SaleItems, i, Quantity), QuantityAboveLimit));
    ForEachContains(SaleItems, request.items, SaleItemRequestViolations, i, Quantity, QuantityNotPositive);
    ForEachContains(SaleItems, request.items, SaleItemRequestViolations, i, Quantity, QuantityAboveLimit);
  }

  /** Half a unit passes both quantity rules; twenty and a half fails the upper one. */
  lemma FractionalQuantities(name: string, price: real)
    ensures Violation(Prop(Quantity), QuantityNotPositive) !in SaleItemRequestViolations(SaleItemRequest(name, 0.5, price))
    ensures Violation(Prop(Quantity), QuantityAboveLimit) !in SaleItemRequestViolations(SaleItemRequest(name, 0.5, price))
    ensures Violation(Prop(Quantity), QuantityAboveLimit) in SaleItemRequestViolations(SaleItemRequest(name, 20.5, price))
  {
    ItemQuantityRuleMessages(SaleItemRequest(name, 0.5, price));
    ItemQuantityRuleMessages(SaleItemRequest(name, 20.5, price));
  }

  /**
   * There is no length limit at this layer: a valid request stays valid
   * whatever non-blank customer and product names it carries, however long.
   */
  lemma NoLengthLimits(request: CreateSaleRequest, now: Ticks, customer: string, productNames: seq<string>)
    requires RequestIsValid(request, now)
    requires !IsBlank(customer)
    requires |productNames| == |request.items|
    requires forall i :: 0 <= i < |productNames| ==> !IsBlank(productNames[i])
    ensures var renamed := request.(customer := customer,
                                    items := seq(|request.items|, i requires 0 <= i < |request.items| =>
                                               request.items[i].(productName := productNames[i])));
      CreateSaleRequestViolations(renamed, now) == []
  {
  }

  // ---------------------------------------------------------------------
  // Mapping a request to the command

  /**
   * Convert.ToInt32(decimal), the conversion AutoMapper applies from a
   * decimal member to an int one: the nearest integer, a half going to the
   * even neighbour.
   */
  function RoundHalfEven(x: real): (r: int)
    ensures -0.5 <= r as real - x <= 0.5
    ensures (r as real - x == 0.5 || x - r as real == 0.5) ==> r % 2 == 0
    ensures x == x.Floor as real ==> r == x.Floor
  {
    var f := x.Floor;
    var d := x - f as real;
    if d < 0.5 then f else if d > 0.5 then f + 1 else if f % 2 == 0 then f else f + 1
  }

  /** The rounded quantity is positive exactly above one half, and at most 20 exactly up to 20.5. */
  lemma RoundedQuantityBounds(x: real)
    ensures RoundHalfEven(x) <= 0 <==> x <= 0.5
    ensures RoundHalfEven(x) > 20 <==> x > 20.5
  {
  }

  /** The conversion succeeds: Convert.ToInt32 raises OverflowException outside the int range. */
  predicate QuantitiesConvert(request: CreateSaleRequest) {
    forall i :: 0 <= i < |request.items| ==> -0x8000_0000 <= RoundHalfEven(request.items[i].quantity) < 0x8000_0000
  }

  /**
   * The command the profile maps a request to (members the request lacks stay
   * at their defaults), or none when a quantity does not convert to an int.
   */
  function CommandFor(request: CreateSaleRequest): (c: Option<CreateSale.CreateSaleCommand>)
    ensures c.Some? <==> QuantitiesConvert(request)
    ensures c.Some? ==>
      && c.value.saleDate == request.saleDate && c.value.customer == request.customer && c.value.branch == request.branch
      && |c.value.items| == |request.items|
      && forall i :: 0 <= i < |c.value.items| ==>
        && c.value.items[i].productName == request.items[i].productName
        && c.value.items[i].quantity == RoundHalfEven(request.items[i].quantity)
        && c.value.items[i].unitPrice == request.items[i].unitPrice
  {
    if QuantitiesConvert(request) then
      Some(CreateSale.CreateSaleCommand(0, request.saleDate, request.customer, request.branch, 0.0,
        seq(|request.items|, i requires 0 <= i < |request.items| =>
          CreateSale.SaleItemCommand(request.items[i].productName, RoundHalfEven(request.items[i].quantity), request.items[i].unitPrice))))
    else
      None
  }

  /** Every item quantity is a whole number that fits a C# int. */
  predicate HasWholeQuantities(request: CreateSaleRequest) {
    forall i :: 0 <= i < |request.items| ==>
      && request.items[i].quantity == request.items[i].quantity.Floor as real
      && -0x8000_0000 <= request.items[i].quantity.Floor < 0x8000_0000
  }

  /**
   * For whole quantities the mapping succeeds, and the request validator and
   * the command validator report the very same failures, in the same order.
   */
  lemma SameRulesAsCommand(request: CreateSaleRequest, now: Ticks)
    requires HasWholeQuantities(request)
    ensures CommandFor(request).Some?
    ensures CreateSaleRequestViolations(request, now) == CreateSale.CreateSaleViolations(CommandFor(request).value, now)
  {
    var command := CommandFor(request).value;
    forall i | 0 <= i < |request.items|
      ensures SaleItemRequestViolations(request.items[i]) == CreateSale.SaleItemCommandViolations(command.items[i])
    {
    }
    ForEachPointwise(SaleItems, request.items, SaleItemRequestViolations, command.items, CreateSale.SaleItemCommandViolations);
  }

  /**
   * After the mapping, the command validator sees the rounded quantity:
   * item `i` is "not positive" exactly up to 0.5 and "more than 20"
   * exactly above 20.5, where the request validator drew the lines at 0 and 20.
   */
  lemma MappedQuantityMessages(request: CreateSaleRequest, now: Ticks, i: nat)
    requires i < |request.items|
    requires QuantitiesConvert(request)
    ensures Violation(Item(SaleItems, i, Quantity), QuantityNotPositive) in CreateSale.CreateSaleViolations(CommandFor(request).value, now)
        <==> request.items[i].quantity <= 0.5
    ensures Violation(Item(SaleItems, i, Quantity), QuantityAboveLimit) in CreateSale.CreateSaleViolations(CommandFor(request).value, now)
        <==> request.items[i].quantity > 20.5
  {
    CreateSale.ItemQuantityMessages(CommandFor(request).value, now, i);
    RoundedQuantityBounds(request.items[i].quantity);
  }

  /**
   * A request the API accepts always maps, and its command passes
   * CreateSaleValidator exactly when every quantity is above one half: a
   * quantity in (0, 0.5] is accepted by the API and then rejected.
   */
  lemma AcceptedRequestCommand(request: CreateSaleRequest, now: Ticks)
    requires RequestIsValid(request, now)
    ensures CommandFor(request).Some?
    ensures CreateSale.CreateSaleViolations(CommandFor(request).value, now) == []
        <==> forall i :: 0 <= i < |request.items| ==> request.items[i].quantity > 0.5
  {
    forall i | 0 <= i < |request.items|
      ensures RoundHalfEven(request.items[i].quantity) <= 20
      ensures RoundHalfEven(request.items[i].quantity) <= 0 <==> request.items[i].quantity <= 0.5
    {
      RoundedQuantityBounds(request.items[i].quantity);
    }
    assert QuantitiesConvert(request);
  }
}
