/**
 * Sales/UpdateSale: the command and its items, UpdateSaleValidator with its
 * own item validator, and UpdateSaleHandler.
 */
module UpdateSale {
  import opened Primitives
  import opened Validation
  import opened Outcomes
  import Domain
  import Repositories

  /** SaleItemCommand of the update side: it also carries a discount and a line total. */
  datatype SaleItemCommand = SaleItemCommand(
    productName: string,
    quantity: Int32,
    unitPrice: real,
    discount: real,
    totalAmount: real)

  /** An item with every member at its default. */
  const DefaultItem := SaleItemCommand("", 0, 0.0, 0.0, 0.0)

  datatype UpdateSaleCommand = UpdateSaleCommand(
    saleId: Guid,
    saleDate: Ticks,
    customer: string,
    branch: string,
    items: seq<SaleItemCommand>,
    totalSaleAmount: real)
  {
    /**
     * Validate(): runs UpdateSaleValidator (whose date rule reads the local
     * clock as `now`) and hands back its verdict and its errors one-to-one.
     */
    function Validate(now: Ticks): (r: ValidationResultDetail)
      ensures r.isValid <==> r.errors == []
      ensures r.isValid <==> CommandIsValid(this, now)
      ensures r.errors == UpdateSaleViolations(this, now)
    {
      var errors := UpdateSaleViolations(this, now);
      ValidationResultDetail(errors == [], errors)
    }
  }

  /** A command as constructed: empty id, default date, blank names, no items, total 0. */
  const DefaultCommand := UpdateSaleCommand(EmptyGuid, DefaultDate, "", "", [], 0.0)

  // ---------------------------------------------------------------------
  // UpdateSaleValidator and its SaleItemCommandValidator

  /** BeAValidBranch: exact, case-sensitive membership in the predefined branches. */
  predicate BeAValidBranch(branch: string) {
    branch in ["Main Branch"]
  }

  /** SaleItemCommandValidator: the create-side rules plus discount and line total. */
  function SaleItemCommandViolations(item: SaleItemCommand): (r: seq<Violation>)
    ensures r == [] <==> ItemCommandIsValid(item)
    ensures TopLevel(r)
  {
    ProductNameRules(item)
    + QuantityRules(item)
    + UnitPriceRules(item)
    + DiscountRules(item)
    + ItemTotalAmountRules(item)
  }

  /** RuleFor(ProductName).NotEmpty(). */
  function ProductNameRules(item: SaleItemCommand): (r: seq<Violation>)
    ensures Under(r, ProductName) && TopLevel(r)
  {
    Check(!IsBlank(item.productName), ProductName, ProductNameRequired)
  }

  /** RuleFor(Quantity): GreaterThan(0), then LessThanOrEqualTo(20), both evaluated. */
  function QuantityRules(item: SaleItemCommand): (r: seq<Violation>)
    ensures Under(r, Quantity) && TopLevel(r)
  {
    Check(item.quantity > 0, Quantity, QuantityNotPositive)
    + Check(item.quantity <= 20, Quantity, QuantityAboveLimit)
  }

  /** RuleFor(UnitPrice).GreaterThan(0). */
  function UnitPriceRules(item: SaleItemCommand): (r: seq<Violation>)
    ensures Under(r, UnitPrice) && TopLevel(r)
  {
    Check(item.unitPrice > 0.0, UnitPrice, UnitPriceNotPositive)
  }

  /** RuleFor(Discount).GreaterThanOrEqualTo(0). */
  function DiscountRules(item: SaleItemCommand): (r: seq<Violation>)
    ensures Under(r, Discount) && TopLevel(r)
  {
    Check(item.discount >= 0.0, Discount, DiscountNegative)
  }

  /** RuleFor(TotalAmount).GreaterThan(0), on the item's line total. */
  function ItemTotalAmountRules(item: SaleItemCommand): (r: seq<Violation>)
    ensures Under(r, TotalAmount) && TopLevel(r)
  {
    Check(item.totalAmount > 0.0, TotalAmount, TotalAmountNotPositive)
  }

  /** A failure is reported by the item validator exactly when the rule chain on its property reports it. */
  lemma InItemCommandRules(item: SaleItemCommand, v: Violation)
    ensures v in SaleItemCommandViolations(item) <==>
      match Root(v.field)
      case ProductName => v in ProductNameRules(item)
      case Quantity => v in QuantityRules(item)
      case UnitPrice => v in UnitPriceRules(item)
      case Discount => v in DiscountRules(item)
      case TotalAmount => v in ItemTotalAmountRules(item)
      case _ => false
  {
  }

  /** RuleFor(SaleId).NotEmpty(). */
  function SaleIdRules(command: UpdateSaleCommand): (r: seq<Violation>)
    ensures Under(r, SaleId)
  {
    Check(command.saleId != EmptyGuid, SaleId, SaleIdRequired)
  }

  /** RuleFor(SaleDate): not after the local clock `now`. */
  function SaleDateRules(command: UpdateSaleCommand, now: Ticks): (r: seq<Violation>)
    ensures Under(r, SaleDate)
  {
    Check(command.saleDate <= now, SaleDate, SaleDateNotPast)
  }

  /** RuleFor(Customer). */
  function CustomerRules(command: UpdateSaleCommand): (r: seq<Violation>)
    ensures Under(r, Customer)
  {
    Check(!IsBlank(command.customer), Customer, CustomerRequired)
  }

  /** RuleFor(Branch): NotEmpty, then BeAValidBranch, both evaluated. */
  function BranchRules(command: UpdateSaleCommand): (r: seq<Violation>)
    ensures Under(r, Branch)
  {
    Check(!IsBlank(command.branch), Branch, BranchRequired)
    + Check(BeAValidBranch(command.branch), Branch, BranchNotValid)
  }

  /** RuleFor(SaleItems).NotEmpty(). */
  function SaleItemsRules(command: UpdateSaleCommand): (r: seq<Violation>)
    ensures Under(r, SaleItems)
  {
    Check(|command.items| > 0, SaleItems, SaleItemsMissing)
  }

  /** RuleForEach(SaleItems).SetValidator(new SaleItemCommandValidator()). */
  function SaleItemsEachRules(command: UpdateSaleCommand): (r: seq<Violation>)
    ensures Under(r, SaleItems)
  {
    ForEach(SaleItems, command.items, SaleItemCommandViolations)
  }

  /** RuleFor(TotalSaleAmount).GreaterThan(0). */
  function TotalSaleAmountRules(command: UpdateSaleCommand): (r: seq<Violation>)
    ensures Under(r, TotalSaleAmount)
  {
    Check(command.totalSaleAmount > 0.0, TotalSaleAmount, TotalSaleAmountNotPositive)
  }

  /** UpdateSaleValidator: its rules in declaration order, every one evaluated. */
  function UpdateSaleViolations(command: UpdateSaleCommand, now: Ticks): (r: seq<Violation>)
    ensures r == [] <==> CommandIsValid(command, now)
  {
    SaleIdRules(command)
    + SaleDateRules(command, now)
    + CustomerRules(command)
    + BranchRules(command)
    + SaleItemsRules(command)
    + SaleItemsEachRules(command)
    + TotalSaleAmountRules(command)
  }

  /** What a valid update item is, rule by rule. */
  predicate ItemCommandIsValid(item: SaleItemCommand) {
    && !IsBlank(item.productName)
    && 1 <= item.quantity <= 20
    && item.unitPrice > 0.0
    && item.discount >= 0.0
    && item.totalAmount > 0.0
  }

  /** What a valid update command is, rule by rule. */
  predicate CommandIsValid(command: UpdateSaleCommand, now: Ticks) {
    && command.saleId != EmptyGuid
    && command.saleDate <= now
    && !IsBlank(command.customer)
    && !IsBlank(command.branch)
    && BeAValidBranch(command.branch)
    && |command.items| > 0
    && (forall i :: 0 <= i < |command.items| ==> ItemCommandIsValid(command.items[i]))
    && command.totalSaleAmount > 0.0
  }

  /** A failure is reported by UpdateSaleValidator exactly when the rule chain on its property reports it. */
  lemma InUpdateSaleViolations(command: UpdateSaleCommand, now: Ticks, v: Violation)
    ensures v in UpdateSaleViolations(command, now) <==>
      match Root(v.field)
      case SaleId => v in SaleIdRules(command)
      case SaleDate => v in SaleDateRules(command, now)
      case Customer => v in CustomerRules(command)
      case Branch => v in BranchRules(command)
      case SaleItems => v in SaleItemsRules(command) || v in SaleItemsEachRules(command)
      case TotalSaleAmount => v in TotalSaleAmountRules(command)
      case _ => false
  {
  }

  lemma SaleIdMessage(command: UpdateSaleCommand, now: Ticks)
    ensures Violation(Prop(SaleId), SaleIdRequired) in UpdateSaleViolations(command, now)
        <==> command.saleId == EmptyGuid
  {
    InUpdateSaleViolations(command, now, Violation(Prop(SaleId), SaleIdRequired));
  }

  lemma SaleDateMessage(command: UpdateSaleCommand, now: Ticks)
    ensures Violation(Prop(SaleDate), SaleDateNotPast) in UpdateSaleViolations(command, now)
        <==> command.saleDate > now
  {
    InUpdateSaleViolations(command, now, Violation(Prop(SaleDate), SaleDateNotPast));
  }

  lemma CustomerAndBranchMessages(command: UpdateSaleCommand, now: Ticks)
    ensures Violation(Prop(Customer), CustomerRequired) in UpdateSaleViolations(command, now)
        <==> IsBlank(command.customer)
    ensures Violation(Prop(Branch), BranchRequired) in UpdateSaleViolations(command, now)
        <==> IsBlank(command.branch)
    ensures Violation(Prop(Branch), BranchNotValid) in UpdateSaleViolations(command, now)
        <==> command.branch != "Main Branch"
  {
    InUpdateSaleViolations(command, now, Violation(Prop(Customer), CustomerRequired));
    InUpdateSaleViolations(command, now, Violation(Prop(Branch), BranchRequired));
    InUpdateSaleViolations(command, now, Violation(Prop(Branch), BranchNotValid));
  }

  lemma SaleItemsMessage(command: UpdateSaleCommand, now: Ticks)
    ensures Violation(Prop(SaleItems), SaleItemsMissing) in UpdateSaleViolations(command, now)
        <==> |command.items| == 0
  {
    InUpdateSaleViolations(command, now, Violation(Prop(SaleItems), SaleItemsMissing));
  }

  /** The sale total must be strictly positive: 0 is rejected here, unlike the entity's rule. */
  lemma TotalSaleAmountMessage(command: UpdateSaleCommand, now: Ticks)
    ensures Violation(Prop(TotalSaleAmount), TotalSaleAmountNotPositive) in UpdateSaleViolations(command, now)
        <==> command.totalSaleAmount <= 0.0
  {
    InUpdateSaleViolations(command, now, Violation(Prop(TotalSaleAmount), TotalSaleAmountNotPositive));
  }

  /** Which messages the item validator reports on one item: each exactly when its rule fails. */
  lemma ItemCommandRuleMessages(item: SaleItemCommand)
    ensures Violation(Prop(ProductName), ProductNameRequired) in SaleItemCommandViolations(item) <==> IsBlank(item.productName)
    ensures Violation(Prop(Quantity), QuantityNotPositive) in SaleItemCommandViolations(item) <==> item.quantity <= 0
    ensures Violation(Prop(Quantity), QuantityAboveLimit) in SaleItemCommandViolations(item) <==> item.quantity > 20
    ensures Violation(Prop(UnitPrice), UnitPriceNotPositive) in SaleItemCommandViolations(item) <==> item.unitPrice <= 0.0
  {
    InItemCommandRules(item, Violation(Prop(ProductName), ProductNameRequired));
    InItemCommandRules(item, Violation(Prop(Quantity), QuantityNotPositive));
    InItemCommandRules(item, Violation(Prop(Quantity), QuantityAboveLimit));
    InItemCommandRules(item, Violation(Prop(UnitPrice), UnitPriceNotPositive));
  }

  /** The same for the two rules only the update side has. */
  lemma ItemCommandExtraRuleMessages(item: SaleItemCommand)
    ensures Violation(Prop(Discount), DiscountNegative) in SaleItemCommandViolations(item) <==> item.discount < 0.0
    ensures Violation(Prop(TotalAmount), TotalAmountNotPositive) in SaleItemCommandViolations(item) <==> item.totalAmount <= 0.0
  {
    InItemCommandRules(item, Violation(Prop(Discount), DiscountNegative));
    InItemCommandRules(item, Violation(Prop(TotalAmount), TotalAmountNotPositive));
  }

  /** The failures UpdateSaleValidator reports on element `i` of the items are the item validator's. */
  lemma InItemCommandViolations(command: UpdateSaleCommand, now: Ticks, i: nat, name: PropName, message: Message)
    requires i < |command.items|
    ensures Violation(Item(SaleItems, i, name), message) in UpdateSaleViolations(command, now)
        <==> Violation(Prop(name), message) in SaleItemCommandViolations(command.items[i])
  {
    InUpdateSaleViolations(command, now, Violation(Item(SaleItems, i, name), message));
    ForEachContains(SaleItems, command.items, SaleItemCommandViolations, i, name, message);
  }

  /** The rules the update side shares with the create side, on item `i`. */
  lemma ItemQuantityNameAndPriceMessages(command: UpdateSaleCommand, now: Ticks, i: nat)
    requires i < |command.items|
    ensures Violation(Item(SaleItems, i, ProductName), ProductNameRequired) in UpdateSaleViolations(command, now)
        <==> IsBlank(command.items[i].productName)
    ensures Violation(Item(SaleItems, i, Quantity), QuantityNotPositive) in UpdateSaleViolations(command, now)
        <==> command.items[i].quantity <= 0
    ensures Violation(Item(SaleItems, i, Quantity), QuantityAboveLimit) in UpdateSaleViolations(command, now)
        <==> command.items[i].quantity > 20
    ensures Violation(Item(SaleItems, i, UnitPrice), UnitPriceNotPositive) in UpdateSaleViolations(command, now)
        <==> command.items[i].unitPrice <= 0.0
  {
    ItemCommandRuleMessages(command.items[i]);
    InItemCommandViolations(command, now, i, ProductName, ProductNameRequired);
    InItemCommandViolations(command, now, i, Quantity, QuantityNotPositive);
    InItemCommandViolations(command, now, i, Quantity, QuantityAboveLimit);
    InItemCommandViolations(command, now, i, UnitPrice, UnitPriceNotPositive);
  }

  /** The two rules only the update side has, on item `i`. */
  lemma ItemDiscountAndTotalMessages(command: UpdateSaleCommand, now: Ticks, i: nat)
    requires i < |command.items|
    ensures Violation(Item(SaleItems, i, Discount), DiscountNegative) in UpdateSaleViolations(command, now)
        <==> command.items[i].discount < 0.0
    ensures Violation(Item(SaleItems, i, TotalAmount), TotalAmountNotPositive) in UpdateSaleViolations(command, now)
        <==> command.items[i].totalAmount <= 0.0
  {
    ItemCommandExtraRuleMessages(command.items[i]);
    InItemCommandViolations(command, now, i, Discount, DiscountNegative);
    InItemCommandViolations(command, now, i, TotalAmount, TotalAmountNotPositive);
  }

  /** A command as constructed is rejected on every rule except the date. */
  lemma DefaultCommandIsInvalid(now: Ticks)
    ensures UpdateSaleViolations(DefaultCommand, now) == [
      Violation(Prop(SaleId), SaleIdRequired),
      Violation(Prop(Customer), CustomerRequired),
      Violation(Prop(Branch), BranchRequired),
      Violation(Prop(Branch), BranchNotValid),
      Violation(Prop(SaleItems), SaleItemsMissing),
      Violation(Prop(TotalSaleAmount), TotalSaleAmountNotPositive)]
    ensures !DefaultCommand.Validate(now).isValid
  {
  }

  /** An item as constructed passes the discount rule (0 is allowed) but fails the line-total rule. */
  lemma DefaultItemViolations()
    ensures SaleItemCommandViolations(DefaultItem) == [
      Violation(Prop(ProductName), ProductNameRequired),
      Violation(Prop(Quantity), QuantityNotPositive),
      Violation(Prop(UnitPrice), UnitPriceNotPositive),
      Violation(Prop(TotalAmount), TotalAmountNotPositive)]
    ensures Violation(Prop(Discount), DiscountNegative) !in SaleItemCommandViolations(DefaultItem)
  {
  }

  // ---------------------------------------------------------------------
  // UpdateSaleHandler

  /** The profile's item map: name, quantity and price; discount and line total have nowhere to go. */
  function ItemFromCommand(item: SaleItemCommand): (r: Domain.SaleItem)
    ensures r.productName == item.productName && r.quantity == item.quantity && r.unitPrice == item.unitPrice
  {
    Domain.SaleItem(item.productName, item.quantity, item.unitPrice)
  }

  /**
   * _mapper.Map(command, existingSale): the command's date, customer, branch,
   * items and sale total overwrite the stored sale's; its Id, sale number and
   * status stay. No price is recomputed.
   */
  function MergeInto(command: UpdateSaleCommand, existing: Domain.Sale): (r: Domain.Sale)
    ensures r.id == existing.id && r.saleNumber == existing.saleNumber && r.status == existing.status
    ensures r.saleDate == command.saleDate && r.customer == command.customer && r.branch == command.branch
    ensures r.totalAmount == command.totalSaleAmount
    ensures |r.items| == |command.items|
    ensures forall i :: 0 <= i < |r.items| ==> r.items[i] == ItemFromCommand(command.items[i])
  {
    existing.(
      saleDate := command.saleDate,
      customer := command.customer,
      branch := command.branch,
      totalAmount := command.totalSaleAmount,
      items := seq(|command.items|, i requires 0 <= i < |command.items| => ItemFromCommand(command.items[i])))
  }

  class UpdateSaleHandler {
    const repository: Repositories.SaleRepository

    constructor(repository: Repositories.SaleRepository)
      ensures this.repository == repository
    {
      this.repository := repository;
    }

    /**
     * Handle: an invalid command fails with all of the validator's errors; an
     * unknown id is NotFound; otherwise the stored sale, whatever its status,
     * takes the command's values and becomes Modified. In every failure the
     * store is left as it was, and no other sale ever changes.
     */
    method Handle(command: UpdateSaleCommand, now: Ticks) returns (result: HandlerResult<bool>)
      requires repository.Valid()
      modifies repository
      ensures repository.Valid()
      ensures result.Ok? || result.ValidationFailed? || result.NotFound?
      ensures result.ValidationFailed? <==> UpdateSaleViolations(command, now) != []
      ensures result.ValidationFailed? ==> result.errors == UpdateSaleViolations(command, now)
      ensures result.NotFound? <==> UpdateSaleViolations(command, now) == [] && command.saleId !in old(repository.sales)
      ensures result.NotFound? ==> result.message == NotFoundMessage(command.saleId)
      ensures !result.Ok? ==> repository.sales == old(repository.sales)
      ensures result.Ok? ==>
        && result.value
        && command.saleId in old(repository.sales)
        && repository.sales == old(repository.sales)[command.saleId :=
             MergeInto(command, old(repository.sales)[command.saleId]).(status := Domain.Modified)]
      ensures forall id :: id in old(repository.sales) && id != command.saleId ==>
        id in repository.sales && repository.sales[id] == old(repository.sales)[id]
    {
      var validation := command.Validate(now);
      if !validation.isValid {
        return ValidationFailed(validation.errors);
      }
      var existingSale := repository.GetById(command.saleId);
      if existingSale.None? {
        return NotFound(NotFoundMessage(command.saleId));
      }
      var merged := MergeInto(command, existingSale.value);
      var updated := repository.Update(merged);
      return Ok(updated);
    }
  }

  /**
   * A cancelled sale can still be updated: a sale is stored, cancelled, and
   * then a valid update for it succeeds and leaves it Modified with the
   * command's values and sale total (no pricing rule is applied).
   */
  method UpdateOfCancelledSale(sale: Domain.Sale, generatedId: Guid, command: UpdateSaleCommand, now: Ticks)
    returns (statusBefore: Domain.SaleStatus, result: HandlerResult<bool>, stored: Domain.Sale)
    requires generatedId != EmptyGuid
    requires command.saleId == (if sale.id == EmptyGuid then generatedId else sale.id)
    requires UpdateSaleViolations(command, now) == []
    ensures statusBefore == Domain.Cancelled
    ensures result == Ok(true)
    ensures stored.status == Domain.Modified
    ensures stored.id == command.saleId && stored.saleNumber == sale.saleNumber
    ensures stored.totalAmount == command.totalSaleAmount
    ensures stored.customer == command.customer && stored.branch == command.branch && stored.saleDate == command.saleDate
  {
    var repository := new Repositories.SaleRepository();
    var created := repository.Create(sale, generatedId);
    var cancelled := repository.Cancel(created.id);
    statusBefore := repository.sales[created.id].status;
    var handler := new UpdateSaleHandler(repository);
    result := handler.Handle(command, now);
    stored := repository.sales[command.saleId];
  }
}
