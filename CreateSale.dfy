/**
 * Sales/CreateSale: the command, CreateSaleValidator with its item validator,
 * the pricing loop of CreateSaleHandler, and the handler itself.
 */
module CreateSale {
  import opened Primitives
  import opened Validation
  import opened Outcomes
  import Domain
  import Repositories

  /** One item of the command: what the profile copies into a SaleItem. */
  datatype SaleItemCommand = SaleItemCommand(productName: string, quantity: Int32, unitPrice: real)

  /**
   * CreateSaleCommand. Its declaration is not part of this model; these are
   * the members the validator, the profile and the handler use.
   */
  datatype CreateSaleCommand = CreateSaleCommand(
    saleNumber: Int64,
    saleDate: Ticks,
    customer: string,
    branch: string,
    totalAmount: real,
    items: seq<SaleItemCommand>)

  /** The command with every member at its default. */
  const EmptyCommand := CreateSaleCommand(0, DefaultDate, "", "", 0.0, [])

  // ---------------------------------------------------------------------
  // CreateSaleValidator and its SaleItemCommandValidator

  /** The predefined branches BeAValidBranch accepts. */
  const ValidBranches: seq<string> := ["Main Branch"]

  /** BeAValidBranch: exact, case-sensitive membership. */
  predicate BeAValidBranch(branch: string) {
    branch in ValidBranches
  }

  /** SaleItemCommandValidator: product name, quantity (two chained rules), unit price. */
  function SaleItemCommandViolations(item: SaleItemCommand): (r: seq<Violation>)
    ensures r == [] <==> ItemCommandIsValid(item)
    ensures TopLevel(r)
  {
    Check(!IsBlank(item.productName), ProductName, ProductNameRequired)
    + Check(item.quantity > 0, Quantity, QuantityNotPositive)
    + Check(item.quantity <= 20, Quantity, QuantityAboveLimit)
    + Check(item.unitPrice > 0.0, UnitPrice, UnitPriceNotPositive)
  }

  /** RuleFor(SaleDate): not after the local clock `now`. No NotEmpty rule at this layer. */
  function SaleDateRules(command: CreateSaleCommand, now: Ticks): (r: seq<Violation>)
    ensures Under(r, SaleDate)
  {
    Check(command.saleDate <= now, SaleDate, SaleDateNotPast)
  }

  /** RuleFor(Customer). */
  function CustomerRules(command: CreateSaleCommand): (r: seq<Violation>)
    ensures Under(r, Customer)
  {
    Check(!IsBlank(command.customer), Customer, CustomerRequired)
  }

  /** RuleFor(Branch): NotEmpty, then BeAValidBranch, both evaluated. */
  function BranchRules(command: CreateSaleCommand): (r: seq<Violation>)
    ensures Under(r, Branch)
  {
    Check(!IsBlank(command.branch), Branch, BranchRequired)
    + Check(BeAValidBranch(command.branch), Branch, BranchNotValid)
  }

  /** RuleFor(SaleItems).NotEmpty(). */
  function SaleItemsRules(command: CreateSaleCommand): (r: seq<Violation>)
    ensures Under(r, SaleItems)
  {
    Check(|command.items| > 0, SaleItems, SaleItemsMissing)
  }

  /** RuleForEach(SaleItems).SetValidator(new SaleItemCommandValidator()). */
  function SaleItemsEachRules(command: CreateSaleCommand): (r: seq<Violation>)
    ensures Under(r, SaleItems)
  {
    ForEach(SaleItems, command.items, SaleItemCommandViolations)
  }

  /** CreateSaleValidator: its rules in declaration order, every one evaluated. */
  function CreateSaleViolations(command: CreateSaleCommand, now: Ticks): (r: seq<Violation>)
    ensures r == [] <==> CommandIsValid(command, now)
  {
    SaleDateRules(command, now)
    + CustomerRules(command)
    + BranchRules(command)
    + SaleItemsRules(command)
    + SaleItemsEachRules(command)
  }

  /** What a valid command item is, rule by rule. There is no length limit at this layer. */
  predicate ItemCommandIsValid(item: SaleItemCommand) {
    && !IsBlank(item.productName)
    && 1 <= item.quantity <= 20
    && item.unitPrice > 0.0
  }

  /** What a valid command is, rule by rule. Sale number and total amount are not inspected. */
  predicate CommandIsValid(command: CreateSaleCommand, now: Ticks) {
    && command.saleDate <= now
    && !IsBlank(command.customer)
    && !IsBlank(command.branch)
    && BeAValidBranch(command.branch)
    && |command.items| > 0
    && (forall i :: 0 <= i < |command.items| ==> ItemCommandIsValid(command.items[i]))
  }

  /** A failure is reported by CreateSaleValidator exactly when the rule chain on its property reports it. */
  lemma InCreateSaleViolations(command: CreateSaleCommand, now: Ticks, v: Violation)
    ensures v in CreateSaleViolations(command, now) <==>
      match Root(v.field)
      case SaleDate => v in SaleDateRules(command, now)
      case Customer => v in CustomerRules(command)
      case Branch => v in BranchRules(command)
      case SaleItems => v in SaleItemsRules(command) || v in SaleItemsEachRules(command)
      case _ => false
  {
  }

  lemma SaleDateMessage(command: CreateSaleCommand, now: Ticks)
    ensures Violation(Prop(SaleDate), SaleDateNotPast) in CreateSaleViolations(command, now)
        <==> command.saleDate > now
  {
    InCreateSaleViolations(command, now, Violation(Prop(SaleDate), SaleDateNotPast));
  }

  lemma CustomerMessage(command: CreateSaleCommand, now: Ticks)
    ensures Violation(Prop(Customer), CustomerRequired) in CreateSaleViolations(command, now)
        <==> IsBlank(command.customer)
  {
    InCreateSaleViolations(command, now, Violation(Prop(Customer), CustomerRequired));
  }

  /**
   * Both branch rules run: a blank branch is reported as missing and, since
   * it is not "Main Branch", as not a valid option too.
   */
  lemma BranchMessages(command: CreateSaleCommand, now: Ticks)
    ensures Violation(Prop(Branch), BranchRequired) in CreateSaleViolations(command, now)
        <==> IsBlank(command.branch)
    ensures Violation(Prop(Branch), BranchNotValid) in CreateSaleViolations(command, now)
        <==> command.branch != "Main Branch"
    ensures IsBlank(command.branch) ==>
      && Violation(Prop(Branch), BranchRequired) in CreateSaleViolations(command, now)
      && Violation(Prop(Branch), BranchNotValid) in CreateSaleViolations(command, now)
  {
    InCreateSaleViolations(command, now, Violation(Prop(Branch), BranchRequired));
    InCreateSaleViolations(command, now, Violation(Prop(Branch), BranchNotValid));
    if IsBlank(command.branch) {
      assert !IsWhiteSpace("Main Branch"[0]);
    }
  }

  lemma SaleItemsMessage(command: CreateSaleCommand, now: Ticks)
    ensures Violation(Prop(SaleItems), SaleItemsMissing) in CreateSaleViolations(command, now)
        <==> |command.items| == 0
  {
    InCreateSaleViolations(command, now, Violation(Prop(SaleItems), SaleItemsMissing));
  }

  /** Which messages the item validator reports on one item: each exactly when its rule fails. */
  lemma ItemCommandRuleMessages(item: SaleItemCommand)
    ensures Violation(Prop(ProductName), ProductNameRequired) in SaleItemCommandViolations(item) <==> IsBlank(item.productName)
    ensures Violation(Prop(Quantity), QuantityNotPositive) in SaleItemCommandViolations(item) <==> item.quantity <= 0
    ensures Violation(Prop(Quantity), QuantityAboveLimit) in SaleItemCommandViolations(item) <==> item.quantity > 20
    ensures Violation(Prop(UnitPrice), UnitPriceNotPositive) in SaleItemCommandViolations(item) <==> item.unitPrice <= 0.0
  {
  }

  /** The failures CreateSaleValidator reports on element `i` of the items are the item validator's. */
  lemma InItemCommandViolations(command: CreateSaleCommand, now: Ticks, i: nat, name: PropName, message: Message)
    requires i < |command.items|
    ensures Violation(Item(SaleItems, i, name), message) in CreateSaleViolations(command, now)
        <==> Violation(Prop(name), message) in SaleItemCommandViolations(command.items[i])
  {
    InCreateSaleViolations(command, now, Violation(Item(SaleItems, i, name), message));
    ForEachContains(SaleItems, command.items, SaleItemCommandViolations, i, name, message);
  }

  /**
   * The two quantity rules of item `i`: 0 (or less) is reported as "greater
   * than zero" only, 21 (or more) as "more than 20" only, 1..20 passes both.
   */
  lemma ItemQuantityMessages(command: CreateSaleCommand, now: Ticks, i: nat)
    requires i < |command.items|
    ensures Violation(Item(SaleItems, i, Quantity), QuantityNotPositive) in CreateSaleViolations(command, now)
        <==> command.items[i].quantity <= 0
    ensures Violation(Item(SaleItems, i, Quantity), QuantityAboveLimit) in CreateSaleViolations(command, now)
        <==> command.items[i].quantity > 20
  {
    ItemCommandRuleMessages(command.items[i]);
    InItemCommandViolations(command, now, i, Quantity, QuantityNotPositive);
    InItemCommandViolations(command, now, i, Quantity, QuantityAboveLimit);
  }

  /** The product-name and unit-price rules of item `i`. */
  lemma ItemNameAndPriceMessages(command: CreateSaleCommand, now: Ticks, i: nat)
    requires i < |command.items|
    ensures Violation(Item(SaleItems, i, ProductName), ProductNameRequired) in CreateSaleViolations(command, now)
        <==> IsBlank(command.items[i].productName)
    ensures Violation(Item(SaleItems, i, UnitPrice), UnitPriceNotPositive) in CreateSaleViolations(command, now)
        <==> command.items[i].unitPrice <= 0.0
  {
    ItemCommandRuleMessages(command.items[i]);
    InItemCommandViolations(command, now, i, ProductName, ProductNameRequired);
    InItemCommandViolations(command, now, i, UnitPrice, UnitPriceNotPositive);
  }

  /** The validator never looks at the sale number or the total amount. */
  lemma NoRuleOnSaleNumberOrTotal(command: CreateSaleCommand, now: Ticks, saleNumber: Int64, totalAmount: real)
    ensures CreateSaleViolations(command.(saleNumber := saleNumber, totalAmount := totalAmount), now)
         == CreateSaleViolations(command, now)
  {
  }

  /** A command with nothing filled in is rejected: customer, branch (twice) and items. */
  lemma EmptyCommandIsInvalid(now: Ticks)
    ensures CreateSaleViolations(EmptyCommand, now) == [
      Violation(Prop(Customer), CustomerRequired),
      Violation(Prop(Branch), BranchRequired),
      Violation(Prop(Branch), BranchNotValid),
      Violation(Prop(SaleItems), SaleItemsMissing)]
  {
  }

  // ---------------------------------------------------------------------
  // Mapping and pricing

  /** The profile's item map: name, quantity and price copied. */
  function ItemFromCommand(item: SaleItemCommand): (r: Domain.SaleItem)
    ensures r.productName == item.productName && r.quantity == item.quantity && r.unitPrice == item.unitPrice
  {
    Domain.SaleItem(item.productName, item.quantity, item.unitPrice)
  }

  /**
   * _mapper.Map<Sale>(command): a new Sale (no Id yet, initial status) with
   * the command's members copied, except TotalAmount, which the profile
   * ignores and so stays 0.
   */
  function SaleFromCommand(command: CreateSaleCommand): (r: Domain.Sale)
    ensures r.id == EmptyGuid && r.status == Domain.Created && r.totalAmount == 0.0
    ensures r.saleNumber == command.saleNumber && r.saleDate == command.saleDate
    ensures r.customer == command.customer && r.branch == command.branch
    ensures |r.items| == |command.items|
    ensures forall i :: 0 <= i < |r.items| ==> r.items[i] == ItemFromCommand(command.items[i])
  {
    Domain.Sale(EmptyGuid, command.saleNumber, command.saleDate, command.customer, command.branch,
                0.0, Domain.Created, seq(|command.items|, i requires 0 <= i < |command.items| => ItemFromCommand(command.items[i])))
  }

  /**
   * The amount one item writes into TotalAmount: quantity times price times
   * 0.10 for 4..9 units, times 0.20 for 10..20 units; other quantities write
   * nothing.
   */
  function TierAmount(item: Domain.SaleItem): Option<real> {
    if 4 <= item.quantity <= 9 then Some(item.quantity as real * item.unitPrice * 0.10)
    else if 10 <= item.quantity <= 20 then Some(item.quantity as real * item.unitPrice * 0.20)
    else None
  }

  /** TotalAmount after the pricing loop has run over `items`, starting from `initial`. */
  function PricedTotal(items: seq<Domain.SaleItem>, initial: real): real
    decreases |items|
  {
    if items == [] then initial
    else
      match TierAmount(items[|items| - 1])
      case Some(amount) => amount
      case None => PricedTotal(items[..|items| - 1], initial)
  }

  /**
   * The pricing loop: walks the items in order; each item in a discount
   * tier overwrites TotalAmount. Nothing but TotalAmount changes.
   */
  method ApplyDiscounts(sale: Domain.Sale) returns (priced: Domain.Sale)
    ensures priced == sale.(totalAmount := PricedTotal(sale.items, sale.totalAmount))
  {
    priced := sale;
    var i := 0;
    while i < |sale.items|
      invariant 0 <= i <= |sale.items|
      invariant priced == sale.(totalAmount := PricedTotal(sale.items[..i], sale.totalAmount))
    {
      var item := sale.items[i];
      assert sale.items[..i + 1][..i] == sale.items[..i];
      if 4 <= item.quantity <= 9 {
        priced := priced.(totalAmount := item.quantity as real * item.unitPrice * 0.10);
      } else if 10 <= item.quantity <= 20 {
        priced := priced.(totalAmount := item.quantity as real * item.unitPrice * 0.20);
      }
      i := i + 1;
    }
    assert sale.items[..i] == sale.items;
  }

  /** Last write wins: the total is the amount of the last item in a tier, whatever came before. */
  lemma {:induction false} LastQualifyingItemWins(items: seq<Domain.SaleItem>, initial: real, j: nat)
    requires j < |items|
    requires TierAmount(items[j]).Some?
    requires forall k :: j < k < |items| ==> TierAmount(items[k]).None?
    ensures PricedTotal(items, initial) == TierAmount(items[j]).value
    decreases |items|
  {
    var n := |items| - 1;
    if j < n {
      assert forall k :: j < k < n ==> items[..n][k] == items[k];
      assert items[..n][j] == items[j];
      LastQualifyingItemWins(items[..n], initial, j);
    }
  }

  /** When no item is in a tier, the total keeps its starting value. */
  lemma {:induction false} NoQualifyingItemKeepsTotal(items: seq<Domain.SaleItem>, initial: real)
    requires forall k :: 0 <= k < |items| ==> TierAmount(items[k]).None?
    ensures PricedTotal(items, initial) == initial
    decreases |items|
  {
    if items != [] {
      var n := |items| - 1;
      assert forall k :: 0 <= k < n ==> items[..n][k] == items[k];
      NoQualifyingItemKeepsTotal(items[..n], initial);
    }
  }

  /** A single item: its tier amount, or the starting total below 4 units (or above 20). */
  lemma SingleItemTotal(item: Domain.SaleItem, initial: real)
    ensures 4 <= item.quantity <= 9 ==> PricedTotal([item], initial) == item.quantity as real * item.unitPrice * 0.10
    ensures 10 <= item.quantity <= 20 ==> PricedTotal([item], initial) == item.quantity as real * item.unitPrice * 0.20
    ensures (item.quantity < 4 || item.quantity > 20) ==> PricedTotal([item], initial) == initial
  {
    assert [item][..0] == [];
  }

  /** Five units at 100 come to 50: the rate is multiplied in, not taken off. */
  lemma FiveAtOneHundred()
    ensures PricedTotal([Domain.SaleItem("corona", 5, 100.0)], 0.0) == 50.0
  {
    SingleItemTotal(Domain.SaleItem("corona", 5, 100.0), 0.0);
  }

  /** Two qualifying items: the second one's amount, not the sum. */
  lemma TwoQualifyingItemsIsNotASum(first: Domain.SaleItem, second: Domain.SaleItem, initial: real)
    requires TierAmount(first).Some? && TierAmount(second).Some?
    ensures PricedTotal([first, second], initial) == TierAmount(second).value
  {
  }

  // ---------------------------------------------------------------------
  // CreateSaleHandler

  class CreateSaleHandler {
    const repository: Repositories.SaleRepository

    constructor(repository: Repositories.SaleRepository)
      ensures this.repository == repository
    {
      this.repository := repository;
    }

    /**
     * Handle: an invalid command fails with all of the validator's errors and
     * the store is not touched; a valid one is mapped, priced and stored
     * under the key the store generates, and the stored sale comes back.
     */
    method Handle(command: CreateSaleCommand, now: Ticks, generatedId: Guid) returns (result: HandlerResult<Domain.Sale>)
      requires repository.Valid()
      requires generatedId != EmptyGuid && generatedId !in repository.sales
      modifies repository
      ensures repository.Valid()
      ensures result.Ok? || result.ValidationFailed?
      ensures result.ValidationFailed? <==> CreateSaleViolations(command, now) != []
      ensures result.ValidationFailed? ==>
        && result.errors == CreateSaleViolations(command, now)
        && repository.sales == old(repository.sales)
      ensures result.Ok? ==>
        && result.value == SaleFromCommand(command).(
             id := generatedId,
             totalAmount := PricedTotal(SaleFromCommand(command).items, 0.0))
        && repository.sales == old(repository.sales)[generatedId := result.value]
    {
      var errors := CreateSaleViolations(command, now);
      if errors != [] {
        return ValidationFailed(errors);
      }
      var sale := SaleFromCommand(command);
      sale := ApplyDiscounts(sale);
      var created := repository.Create(sale, generatedId);
      return Ok(created);
    }
  }
}
