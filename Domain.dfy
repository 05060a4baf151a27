/**
 * The domain project: the Sale and SaleItem entities and the SaleValidator /
 * SaleItemValidator rules that Sale.Validate() runs. They share one module
 * because Validate() is a member of Sale and the validator reads Sale.
 */
module Domain {
  import opened Primitives
  import opened Validation

  /**
   * SaleStatus. The enum's declaration is not part of this model: it has an
   * initial (default) member and the two that the repository assigns.
   */
  datatype SaleStatus = Created | Modified | Cancelled

  /** SaleItem (its Id and its back-reference to the owning Sale are left out). */
  datatype SaleItem = SaleItem(productName: string, quantity: Int32, unitPrice: real)

  /** Sale, with its BaseEntity Id. Amounts are C# decimals, exact base-10 values. */
  datatype Sale = Sale(
    id: Guid,
    saleNumber: Int64,
    saleDate: Ticks,
    customer: string,
    branch: string,
    totalAmount: real,
    status: SaleStatus,
    items: seq<SaleItem>)
  {
    /**
     * Sale.Validate(): runs SaleValidator (whose date rule reads the clock
     * as `utcNow`) and hands back its verdict and its errors one-to-one.
     */
    function Validate(utcNow: Ticks): (r: ValidationResultDetail)
      ensures r.isValid <==> r.errors == []
      ensures r.isValid <==> SaleIsValid(this, utcNow)
      ensures r.errors == SaleViolations(this, utcNow)
    {
      var errors := SaleViolations(this, utcNow);
      ValidationResultDetail(errors == [], errors)
    }
  }

  /** new Sale(): SaleDate is the UTC time of construction; every other property keeps its default. */
  function NewSale(utcNow: Ticks): Sale {
    Sale(EmptyGuid, 0, utcNow, "", "", 0.0, Created, [])
  }

  /** The longest name the validators accept (MaximumLength(100)). */
  const MaxNameLength := 100

  // ---------------------------------------------------------------------
  // SaleItemValidator and SaleValidator

  /** SaleItemValidator: RuleFor(ProductName), RuleFor(Quantity), RuleFor(UnitPrice). */
  function SaleItemViolations(item: SaleItem): (r: seq<Violation>)
    ensures r == [] <==> SaleItemIsValid(item)
    ensures TopLevel(r)
  {
    Check(!IsBlank(item.productName), ProductName, ProductNameRequired)
    + Check(Utf16Length(item.productName) <= MaxNameLength, ProductName, ProductNameTooLong)
    + Check(1 <= item.quantity <= 20, Quantity, QuantityOutOfRange)
    + Check(item.unitPrice > 0.0, UnitPrice, UnitPriceNotPositive)
  }

  /** The ChildRules block of SaleValidator: a second, independent quantity rule. */
  function SaleItemQuantityViolations(item: SaleItem): (r: seq<Violation>)
    ensures r == [] <==> 1 <= item.quantity <= 20
    ensures TopLevel(r)
  {
    Check(1 <= item.quantity <= 20, Quantity, ItemQuantityOutOfRange)
  }

  /** RuleFor(SaleNumber). */
  function SaleNumberRules(sale: Sale): (r: seq<Violation>)
    ensures Under(r, SaleNumber)
  {
    Check(sale.saleNumber != 0, SaleNumber, SaleNumberRequired)
  }

  /** RuleFor(SaleDate): NotEmpty, then not after the UTC clock. */
  function SaleDateRules(sale: Sale, utcNow: Ticks): (r: seq<Violation>)
    ensures Under(r, SaleDate)
  {
    Check(sale.saleDate != DefaultDate, SaleDate, SaleDateRequired)
    + Check(sale.saleDate <= utcNow, SaleDate, SaleDateInFuture)
  }

  /** RuleFor(Customer). */
  function CustomerRules(sale: Sale): (r: seq<Violation>)
    ensures Under(r, Customer)
  {
    Check(!IsBlank(sale.customer), Customer, CustomerNameRequired)
    + Check(Utf16Length(sale.customer) <= MaxNameLength, Customer, CustomerNameTooLong)
  }

  /** RuleFor(Branch): blank and length only, no membership test at this layer. */
  function BranchRules(sale: Sale): (r: seq<Violation>)
    ensures Under(r, Branch)
  {
    Check(!IsBlank(sale.branch), Branch, BranchRequired)
    + Check(Utf16Length(sale.branch) <= MaxNameLength, Branch, BranchNameTooLong)
  }

  /** RuleFor(SaleItems): NotEmpty, then SaleItemValidator on every item. */
  function SaleItemsRules(sale: Sale): (r: seq<Violation>)
    ensures Under(r, SaleItems)
  {
    Check(|sale.items| > 0, SaleItems, SaleItemsRequired)
    + ForEach(SaleItems, sale.items, SaleItemViolations)
  }

  /** RuleForEach(SaleItems).ChildRules(...). */
  function SaleItemsChildRules(sale: Sale): (r: seq<Violation>)
    ensures Under(r, SaleItems)
  {
    ForEach(SaleItems, sale.items, SaleItemQuantityViolations)
  }

  /** RuleFor(TotalAmount). */
  function TotalAmountRules(sale: Sale): (r: seq<Violation>)
    ensures Under(r, TotalAmount)
  {
    Check(sale.totalAmount >= 0.0, TotalAmount, TotalAmountNegative)
  }

  /** SaleValidator: its rule chains in declaration order, every one evaluated. */
  function SaleViolations(sale: Sale, utcNow: Ticks): (r: seq<Violation>)
    ensures r == [] <==> SaleIsValid(sale, utcNow)
  {
    SaleNumberRules(sale)
    + SaleDateRules(sale, utcNow)
    + CustomerRules(sale)
    + BranchRules(sale)
    + SaleItemsRules(sale)
    + SaleItemsChildRules(sale)
    + TotalAmountRules(sale)
  }

  /** What a valid item is, rule by rule. */
  predicate SaleItemIsValid(item: SaleItem) {
    && !IsBlank(item.productName)
    && Utf16Length(item.productName) <= MaxNameLength
    && 1 <= item.quantity <= 20
    && item.unitPrice > 0.0
  }

  /** What a valid sale is, rule by rule. There is no branch-membership rule at this layer. */
  predicate SaleIsValid(sale: Sale, utcNow: Ticks) {
    && sale.saleNumber != 0
    && sale.saleDate != DefaultDate
    && sale.saleDate <= utcNow
    && !IsBlank(sale.customer)
    && Utf16Length(sale.customer) <= MaxNameLength
    && !IsBlank(sale.branch)
    && Utf16Length(sale.branch) <= MaxNameLength
    && |sale.items| > 0
    && (forall i :: 0 <= i < |sale.items| ==> SaleItemIsValid(sale.items[i]))
    && sale.totalAmount >= 0.0
  }

  /** A failure is reported by SaleValidator exactly when the rule chain on its property reports it. */
  lemma InSaleViolations(sale: Sale, utcNow: Ticks, v: Violation)
    ensures v in SaleViolations(sale, utcNow) <==>
      match Root(v.field)
      case SaleNumber => v in SaleNumberRules(sale)
      case SaleDate => v in SaleDateRules(sale, utcNow)
      case Customer => v in CustomerRules(sale)
      case Branch => v in BranchRules(sale)
      case SaleItems => v in SaleItemsRules(sale) || v in SaleItemsChildRules(sale)
      case TotalAmount => v in TotalAmountRules(sale)
      case _ => false
  {
  }

  lemma SaleNumberMessage(sale: Sale, utcNow: Ticks)
    ensures Violation(Prop(SaleNumber), SaleNumberRequired) in SaleViolations(sale, utcNow)
        <==> sale.saleNumber == 0
  {
    InSaleViolations(sale, utcNow, Violation(Prop(SaleNumber), SaleNumberRequired));
  }

  lemma SaleDateMessages(sale: Sale, utcNow: Ticks)
    ensures Violation(Prop(SaleDate), SaleDateRequired) in SaleViolations(sale, utcNow)
        <==> sale.saleDate == DefaultDate
    ensures Violation(Prop(SaleDate), SaleDateInFuture) in SaleViolations(sale, utcNow)
        <==> sale.saleDate > utcNow
  {
    InSaleViolations(sale, utcNow, Violation(Prop(SaleDate), SaleDateRequired));
    InSaleViolations(sale, utcNow, Violation(Prop(SaleDate), SaleDateInFuture));
  }

  lemma CustomerMessages(sale: Sale, utcNow: Ticks)
    ensures Violation(Prop(Customer), CustomerNameRequired) in SaleViolations(sale, utcNow)
        <==> IsBlank(sale.customer)
    ensures Violation(Prop(Customer), CustomerNameTooLong) in SaleViolations(sale, utcNow)
        <==> Utf16Length(sale.customer) > MaxNameLength
  {
    InSaleViolations(sale, utcNow, Violation(Prop(Customer), CustomerNameRequired));
    InSaleViolations(sale, utcNow, Violation(Prop(Customer), CustomerNameTooLong));
  }

  lemma BranchMessages(sale: Sale, utcNow: Ticks)
    ensures Violation(Prop(Branch), BranchRequired) in SaleViolations(sale, utcNow)
        <==> IsBlank(sale.branch)
    ensures Violation(Prop(Branch), BranchNameTooLong) in SaleViolations(sale, utcNow)
        <==> Utf16Length(sale.branch) > MaxNameLength
  {
    InSaleViolations(sale, utcNow, Violation(Prop(Branch), BranchRequired));
    InSaleViolations(sale, utcNow, Violation(Prop(Branch), BranchNameTooLong));
  }

  lemma SaleItemsMessage(sale: Sale, utcNow: Ticks)
    ensures Violation(Prop(SaleItems), SaleItemsRequired) in SaleViolations(sale, utcNow)
        <==> |sale.items| == 0
  {
    InSaleViolations(sale, utcNow, Violation(Prop(SaleItems), SaleItemsRequired));
  }

  lemma TotalAmountMessage(sale: Sale, utcNow: Ticks)
    ensures Violation(Prop(TotalAmount), TotalAmountNegative) in SaleViolations(sale, utcNow)
        <==> sale.totalAmount < 0.0
  {
    InSaleViolations(sale, utcNow, Violation(Prop(TotalAmount), TotalAmountNegative));
  }

  /** The failures SaleValidator reports on element `i` of the items, and where they come from. */
  lemma InSaleItemViolations(sale: Sale, utcNow: Ticks, i: nat, name: PropName, message: Message)
    requires i < |sale.items|
    ensures Violation(Item(SaleItems, i, name), message) in SaleViolations(sale, utcNow)
        <==> (|| Violation(Prop(name), message) in SaleItemViolations(sale.items[i])
              || Violation(Prop(name), message) in SaleItemQuantityViolations(sale.items[i]))
  {
    var v := Violation(Item(SaleItems, i, name), message);
    InSaleViolations(sale, utcNow, v);
    ForEachContains(SaleItems, sale.items, SaleItemViolations, i, name, message);
    ForEachContains(SaleItems, sale.items, SaleItemQuantityViolations, i, name, message);
  }

  /** Which messages the two item validators report on one item: each exactly when its rule fails. */
  lemma SaleItemRuleMessages(item: SaleItem)
    ensures Violation(Prop(ProductName), ProductNameRequired) in SaleItemViolations(item) <==> IsBlank(item.productName)
    ensures Violation(Prop(ProductName), ProductNameTooLong) in SaleItemViolations(item) <==> Utf16Length(item.productName) > MaxNameLength
    ensures Violation(Prop(Quantity), QuantityOutOfRange) in SaleItemViolations(item) <==> !(1 <= item.quantity <= 20)
    ensures Violation(Prop(UnitPrice), UnitPriceNotPositive) in SaleItemViolations(item) <==> item.unitPrice <= 0.0
    ensures Violation(Prop(Quantity), ItemQuantityOutOfRange) in SaleItemQuantityViolations(item) <==> !(1 <= item.quantity <= 20)
    ensures Violation(Prop(Quantity), ItemQuantityOutOfRange) !in SaleItemViolations(item)
    ensures forall v :: v in SaleItemQuantityViolations(item) ==> v.message == ItemQuantityOutOfRange
  {
  }

  /** Which messages SaleValidator reports on the product name of item `i`. */
  lemma SaleItemProductNameMessages(sale: Sale, utcNow: Ticks, i: nat)
    requires i < |sale.items|
    ensures Violation(Item(SaleItems, i, ProductName), ProductNameRequired) in SaleViolations(sale, utcNow)
        <==> IsBlank(sale.items[i].productName)
    ensures Violation(Item(SaleItems, i, ProductName), ProductNameTooLong) in SaleViolations(sale, utcNow)
        <==> Utf16Length(sale.items[i].productName) > MaxNameLength
  {
    SaleItemRuleMessages(sale.items[i]);
    InSaleItemViolations(sale, utcNow, i, ProductName, ProductNameRequired);
    InSaleItemViolations(sale, utcNow, i, ProductName, ProductNameTooLong);
  }

  /**
   * Both item validators run, so a quantity outside 1..20 is reported twice
   * on the same item, once by each.
   */
  lemma SaleItemQuantityMessages(sale: Sale, utcNow: Ticks, i: nat)
    requires i < |sale.items|
    ensures Violation(Item(SaleItems, i, Quantity), QuantityOutOfRange) in SaleViolations(sale, utcNow)
        <==> !(1 <= sale.items[i].quantity <= 20)
    ensures Violation(Item(SaleItems, i, Quantity), ItemQuantityOutOfRange) in SaleViolations(sale, utcNow)
        <==> !(1 <= sale.items[i].quantity <= 20)
  {
    SaleItemRuleMessages(sale.items[i]);
    InSaleItemViolations(sale, utcNow, i, Quantity, QuantityOutOfRange);
    InSaleItemViolations(sale, utcNow, i, Quantity, ItemQuantityOutOfRange);
  }

  /** Which message SaleValidator reports on the unit price of item `i`. */
  lemma SaleItemUnitPriceMessage(sale: Sale, utcNow: Ticks, i: nat)
    requires i < |sale.items|
    ensures Violation(Item(SaleItems, i, UnitPrice), UnitPriceNotPositive) in SaleViolations(sale, utcNow)
        <==> sale.items[i].unitPrice <= 0.0
  {
    SaleItemRuleMessages(sale.items[i]);
    InSaleItemViolations(sale, utcNow, i, UnitPrice, UnitPriceNotPositive);
  }

  /**
   * A sale just constructed (and validated no earlier) is invalid: no sale
   * number, blank customer and branch, no items.
   */
  lemma NewSaleIsInvalid(constructedAt: Ticks, utcNow: Ticks)
    requires constructedAt != DefaultDate && constructedAt <= utcNow
    ensures SaleViolations(NewSale(constructedAt), utcNow) == [
      Violation(Prop(SaleNumber), SaleNumberRequired),
      Violation(Prop(Customer), CustomerNameRequired),
      Violation(Prop(Branch), BranchRequired),
      Violation(Prop(SaleItems), SaleItemsRequired)]
    ensures !NewSale(constructedAt).Validate(utcNow).isValid
  {
  }
}
