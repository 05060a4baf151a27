/**
 * The part of FluentValidation the sale validators use, written out: a
 * validator is an ordered list of rules, every rule is evaluated (a failing
 * rule does not stop the ones after it, nor the next rule chained on the same
 * property), and the failures come out in declaration order, and for a rule
 * over a collection in item order.
 */
module Validation {

  /** The property names FluentValidation reports (the C# member names). */
  datatype PropName =
    | SaleNumber | SaleDate | Customer | Branch | SaleItems | TotalAmount
    | ProductName | Quantity | UnitPrice | Discount
    | SaleId | TotalSaleAmount | Name | Status

  /** A property path: `Customer`, or `SaleItems[2].Quantity` for a rule on a collection element. */
  datatype Field =
    | Prop(name: PropName)
    | Item(collection: PropName, index: nat, name: PropName)

  /** The property of the validated object a path starts at. */
  function Root(field: Field): PropName {
    match field
    case Prop(name) => name
    case Item(collection, _, _) => collection
  }

  /**
   * The messages the sale validators attach to their rules (WithMessage),
   * one constructor per distinct text; Text() is the text itself.
   */
  datatype Message =
    // SaleValidator (Domain)
    | SaleNumberRequired
    | SaleDateRequired
    | SaleDateInFuture
    | CustomerNameRequired
    | CustomerNameTooLong
    | BranchRequired
    | BranchNameTooLong
    | SaleItemsRequired
    | ItemQuantityOutOfRange
    | TotalAmountNegative
    // SaleItemValidator (Domain)
    | ProductNameRequired
    | ProductNameTooLong
    | QuantityOutOfRange
    | UnitPriceNotPositive
    // CreateSaleValidator, UpdateSaleValidator, CreateSaleRequestValidator and their item validators
    | SaleDateNotPast
    | CustomerRequired
    | BranchNotValid
    | SaleItemsMissing
    | QuantityNotPositive
    | QuantityAboveLimit
    // UpdateSaleValidator and its item validator
    | SaleIdRequired
    | TotalSaleAmountNotPositive
    | DiscountNegative
    | TotalAmountNotPositive
    // GetSaleValidator
    | SaleNumberMissing
    // UpdateSaleRequestValidator
    | SaleNameRequired
    | SaleNameTooLong
    | SaleStatusRequired
    | SaleStatusInvalid
  {
    function Text(): string {
      match this
      case SaleNumberRequired => "Sale number is required."
      case SaleDateRequired => "Sale date is required."
      case SaleDateInFuture => "Sale date cannot be in the future."
      case CustomerNameRequired => "Customer name is required."
      case CustomerNameTooLong => "Customer name cannot exceed 100 characters."
      case BranchRequired => "Branch is required."
      case BranchNameTooLong => "Branch name cannot exceed 100 characters."
      case SaleItemsRequired => "Sale must include at least one item."
      case ItemQuantityOutOfRange => "Each item quantity must be between 1 and 20."
      case TotalAmountNegative => "Total amount must be greater than or equal to zero."
      case ProductNameRequired => "Product name is required."
      case ProductNameTooLong => "Product name cannot exceed 100 characters."
      case QuantityOutOfRange => "Quantity must be between 1 and 20."
      case UnitPriceNotPositive => "Unit price must be greater than zero."
      case SaleDateNotPast => "Sale date must be today or in the past."
      case CustomerRequired => "Customer is required."
      case BranchNotValid => "Branch must be a valid option."
      case SaleItemsMissing => "Sale must contain at least one item."
      case QuantityNotPositive => "Quantity must be greater than zero."
      case QuantityAboveLimit => "Cannot sell more than 20 identical items."
      case SaleIdRequired => "Sale ID is required."
      case TotalSaleAmountNotPositive => "Total sale amount must be greater than 0."
      case DiscountNegative => "Discount cannot be negative."
      case TotalAmountNotPositive => "Total amount must be greater than zero."
      case SaleNumberMissing => "Sale Number is required"
      case SaleNameRequired => "Sale name is required."
      case SaleNameTooLong => "Sale name cannot exceed 100 characters."
      case SaleStatusRequired => "Sale status is required."
      case SaleStatusInvalid => "Sale status is invalid."
    }
  }

  /** One ValidationFailure: the property path and the message. */
  datatype Violation = Violation(field: Field, message: Message)

  /** ValidationResultDetail: IsValid and the errors, as Validate() returns them. */
  datatype ValidationResultDetail = ValidationResultDetail(isValid: bool, errors: seq<Violation>)

  /** One rule on one property: no failure when it holds, its message when it does not. */
  function Check(holds: bool, prop: PropName, message: Message): seq<Violation> {
    if holds then [] else [Violation(Prop(prop), message)]
  }

  /**
   * Every failure lies under property `prop`: what a rule chain started with
   * RuleFor(prop) or RuleForEach(prop) can report.
   */
  ghost predicate Under(vs: seq<Violation>, prop: PropName) {
    forall v :: v in vs ==> Root(v.field) == prop
  }

  /** Every failure of an item validator refers to a property of the item itself. */
  ghost predicate TopLevel(vs: seq<Violation>) {
    forall v :: v in vs ==> v.field.Prop?
  }

  /** The failures of an item validator, re-rooted at element `index` of `collection`. */
  function AtItem(collection: PropName, index: nat, vs: seq<Violation>): (r: seq<Violation>)
    ensures |r| == |vs|
  {
    seq(|vs|, k requires 0 <= k < |vs| => Violation(Item(collection, index, vs[k].field.name), vs[k].message))
  }

  /**
   * RuleForEach(collection) (and ChildRules): the item rules run on every
   * element, and element 0's failures come first.
   */
  function ForEach<T>(collection: PropName, items: seq<T>, rules: T -> seq<Violation>): (r: seq<Violation>)
    ensures r == [] <==> forall i :: 0 <= i < |items| ==> rules(items[i]) == []
    ensures forall v :: v in r ==> v.field.Item? && v.field.collection == collection && v.field.index < |items|
    decreases |items|
  {
    if items == [] then []
    else
      var n := |items| - 1;
      assert forall i :: 0 <= i < n ==> items[..n][i] == items[i];
      ForEach(collection, items[..n], rules) + AtItem(collection, n, rules(items[n]))
  }

  /** Re-rooting keeps each top-level failure, now reported on the element's property. */
  lemma AtItemContains(collection: PropName, index: nat, vs: seq<Violation>, name: PropName, message: Message)
    requires TopLevel(vs)
    ensures Violation(Item(collection, index, name), message) in AtItem(collection, index, vs)
        <==> Violation(Prop(name), message) in vs
  {
    var r := AtItem(collection, index, vs);
    if Violation(Prop(name), message) in vs {
      var k :| 0 <= k < |vs| && vs[k] == Violation(Prop(name), message);
      assert r[k] == Violation(Item(collection, index, name), message);
    }
    if Violation(Item(collection, index, name), message) in r {
      var k :| 0 <= k < |r| && r[k] == Violation(Item(collection, index, name), message);
      assert vs[k] == Violation(Prop(name), message);
    }
  }

  /**
   * A collection rule reports a failure on a property of element `i` exactly
   * when the item rules report it on that element.
   */
  lemma {:induction false} ForEachContains<T>(collection: PropName, items: seq<T>, rules: T -> seq<Violation>, i: nat, name: PropName, message: Message)
    requires i < |items|
    requires TopLevel(rules(items[i]))
    ensures Violation(Item(collection, i, name), message) in ForEach(collection, items, rules)
        <==> Violation(Prop(name), message) in rules(items[i])
    decreases |items|
  {
    var n := |items| - 1;
    var last := AtItem(collection, n, rules(items[n]));
    if i == n {
      AtItemContains(collection, n, rules(items[n]), name, message);
    } else {
      assert items[..n][i] == items[i];
      ForEachContains(collection, items[..n], rules, i, name, message);
      assert forall k :: 0 <= k < |last| ==> last[k].field.index == n;
    }
  }

  /** Two collection rules agree when their item rules agree element by element, whatever the item types. */
  lemma {:induction false} ForEachPointwise<A, B>(collection: PropName, xs: seq<A>, f: A -> seq<Violation>, ys: seq<B>, g: B -> seq<Violation>)
    requires |xs| == |ys|
    requires forall i :: 0 <= i < |xs| ==> f(xs[i]) == g(ys[i])
    ensures ForEach(collection, xs, f) == ForEach(collection, ys, g)
    decreases |xs|
  {
    if xs != [] {
      var n := |xs| - 1;
      assert forall i :: 0 <= i < n ==> xs[..n][i] == xs[i] && ys[..n][i] == ys[i];
      ForEachPointwise(collection, xs[..n], f, ys[..n], g);
    }
  }

  /** The messages reported on one property path, in the order they were reported. */
  function MessagesFor(vs: seq<Violation>, field: Field): seq<Message>
    decreases |vs|
  {
    if vs == [] then []
    else
      var last := vs[|vs| - 1];
      MessagesFor(vs[..|vs| - 1], field) + (if last.field == field then [last.message] else [])
  }

  /** The messages one rule contributes to its property: its message when it fails. */
  function When(fails: bool, message: Message): seq<Message> {
    if fails then [message] else []
  }

  lemma {:induction false} MessagesForAppend(a: seq<Violation>, b: seq<Violation>, field: Field)
    ensures MessagesFor(a + b, field) == MessagesFor(a, field) + MessagesFor(b, field)
    decreases |b|
  {
    if b == [] {
      assert a + b == a;
    } else {
      var n := |b| - 1;
      assert (a + b)[..|a + b| - 1] == a + b[..n];
      MessagesForAppend(a, b[..n], field);
    }
  }

  lemma {:induction false} MessagesForAbsent(vs: seq<Violation>, field: Field)
    requires forall v :: v in vs ==> v.field != field
    ensures MessagesFor(vs, field) == []
    decreases |vs|
  {
    if vs != [] {
      MessagesForAbsent(vs[..|vs| - 1], field);
    }
  }

  /** A rule chain on one property reports nothing on a path under another property. */
  lemma MessagesForElsewhere(vs: seq<Violation>, prop: PropName, field: Field)
    requires Under(vs, prop)
    requires Root(field) != prop
    ensures MessagesFor(vs, field) == []
  {
    MessagesForAbsent(vs, field);
  }

  /** A single condition reports its message, on its own property only, exactly when it fails. */
  lemma CheckMessages(holds: bool, prop: PropName, message: Message, field: Field)
    ensures MessagesFor(Check(holds, prop, message), field) == When(!holds && field == Prop(prop), message)
  {
    var r := Check(holds, prop, message);
    if !holds {
      assert r[..0] == [];
    }
  }
}
