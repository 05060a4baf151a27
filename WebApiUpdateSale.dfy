/**
 * WebApi/Features/Sales/UpdateSale: the request the API accepts and
 * UpdateSaleRequestValidator.
 */
module WebApiUpdateSale {
  import opened Primitives
  import opened Validation

  /** UpdateSaleRequest: Status is a plain int, 0 unless set. */
  datatype UpdateSaleRequest = UpdateSaleRequest(name: string, totalAmount: real, status: Int32, saleDate: Ticks)

  /** The status values the Must rule lists. */
  predicate IsListedStatus(status: Int32) {
    status == 0 || status == 1 || status == 2
  }

  /** RuleFor(Name): NotEmpty, then MaximumLength(100), both evaluated. */
  function NameRules(request: UpdateSaleRequest): (r: seq<Violation>)
    ensures Under(r, Name)
  {
    Check(!IsBlank(request.name), Name, SaleNameRequired)
    + Check(Utf16Length(request.name) <= 100, Name, SaleNameTooLong)
  }

  /** RuleFor(TotalAmount).GreaterThan(0). */
  function TotalAmountRules(request: UpdateSaleRequest): (r: seq<Violation>)
    ensures Under(r, TotalAmount)
  {
    Check(request.totalAmount > 0.0, TotalAmount, TotalAmountNotPositive)
  }

  /** RuleFor(Status): NotEmpty (not 0), then Must (0, 1 or 2), both evaluated. */
  function StatusRules(request: UpdateSaleRequest): (r: seq<Violation>)
    ensures Under(r, Status)
  {
    Check(request.status != 0, Status, SaleStatusRequired)
    + Check(IsListedStatus(request.status), Status, SaleStatusInvalid)
  }

  /** RuleFor(SaleDate): not after the UTC clock `utcNow`. */
  function SaleDateRules(request: UpdateSaleRequest, utcNow: Ticks): (r: seq<Violation>)
    ensures Under(r, SaleDate)
  {
    Check(request.saleDate <= utcNow, SaleDate, SaleDateInFuture)
  }

  /** UpdateSaleRequestValidator: its rules in declaration order, every one evaluated. */
  function UpdateSaleRequestViolations(request: UpdateSaleRequest, utcNow: Ticks): (r: seq<Violation>)
    ensures r == [] <==> RequestIsValid(request, utcNow)
  {
    NameRules(request)
    + TotalAmountRules(request)
    + StatusRules(request)
    + SaleDateRules(request, utcNow)
  }

  /** What a valid request is, rule by rule: of the status values only 1 and 2 pass. */
  predicate RequestIsValid(request: UpdateSaleRequest, utcNow: Ticks) {
    && !IsBlank(request.name)
    && Utf16Length(request.name) <= 100
    && request.totalAmount > 0.0
    && (request.status == 1 || request.status == 2)
    && request.saleDate <= utcNow
  }

  /**
   * The messages reported on Status: "required" exactly for 0, "invalid"
   * exactly for a value other than 0, 1 and 2, so each bad value gets one
   * message and 1 and 2 get none.
   */
  lemma {:induction false} StatusMessages(request: UpdateSaleRequest, utcNow: Ticks)
    ensures MessagesFor(UpdateSaleRequestViolations(request, utcNow), Prop(Status))
         == When(request.status == 0, SaleStatusRequired) + When(!IsListedStatus(request.status), SaleStatusInvalid)
    ensures request.status == 0 ==>
      MessagesFor(UpdateSaleRequestViolations(request, utcNow), Prop(Status)) == [SaleStatusRequired]
    ensures request.status == 3 ==>
      MessagesFor(UpdateSaleRequestViolations(request, utcNow), Prop(Status)) == [SaleStatusInvalid]
    ensures MessagesFor(UpdateSaleRequestViolations(request, utcNow), Prop(Status)) == []
        <==> request.status == 1 || request.status == 2
  {
    var field := Prop(Status);
    var a := NameRules(request);
    var b := TotalAmountRules(request);
    var c := StatusRules(request);
    var d := SaleDateRules(request, utcNow);
    MessagesForAppend(a, b, field);
    MessagesForAppend(a + b, c, field);
    MessagesForAppend(a + b + c, d, field);
    MessagesForElsewhere(a, Name, field);
    MessagesForElsewhere(b, TotalAmount, field);
    MessagesForElsewhere(d, SaleDate, field);
    MessagesForAppend(Check(request.status != 0, Status, SaleStatusRequired),
                      Check(IsListedStatus(request.status), Status, SaleStatusInvalid), field);
    CheckMessages(request.status != 0, Status, SaleStatusRequired, field);
    CheckMessages(IsListedStatus(request.status), Status, SaleStatusInvalid, field);
  }

  /** The name rules: blank is "required", more than 100 UTF-16 units is "too long"; 100 passes. */
  lemma {:induction false} NameMessages(request: UpdateSaleRequest, utcNow: Ticks)
    ensures MessagesFor(UpdateSaleRequestViolations(request, utcNow), Prop(Name))
         == When(IsBlank(request.name), SaleNameRequired) + When(Utf16Length(request.name) > 100, SaleNameTooLong)
  {
    var field := Prop(Name);
    var a := NameRules(request);
    var b := TotalAmountRules(request);
    var c := StatusRules(request);
    var d := SaleDateRules(request, utcNow);
    assert UpdateSaleRequestViolations(request, utcNow) == a + b + c + d;
    MessagesForAppend(a, b, field);
    MessagesForAppend(a + b, c, field);
    MessagesForAppend(a + b + c, d, field);
    MessagesForElsewhere(b, TotalAmount, field);
    MessagesForElsewhere(c, Status, field);
    MessagesForElsewhere(d, SaleDate, field);
    MessagesForAppend(Check(!IsBlank(request.name), Name, SaleNameRequired),
                      Check(Utf16Length(request.name) <= 100, Name, SaleNameTooLong), field);
    CheckMessages(!IsBlank(request.name), Name, SaleNameRequired, field);
    CheckMessages(Utf16Length(request.name) <= 100, Name, SaleNameTooLong, field);
  }

  /** The total must be strictly positive and the date not after the UTC clock. */
  lemma TotalAndDateMessages(request: UpdateSaleRequest, utcNow: Ticks)
    ensures Violation(Prop(TotalAmount), TotalAmountNotPositive) in UpdateSaleRequestViolations(request, utcNow)
        <==> request.totalAmount <= 0.0
    ensures Violation(Prop(SaleDate), SaleDateInFuture) in UpdateSaleRequestViolations(request, utcNow)
        <==> request.saleDate > utcNow
  {
    var v := Violation(Prop(TotalAmount), TotalAmountNotPositive);
    var w := Violation(Prop(SaleDate), SaleDateInFuture);
    assert v !in NameRules(request) && v !in StatusRules(request) && v !in SaleDateRules(request, utcNow);
    assert w !in NameRules(request) && w !in StatusRules(request) && w !in TotalAmountRules(request);
  }
}
