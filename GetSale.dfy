/**
 * Sales/GetSale: the command, GetSaleValidator and GetSaleHandler, which
 * looks a sale up by its sale number.
 */
module GetSale {
  import opened Primitives
  import opened Validation
  import opened Outcomes
  import Domain
  import Repositories

  /** GetSaleCommand: the sale number to look up, its only member. */
  datatype GetSaleCommand = GetSaleCommand(saleNumber: Int64)

  /** GetSaleValidator: RuleFor(SaleNumber).NotEmpty(), so 0 is the only number rejected. */
  function GetSaleViolations(command: GetSaleCommand): (r: seq<Violation>)
    ensures r == [] <==> command.saleNumber != 0
    ensures r != [] ==> r == [Violation(Prop(SaleNumber), SaleNumberMissing)]
  {
    Check(command.saleNumber != 0, SaleNumber, SaleNumberMissing)
  }

  /** Exactly one message, and on SaleNumber, for a sale number of 0; none otherwise, negative numbers included. */
  lemma GetSaleMessages(command: GetSaleCommand, field: Field)
    ensures MessagesFor(GetSaleViolations(command), field)
         == When(command.saleNumber == 0 && field == Prop(SaleNumber), SaleNumberMissing)
  {
    CheckMessages(command.saleNumber != 0, SaleNumber, SaleNumberMissing, field);
  }

  /** The InvalidOperationException message for a sale number nobody carries. */
  function SaleNumberNotFoundMessage(saleNumber: Int64): (s: string)
    ensures |s| == 33 + |Int64Text(saleNumber)|
    ensures s[..22] == "Sale with Sale Number " && s[|s| - 11..] == " not found."
    ensures s[22..|s| - 11] == Int64Text(saleNumber)
  {
    "Sale with Sale Number " + Int64Text(saleNumber) + " not found."
  }

  /**
   * The message names the sale number: it reads back from the text between
   * the prefix and the suffix, so two numbers never share a message.
   */
  lemma SaleNumberNotFoundMessageNamesTheNumber(saleNumber: Int64, other: Int64)
    ensures var s := SaleNumberNotFoundMessage(saleNumber); ParseInt64Text(s[22..|s| - 11]) == saleNumber
    ensures SaleNumberNotFoundMessage(saleNumber) == SaleNumberNotFoundMessage(other) <==> saleNumber == other
  {
    Int64TextRoundTrip(saleNumber);
    Int64TextRoundTrip(other);
  }

  class GetSaleHandler {
    const repository: Repositories.SaleRepository

    constructor(repository: Repositories.SaleRepository)
      ensures this.repository == repository
    {
      this.repository := repository;
    }

    /**
     * Handle: a sale number of 0 fails validation before any lookup; a number
     * no stored sale carries is an InvalidOperation (not a NotFound);
     * otherwise some stored sale with that number comes back. The store is
     * only read.
     */
    method Handle(command: GetSaleCommand) returns (result: HandlerResult<Domain.Sale>)
      requires repository.Valid()
      ensures result.Ok? || result.ValidationFailed? || result.InvalidOperation?
      ensures result.ValidationFailed? <==> command.saleNumber == 0
      ensures result.ValidationFailed? ==> result.errors == [Violation(Prop(SaleNumber), SaleNumberMissing)]
      ensures result.InvalidOperation? <==>
        command.saleNumber != 0 && forall id :: id in repository.sales ==> repository.sales[id].saleNumber != command.saleNumber
      ensures result.InvalidOperation? ==> result.message == SaleNumberNotFoundMessage(command.saleNumber)
      ensures result.Ok? ==>
        && result.value.id in repository.sales
        && repository.sales[result.value.id] == result.value
        && result.value.saleNumber == command.saleNumber
    {
      var errors := GetSaleViolations(command);
      if errors != [] {
        return ValidationFailed(errors);
      }
      var sale := repository.GetBySaleNumber(command.saleNumber);
      if sale.None? {
        return InvalidOperation(SaleNumberNotFoundMessage(command.saleNumber));
      }
      return Ok(sale.value);
    }
  }
}
