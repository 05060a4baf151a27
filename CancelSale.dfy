/**
 * Sales/CancelSale: CancelSaleHandler over the sale store.
 */
module CancelSale {
  import opened Primitives
  import opened Validation
  import opened Outcomes
  import Domain
  import Repositories

  /** CancelSaleCommand: the id of the sale to cancel. */
  datatype CancelSaleCommand = CancelSaleCommand(id: Guid)

  datatype CancelSaleResponse = CancelSaleResponse(success: bool)

  class CancelSaleHandler {
    const repository: Repositories.SaleRepository

    constructor(repository: Repositories.SaleRepository)
      ensures this.repository == repository
    {
      this.repository := repository;
    }

    /**
     * Handle: CancelSaleValidator (whose rules are not part of this model, so
     * it is passed in as `validator`) runs first; a valid request cancels the
     * sale. An unknown id is NotFound and the store is left as it was; a
     * known one, whatever its status, becomes Cancelled and the response is
     * always Success = true.
     */
    method Handle(request: CancelSaleCommand, validator: CancelSaleCommand -> seq<Violation>)
      returns (result: HandlerResult<CancelSaleResponse>)
      requires repository.Valid()
      modifies repository
      ensures repository.Valid()
      ensures result.Ok? || result.ValidationFailed? || result.NotFound?
      ensures result.ValidationFailed? <==> validator(request) != []
      ensures result.ValidationFailed? ==> result.errors == validator(request)
      ensures result.NotFound? <==> validator(request) == [] && request.id !in old(repository.sales)
      ensures result.NotFound? ==> result.message == NotFoundMessage(request.id)
      ensures !result.Ok? ==> repository.sales == old(repository.sales)
      ensures result.Ok? ==>
        && result.value.success
        && request.id in old(repository.sales)
        && repository.sales == Repositories.WithStatus(old(repository.sales), request.id, Domain.Cancelled)
    {
      var errors := validator(request);
      if errors != [] {
        return ValidationFailed(errors);
      }
      var success := repository.Cancel(request.id);
      if !success {
        return NotFound(NotFoundMessage(request.id));
      }
      return Ok(CancelSaleResponse(true));
    }
  }
}
