# Sales service rules, modelled in Dafny

A model of the sale rules of the developer-evaluation sales service
(ASP.NET Core, MediatR, FluentValidation, EF Core). Four parts are modelled:

- **The seven validators.** `SaleValidator`/`SaleItemValidator` (domain),
  `CreateSaleValidator` and `UpdateSaleValidator` with their
  `SaleItemCommandValidator`s (application), `GetSaleValidator`, and
  `CreateSaleRequestValidator`/`UpdateSaleRequestValidator` (web API). Each
  is a function from the record to its ordered list of failures, each a
  property path and a message. FluentValidation is written out in
  `Validation.dfy`: every rule runs (chained rules too), failures come in
  declaration order and by item order for collection rules, `NotEmpty` means
  non-blank / non-zero / non-empty by type, `MaximumLength` counts UTF-16
  units. Messages are the `Message` datatype; `Message.Text()` holds the
  exact texts. Each validator is a concatenation of rule chains, one per
  property. For each validator, lemmas state which message each input gets,
  as an if-and-only-if.
- **The pricing loop** of `CreateSaleHandler`. It is a method over the mapped
  sale, proved against `PricedTotal`. The quirks are kept as written:
  - each item with 4..9 units overwrites the total with `q*p*0.10`, and each
    with 10..20 units with `q*p*0.20`;
  - the last such item wins.
- **The sale store** (`SaleRepository`). It is a class over a map from Id to
  sale, with its seven operations. Cancel and Update set the status without
  looking at it.
- **The four command handlers.** They are methods over the store that return
  `HandlerResult`: `Ok`, `ValidationFailed` (ValidationException),
  `NotFound` (KeyNotFoundException) or `InvalidOperation`
  (InvalidOperationException). Each validates first, then looks up, then
  writes. A failure leaves the store as it was.

Modules: `Primitives` (Int32/Int64, DateTime as ticks, Guid, the blank test,
UTF-16 length, the text of a Guid and of a long), `Validation`, `Outcomes`,
`Domain`, `Repositories`, `CreateSale`, `UpdateSale`, `CancelSale`, `GetSale`,
`WebApiCreateSale`, `WebApiUpdateSale`.

Environment inputs are parameters:
- `DateTime.Now` is `now` and `DateTime.UtcNow` is `utcNow`, kept apart as the
  validators keep them;
- the Guid the store generates for a new sale is `generatedId`.

Entities and commands are values, so `Validate()` cannot change them.

## Model

| member | source | states |
|---|---|---|
| `Domain.Sale.Validate` | template/backend/src/Ambev.DeveloperEvaluation.Domain/Entities/Sale.cs:65-74 | IsValid holds exactly when SaleValidator reports nothing, and exactly when every entity rule holds; Errors is the validator's list, in its order |
| `Domain.SaleViolations` | template/backend/src/Ambev.DeveloperEvaluation.Domain/Validation/SaleValidator.cs:14-47 | SaleValidator reports nothing exactly when every rule of the sale and of each of its items holds (all rules are evaluated) |
| `Domain.SaleItemViolations` | template/backend/src/Ambev.DeveloperEvaluation.Domain/Validation/SaleValidator.cs:55-66 | SaleItemValidator reports nothing exactly when the name is non-blank and at most 100 UTF-16 units, the quantity is in 1..20 and the price is positive; its failures are on the item's own properties |
| `Domain.SaleItemQuantityViolations` | template/backend/src/Ambev.DeveloperEvaluation.Domain/Validation/SaleValidator.cs:38-43 | the ChildRules check reports nothing exactly when the quantity is in 1..20 |
| `Domain.InSaleViolations` | template/backend/src/Ambev.DeveloperEvaluation.Domain/Validation/SaleValidator.cs:14-47 | a failure is in the sale's list exactly when the rule chain on its own property reports it: no rule reports on another property |
| `Domain.SaleNumberMessage` | template/backend/src/Ambev.DeveloperEvaluation.Domain/Validation/SaleValidator.cs:16-17 | "Sale number is required." is reported exactly when the sale number is 0 |
| `Domain.SaleDateMessages` | template/backend/src/Ambev.DeveloperEvaluation.Domain/Validation/SaleValidator.cs:19-21 | "required" exactly for the default date; "cannot be in the future" exactly when the date is after the UTC clock |
| `Domain.CustomerMessages` | template/backend/src/Ambev.DeveloperEvaluation.Domain/Validation/SaleValidator.cs:23-25 | "required" exactly for a blank customer; "cannot exceed 100 characters" exactly above 100 UTF-16 units (100 passes) |
| `Domain.BranchMessages` | template/backend/src/Ambev.DeveloperEvaluation.Domain/Validation/SaleValidator.cs:27-29 | the same two rules on the branch; there is no branch-membership rule at this layer |
| `Domain.SaleItemsMessage` | template/backend/src/Ambev.DeveloperEvaluation.Domain/Validation/SaleValidator.cs:31-32 | "Sale must include at least one item." exactly for an empty item list |
| `Domain.TotalAmountMessage` | template/backend/src/Ambev.DeveloperEvaluation.Domain/Validation/SaleValidator.cs:45-46 | the total is reported exactly when negative, so 0 is accepted |
| `Domain.InSaleItemViolations` | template/backend/src/Ambev.DeveloperEvaluation.Domain/Validation/SaleValidator.cs:31-43 | a failure on element i is reported exactly when one of the two item rule sets reports it on that element |
| `Domain.SaleItemRuleMessages` | template/backend/src/Ambev.DeveloperEvaluation.Domain/Validation/SaleValidator.cs:57-65 | each item message is reported exactly when its rule fails; the ChildRules set only ever reports its own quantity message |
| `Domain.SaleItemProductNameMessages` | template/backend/src/Ambev.DeveloperEvaluation.Domain/Validation/SaleValidator.cs:57-59 | element i's product name is reported as required exactly when blank and as too long exactly above 100 units |
| `Domain.SaleItemQuantityMessages` | template/backend/src/Ambev.DeveloperEvaluation.Domain/Validation/SaleValidator.cs:31-43 | a quantity outside 1..20 on element i is reported twice, once by SaleItemValidator and once by the ChildRules check; inside it, neither |
| `Domain.SaleItemUnitPriceMessage` | template/backend/src/Ambev.DeveloperEvaluation.Domain/Validation/SaleValidator.cs:64-65 | element i's unit price is reported exactly when not positive |
| `Domain.NewSaleIsInvalid` | template/backend/src/Ambev.DeveloperEvaluation.Domain/Entities/Sale.cs:52-55 | a sale fresh from the constructor fails with exactly: sale number, customer, branch, items required, in that order |
| `Repositories.WithStatus` | template/backend/src/Ambev.DeveloperEvaluation.ORM/Repositories/SaleRepository.cs:83-94 | setting a status in place keeps every key and every other sale, and changes nothing of the target but its status |
| `Repositories.CancelIsIdempotent` | template/backend/src/Ambev.DeveloperEvaluation.ORM/Repositories/SaleRepository.cs:83-94 | cancelling twice leaves the store as cancelling once |
| `Repositories.StatusChangeIgnoresCurrentStatus` | template/backend/src/Ambev.DeveloperEvaluation.ORM/Repositories/SaleRepository.cs:83-103 | the previous status of a stored sale has no effect: the last status set wins |
| `Repositories.SaleRepository.Create` | template/backend/src/Ambev.DeveloperEvaluation.ORM/Repositories/SaleRepository.cs:29-34 | the sale is added under its Id (or the generated one when its Id is Guid.Empty) and returned unchanged otherwise; nothing else changes |
| `Repositories.SaleRepository.GetById` | template/backend/src/Ambev.DeveloperEvaluation.ORM/Repositories/SaleRepository.cs:42-45 | some sale exactly when the Id is stored, and then the stored one |
| `Repositories.SaleRepository.GetByDateRange` | template/backend/src/Ambev.DeveloperEvaluation.ORM/Repositories/SaleRepository.cs:54-59 | exactly the stored sales with start <= SaleDate <= end, each once; nothing when start > end |
| `Repositories.SaleRepository.Delete` | template/backend/src/Ambev.DeveloperEvaluation.ORM/Repositories/SaleRepository.cs:67-76 | true exactly when the Id was stored; the store loses that sale and nothing else (no change when unknown) |
| `Repositories.SaleRepository.GetBySaleNumber` | template/backend/src/Ambev.DeveloperEvaluation.ORM/Repositories/SaleRepository.cs:78-81 | a stored sale carrying the number, or none exactly when no stored sale carries it |
| `Repositories.SaleRepository.Cancel` | template/backend/src/Ambev.DeveloperEvaluation.ORM/Repositories/SaleRepository.cs:83-94 | true exactly when the Id was stored; that sale, whatever its status, becomes Cancelled and nothing else changes |
| `Repositories.SaleRepository.Update` | template/backend/src/Ambev.DeveloperEvaluation.ORM/Repositories/SaleRepository.cs:96-103 | always true; the sale is stored back with status Modified whatever its status was |
| `CreateSale.SaleItemCommandViolations` | template/backend/src/Ambev.DeveloperEvaluation.Application/Sales/CreateSale/CreateSaleValidator.cs:56-63 | the item validator reports nothing exactly when the name is non-blank, the quantity in 1..20 and the price positive (no length rule) |
| `CreateSale.CreateSaleViolations` | template/backend/src/Ambev.DeveloperEvaluation.Application/Sales/CreateSale/CreateSaleValidator.cs:21-29 | CreateSaleValidator reports nothing exactly when the date is not after the local clock, customer non-blank, branch non-blank and "Main Branch", items non-empty and each valid |
| `CreateSale.InCreateSaleViolations` | template/backend/src/Ambev.DeveloperEvaluation.Application/Sales/CreateSale/CreateSaleValidator.cs:21-29 | a failure is reported exactly when the rule chain on its own property reports it |
| `CreateSale.SaleDateMessage` | template/backend/src/Ambev.DeveloperEvaluation.Application/Sales/CreateSale/CreateSaleValidator.cs:23 | "Sale date must be today or in the past." exactly when the date is after the local clock |
| `CreateSale.CustomerMessage` | template/backend/src/Ambev.DeveloperEvaluation.Application/Sales/CreateSale/CreateSaleValidator.cs:24 | "Customer is required." exactly for a blank customer |
| `CreateSale.BranchMessages` | template/backend/src/Ambev.DeveloperEvaluation.Application/Sales/CreateSale/CreateSaleValidator.cs:25-37 | "required" exactly for a blank branch, "valid option" exactly when it is not "Main Branch"; a blank branch gets both |
| `CreateSale.SaleItemsMessage` | template/backend/src/Ambev.DeveloperEvaluation.Application/Sales/CreateSale/CreateSaleValidator.cs:27 | "Sale must contain at least one item." exactly for an empty list |
| `CreateSale.ItemCommandRuleMessages` | template/backend/src/Ambev.DeveloperEvaluation.Application/Sales/CreateSale/CreateSaleValidator.cs:58-62 | each item message is reported exactly when its rule fails |
| `CreateSale.InItemCommandViolations` | template/backend/src/Ambev.DeveloperEvaluation.Application/Sales/CreateSale/CreateSaleValidator.cs:28 | a failure on element i is reported exactly when the item validator reports it on that element |
| `CreateSale.ItemQuantityMessages` | template/backend/src/Ambev.DeveloperEvaluation.Application/Sales/CreateSale/CreateSaleValidator.cs:59-60 | quantity 0 or less gets only "greater than zero", above 20 only "more than 20"; 1..20 neither |
| `CreateSale.ItemNameAndPriceMessages` | template/backend/src/Ambev.DeveloperEvaluation.Application/Sales/CreateSale/CreateSaleValidator.cs:58-62 | element i's name is reported exactly when blank, its price exactly when not positive |
| `CreateSale.NoRuleOnSaleNumberOrTotal` | template/backend/src/Ambev.DeveloperEvaluation.Application/Sales/CreateSale/CreateSaleValidator.cs:21-29 | changing the sale number or the total amount changes no failure |
| `CreateSale.EmptyCommandIsInvalid` | template/backend/tests/Ambev.DeveloperEvaluation.Unit/Application/Sale/CreateSaleHandlerTests.cs:53-65 | a command with nothing set fails with exactly: customer, branch required, branch not valid, items |
| `CreateSale.SaleFromCommand` | template/backend/src/Ambev.DeveloperEvaluation.Application/Sales/CreateSale/CreateSaleProfile.cs:13-15 | the mapped sale has no Id yet, the initial status, TotalAmount 0 (ignored by the profile) and the command's other members and items |
| `CreateSale.ApplyDiscounts` | template/backend/src/Ambev.DeveloperEvaluation.Application/Sales/CreateSale/CreateSaleHandler.cs:47-57 | the loop changes only TotalAmount, which ends as the last-write-wins price of the items |
| `CreateSale.LastQualifyingItemWins` | template/backend/src/Ambev.DeveloperEvaluation.Application/Sales/CreateSale/CreateSaleHandler.cs:47-57 | the final total is the amount of the last item with 4..20 units, whatever came before it: not a sum |
| `CreateSale.NoQualifyingItemKeepsTotal` | template/backend/src/Ambev.DeveloperEvaluation.Application/Sales/CreateSale/CreateSaleHandler.cs:47-57 | when no item has 4..20 units the total keeps its starting value |
| `CreateSale.SingleItemTotal` | template/backend/src/Ambev.DeveloperEvaluation.Application/Sales/CreateSale/CreateSaleHandler.cs:49-56 | one item: q*p*0.10 for 4..9 units, q*p*0.20 for 10..20, the starting total otherwise |
| `CreateSale.FiveAtOneHundred` | template/backend/src/Ambev.DeveloperEvaluation.Application/Sales/CreateSale/CreateSaleHandler.cs:49-52 | 5 units at 100 from a total of 0 give 50 |
| `CreateSale.TwoQualifyingItemsIsNotASum` | template/backend/src/Ambev.DeveloperEvaluation.Application/Sales/CreateSale/CreateSaleHandler.cs:47-57 | two qualifying items give the second one's amount |
| `CreateSale.CreateSaleHandler.Handle` | template/backend/src/Ambev.DeveloperEvaluation.Application/Sales/CreateSale/CreateSaleHandler.cs:34-65 | an invalid command fails with every violation and leaves the store untouched; a valid one is mapped, priced from 0 and stored under the generated key, and that stored sale is the result |
| `UpdateSale.UpdateSaleCommand.Validate` | template/backend/src/Ambev.DeveloperEvaluation.Application/Sales/UpdateSale/UpdateSaleCommand.cs:56-65 | IsValid holds exactly when UpdateSaleValidator reports nothing; Errors is its list in order |
| `UpdateSale.SaleItemCommandViolations` | template/backend/src/Ambev.DeveloperEvaluation.Application/Sales/UpdateSale/UpdateSaleValidator.cs:71-88 | the update item validator reports nothing exactly when name, quantity, price are valid, Discount >= 0 and TotalAmount > 0 |
| `UpdateSale.UpdateSaleViolations` | template/backend/src/Ambev.DeveloperEvaluation.Application/Sales/UpdateSale/UpdateSaleValidator.cs:22-45 | UpdateSaleValidator reports nothing exactly when Id non-empty, date not after the local clock, customer and branch valid, items valid and TotalSaleAmount > 0 |
| `UpdateSale.InItemCommandRules` | template/backend/src/Ambev.DeveloperEvaluation.Application/Sales/UpdateSale/UpdateSaleValidator.cs:71-88 | an item failure is reported exactly when the rule chain on its own property reports it |
| `UpdateSale.InUpdateSaleViolations` | template/backend/src/Ambev.DeveloperEvaluation.Application/Sales/UpdateSale/UpdateSaleValidator.cs:22-45 | a failure is reported exactly when the rule chain on its own property reports it |
| `UpdateSale.SaleIdMessage` | template/backend/src/Ambev.DeveloperEvaluation.Application/Sales/UpdateSale/UpdateSaleValidator.cs:24-25 | "Sale ID is required." exactly for Guid.Empty |
| `UpdateSale.SaleDateMessage` | template/backend/src/Ambev.DeveloperEvaluation.Application/Sales/UpdateSale/UpdateSaleValidator.cs:27-28 | the date is reported exactly when after the local clock |
| `UpdateSale.CustomerAndBranchMessages` | template/backend/src/Ambev.DeveloperEvaluation.Application/Sales/UpdateSale/UpdateSaleValidator.cs:30-35 | customer reported exactly when blank; branch "required" exactly when blank and "valid option" exactly when not "Main Branch" |
| `UpdateSale.SaleItemsMessage` | template/backend/src/Ambev.DeveloperEvaluation.Application/Sales/UpdateSale/UpdateSaleValidator.cs:37-38 | items reported exactly when the list is empty |
| `UpdateSale.TotalSaleAmountMessage` | template/backend/src/Ambev.DeveloperEvaluation.Application/Sales/UpdateSale/UpdateSaleValidator.cs:43-44 | the sale total is reported exactly when not positive, so 0 is rejected |
| `UpdateSale.ItemCommandRuleMessages` | template/backend/src/Ambev.DeveloperEvaluation.Application/Sales/UpdateSale/UpdateSaleValidator.cs:73-81 | name, quantity and price messages each exactly when their rule fails |
| `UpdateSale.ItemCommandExtraRuleMessages` | template/backend/src/Ambev.DeveloperEvaluation.Application/Sales/UpdateSale/UpdateSaleValidator.cs:83-87 | discount reported exactly when negative, line total exactly when not positive |
| `UpdateSale.InItemCommandViolations` | template/backend/src/Ambev.DeveloperEvaluation.Application/Sales/UpdateSale/UpdateSaleValidator.cs:40-41 | a failure on element i is reported exactly when the item validator reports it on that element |
| `UpdateSale.ItemQuantityNameAndPriceMessages` | template/backend/src/Ambev.DeveloperEvaluation.Application/Sales/UpdateSale/UpdateSaleValidator.cs:73-81 | the create-side item rules, on element i of an update |
| `UpdateSale.ItemDiscountAndTotalMessages` | template/backend/src/Ambev.DeveloperEvaluation.Application/Sales/UpdateSale/UpdateSaleValidator.cs:83-87 | the two update-only item rules, on element i |
| `UpdateSale.DefaultCommandIsInvalid` | template/backend/src/Ambev.DeveloperEvaluation.Application/Sales/UpdateSale/UpdateSaleCommand.cs:25-50 | a default command fails with exactly: Id, customer, branch required, branch not valid, items, sale total; so it is invalid |
| `UpdateSale.DefaultItemViolations` | template/backend/src/Ambev.DeveloperEvaluation.Application/Sales/UpdateSale/UpdateSaleCommand.cs:71-97 | a default item passes the discount rule (0 allowed) and fails name, quantity, price and line total |
| `UpdateSale.MergeInto` | template/backend/src/Ambev.DeveloperEvaluation.Application/Sales/UpdateSale/UpdateSaleHandler.cs:48 | the merge keeps Id, sale number and status, and takes date, customer, branch, items and the sale total from the command |
| `UpdateSale.UpdateSaleHandler.Handle` | template/backend/src/Ambev.DeveloperEvaluation.Application/Sales/UpdateSale/UpdateSaleHandler.cs:33-57 | invalid: every violation, store untouched; unknown Id: NotFound with the Id in the message, store untouched; otherwise the merged sale is stored as Modified; other sales never change |
| `UpdateSale.UpdateOfCancelledSale` | template/backend/src/Ambev.DeveloperEvaluation.Application/Sales/UpdateSale/UpdateSaleHandler.cs:33-57 | a sale stored and then cancelled through the store can still be updated: a valid update for its Id succeeds and the sale ends Modified, with the command's date, customer, branch and sale total and its own Id and number |
| `Outcomes.NotFoundMessageNamesTheSale` | template/backend/src/Ambev.DeveloperEvaluation.Application/Sales/UpdateSale/UpdateSaleHandler.cs:45 | the Id reads back from the KeyNotFoundException text (parsing the 36 characters after "Sale with ID "), so two Ids never get the same message |
| `Primitives.GuidText` | template/backend/src/Ambev.DeveloperEvaluation.Application/Sales/CancelSale/CancelSaleHandler.cs:39 | the text of a Guid in a message is 36 characters: dashes at 8, 13, 18 and 23, lower-case hex digits everywhere else |
| `Primitives.GuidTextRoundTrip` | template/backend/src/Ambev.DeveloperEvaluation.Application/Sales/CancelSale/CancelSaleHandler.cs:39 | Guid.Parse of that text gives the Guid back |
| `Primitives.ParseHexDigits` | template/backend/src/Ambev.DeveloperEvaluation.Application/Sales/UpdateSale/UpdateSaleHandler.cs:45 | the zero-padded hex digits of a number that fits the width read back as that number |
| `CancelSale.CancelSaleHandler.Handle` | template/backend/src/Ambev.DeveloperEvaluation.Application/Sales/CancelSale/CancelSaleHandler.cs:29-42 | invalid: every violation, no cancel; unknown Id: NotFound, store untouched; otherwise the sale becomes Cancelled and Success is true; Success is never false |
| `GetSale.GetSaleViolations` | template/backend/src/Ambev.DeveloperEvaluation.Application/Sales/GetSale/GetSaleValidator.cs:15-17 | nothing exactly when the sale number is not 0 (negatives pass); otherwise exactly one failure |
| `GetSale.GetSaleMessages` | template/backend/src/Ambev.DeveloperEvaluation.Application/Sales/GetSale/GetSaleValidator.cs:13-18 | the only message on any property is "Sale Number is required", once, and only for 0 |
| `GetSale.SaleNumberNotFoundMessageNamesTheNumber` | template/backend/src/Ambev.DeveloperEvaluation.Application/Sales/GetSale/GetSaleHandler.cs:41-43 | the sale number reads back from the InvalidOperationException text between "Sale with Sale Number " and " not found.", so two numbers never get the same message |
| `Primitives.Int64Text` | template/backend/src/Ambev.DeveloperEvaluation.Application/Sales/GetSale/GetSaleHandler.cs:43 | the text of a long is digits with a leading '-' exactly for a negative number |
| `Primitives.Int64TextRoundTrip` | template/backend/src/Ambev.DeveloperEvaluation.Application/Sales/GetSale/GetSaleHandler.cs:43 | long.Parse of that text gives the number back, negative numbers included |
| `Primitives.ParseDecimalDigits` | template/backend/src/Ambev.DeveloperEvaluation.Application/Sales/GetSale/GetSaleHandler.cs:43 | the decimal digits of a natural number read back as that number |
| `GetSale.GetSaleHandler.Handle` | template/backend/src/Ambev.DeveloperEvaluation.Application/Sales/GetSale/GetSaleHandler.cs:33-47 | 0: validation failure and no lookup; an unknown number: InvalidOperation; otherwise a stored sale with that number; the store is only read |
| `WebApiCreateSale.SaleItemRequestViolations` | template/backend/src/Ambev.DeveloperEvaluation.WebApi/Features/Sales/CreateSale/CreateSaleRequestValidator.cs:41-51 | the request item validator reports nothing exactly when the name is non-blank, 0 < quantity <= 20 as a decimal, and the price is positive |
| `WebApiCreateSale.CreateSaleRequestViolations` | template/backend/src/Ambev.DeveloperEvaluation.WebApi/Features/Sales/CreateSale/CreateSaleRequestValidator.cs:22-30 | the request validator reports nothing exactly when date, customer, branch and items pass |
| `WebApiCreateSale.InCreateSaleRequestViolations` | template/backend/src/Ambev.DeveloperEvaluation.WebApi/Features/Sales/CreateSale/CreateSaleRequestValidator.cs:22-30 | a failure is reported exactly when the rule chain on its own property reports it |
| `WebApiCreateSale.BranchMessages` | template/backend/src/Ambev.DeveloperEvaluation.WebApi/Features/Sales/CreateSale/CreateSaleRequestValidator.cs:26-38 | the branch must be exactly "Main Branch", case included |
| `WebApiCreateSale.ItemQuantityRuleMessages` | template/backend/src/Ambev.DeveloperEvaluation.WebApi/Features/Sales/CreateSale/CreateSaleRequestValidator.cs:46-47 | the two quantity messages, each exactly when its decimal bound fails |
| `WebApiCreateSale.ItemQuantityMessages` | template/backend/src/Ambev.DeveloperEvaluation.WebApi/Features/Sales/CreateSale/CreateSaleRequestValidator.cs:29 | the same on element i of a request |
| `WebApiCreateSale.FractionalQuantities` | template/backend/src/Ambev.DeveloperEvaluation.WebApi/Features/Sales/CreateSale/CreateSaleRequest.cs:50 | 0.5 passes both quantity rules; 20.5 fails the upper one |
| `WebApiCreateSale.NoLengthLimits` | template/backend/src/Ambev.DeveloperEvaluation.WebApi/Features/Sales/CreateSale/CreateSaleRequestValidator.cs:24-29 | a valid request stays valid with any non-blank customer and product names, of any length |
| `WebApiCreateSale.RoundHalfEven` | template/backend/src/Ambev.DeveloperEvaluation.WebApi/Features/Sales/CreateSale/CreateSaleProfile.cs:19 | the int an item quantity maps to is within one half of the decimal, a tie goes to the even integer, and a whole number is kept |
| `WebApiCreateSale.RoundedQuantityBounds` | template/backend/src/Ambev.DeveloperEvaluation.WebApi/Features/Sales/CreateSale/CreateSaleProfile.cs:19 | a rounded quantity is positive exactly above 0.5 and at most 20 exactly up to 20.5 |
| `WebApiCreateSale.CommandFor` | template/backend/src/Ambev.DeveloperEvaluation.WebApi/Features/Sales/CreateSale/CreateSaleProfile.cs:16-19 | every request maps, unless a quantity rounds outside the int range; the command keeps date, customer, branch and each item's name and price, and its quantity is the request's rounded half-to-even |
| `WebApiCreateSale.SameRulesAsCommand` | template/backend/src/Ambev.DeveloperEvaluation.WebApi/Features/Sales/CreateSale/CreateSaleRequestValidator.cs:22-51 | for whole quantities the mapping succeeds and the request validator and the command validator report the same failures in the same order |
| `WebApiCreateSale.MappedQuantityMessages` | template/backend/src/Ambev.DeveloperEvaluation.Application/Sales/CreateSale/CreateSaleValidator.cs:59-60 | after the mapping, item i of the command is reported "not positive" exactly when its request quantity is at most 0.5 and "more than 20" exactly above 20.5 |
| `WebApiCreateSale.AcceptedRequestCommand` | template/backend/src/Ambev.DeveloperEvaluation.WebApi/Features/Sales/CreateSale/CreateSaleProfile.cs:16-19 | a request the API accepts always maps, and its command passes CreateSaleValidator exactly when every quantity is above 0.5: quantities in (0, 0.5] pass the API and then fail |
| `WebApiUpdateSale.UpdateSaleRequestViolations` | template/backend/src/Ambev.DeveloperEvaluation.WebApi/Features/Sales/UpdateSale/UpdateSaleRequestValidator.cs:13-34 | nothing is reported exactly when the name is non-blank and at most 100 units, the total positive, the status 1 or 2, and the date not after the UTC clock |
| `WebApiUpdateSale.StatusMessages` | template/backend/src/Ambev.DeveloperEvaluation.WebApi/Features/Sales/UpdateSale/UpdateSaleRequestValidator.cs:25-29 | status 0 gets only "required", 3 only "invalid", 1 and 2 nothing; in general "required" exactly for 0 and "invalid" exactly outside 0..2 |
| `WebApiUpdateSale.NameMessages` | template/backend/src/Ambev.DeveloperEvaluation.WebApi/Features/Sales/UpdateSale/UpdateSaleRequestValidator.cs:15-19 | the messages on Name: "required" exactly when blank, then "too long" exactly above 100 units |
| `WebApiUpdateSale.TotalAndDateMessages` | template/backend/src/Ambev.DeveloperEvaluation.WebApi/Features/Sales/UpdateSale/UpdateSaleRequestValidator.cs:21-33 | the total is reported exactly when not positive, the date exactly when after the UTC clock |

## Left out

- EF Core: `DbContext`, `SaveChangesAsync`, async/`Task` and cancellation tokens are not modelled. The table is an in-memory map, and saving always succeeds.
- Repositories.SaleRepository.Create: requires a key that is not stored yet. A duplicate key would be a database error, which is not modelled.
- Repositories.SaleRepository.Update: requires the sale's Id to be stored. The only caller passes a sale it has just read from the store. EF would raise a concurrency error otherwise, which is not modelled.
- Guid generation is opaque and is passed in as `generatedId`. How EF chooses the key is not modelled.
- Decimal amounts are exact reals. The 28-digit precision and rounding of C# `decimal` are not modelled, and neither is its range (about ±7.9e28).
- CreateSale.ApplyDiscounts and CreateSale.CreateSaleHandler.Handle: the model prices every sale. In C#, the product `Quantity * UnitPrice` raises OverflowException when it exceeds decimal's range, e.g. 20 units at 4e27. The handler then stores nothing, but the model returns Ok and stores the sale. No validator bounds the unit price.
- Primitives.Int64Text: the message interpolation formats with the current culture. The model writes a negative number with '-', the sign of the invariant culture and most others, and a culture with another negative sign is not modelled.
- WebApiCreateSale.RoundHalfEven: the profile's decimal-to-int conversion is taken to be Convert.ToInt32, which rounds half to even and raises OverflowException outside the int range. That OverflowException is `CommandFor` returning none.
- Sale and SaleItem are value datatypes, not mutable objects. The pricing loop and `UpdateAsync` rebuild the sale rather than assign to it. Aliasing between the handler's copy and the tracked entity is not modelled.
- SaleItem's own Id and its `Sale` back-reference are not modelled. No rule reads them.
- `ValidationErrorDetail` (the shape `Validate()` converts each failure to) is not modelled. Errors are kept as property path plus message.
- AutoMapper result and response mappings (`CreateSaleResult`, `GetSaleResult`, `UpdateSaleResult`, the web API responses and the cancel and get profiles) are not modelled. The handlers return the sale or flag they map from.
- The `Map<UpdateSaleResult>` of UpdateAsync's boolean has no counterpart. The update handler returns `Ok(true)`.
- `CreateSaleCommand` and the create-side `SaleItemCommand` are not part of this model. Their members are taken from the validator, the handler test and the profiles.
- The update profile is not part of this model. The merge is assumed to copy date, customer, branch, items and the sale total (as TotalAmount), and to keep Id, sale number and status.
- `CancelSaleValidator` is not part of this model. The cancel handler takes the validator as a function parameter.
- The `SaleStatus` enum is not part of this model. It is a datatype with an initial member (`Created`) plus `Modified` and `Cancelled`. The web API's integer status is kept as an int.
- `SaleConfiguration.cs`: the branch column limit of 50 is a database constraint, not a validator rule, and is left out.
- Null strings and null lists are not modelled. Every string and list is present, which FluentValidation's NotEmpty treats like an empty one.
- CreateSale.LastQualifyingItemWins and the other pricing lemmas: they state the total the loop computes. The result DTO mapping after `CreateAsync` is not modelled.
