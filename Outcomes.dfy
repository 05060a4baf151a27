/**
 * How a command handler ends: with its result, or with one of the exceptions
 * the handlers throw, each a distinct kind that callers can tell apart.
 */
module Outcomes {
  import opened Primitives
  import opened Validation

  datatype HandlerResult<T> =
    | Ok(value: T)
      /** FluentValidation's ValidationException, carrying every failure. */
    | ValidationFailed(errors: seq<Violation>)
      /** KeyNotFoundException. */
    | NotFound(message: string)
      /** InvalidOperationException. */
    | InvalidOperation(message: string)

  /**
   * The KeyNotFoundException message the update and cancel handlers raise for
   * an unknown id: the id appears in its "D" form after a fixed prefix.
   */
  function NotFoundMessage(id: Guid): (s: string)
    ensures |s| == 59
    ensures s[..13] == "Sale with ID " && s[13..49] == GuidText(id) && s[49..] == " not found"
  {
    "Sale with ID " + GuidText(id) + " not found"
  }

  /**
   * The message names the sale: the id reads back from the text between the
   * prefix and the suffix, so two ids never share a message.
   */
  lemma NotFoundMessageNamesTheSale(id: Guid, other: Guid)
    ensures ParseGuidText(NotFoundMessage(id)[13..49]) == id
    ensures NotFoundMessage(id) == NotFoundMessage(other) <==> id == other
  {
    GuidTextRoundTrip(id);
    GuidTextRoundTrip(other);
  }
}
