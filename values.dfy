/** Request and response values as the route handlers see them: a JSON
    field is either absent (`undefined`) or present, and the handlers test it
    with JavaScript truthiness; an answer is a status code and a message. */
module Values {

  datatype Option<+T> = None | Some(value: T)

  /** The status code of a response and its `error` or `message` text. */
  datatype Reply = Reply(status: nat, message: string)

  /** The answer of the upgrade and payment routes to a plan id outside the
      price table. */
  const InvalidPlan := "Invalid plan"

  /** `!!field` for an optional string field: absent and "" are falsy. */
  predicate Present(field: Option<string>)
  {
    field.Some? && field.value != ""
  }

  /** `field || fallback` for an optional string field. */
  function OrElse(field: Option<string>, fallback: string): string
  {
    if Present(field) then field.value else fallback
  }
}
