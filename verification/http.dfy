/**
 Shared request/response vocabulary of the cart and order controllers: optional request
 values, the error replies they send, and JavaScript truthiness of a request field.
 */
module Http {

  /** A request field that may be missing (JavaScript `undefined`). */
  datatype Option<+T> = None | Some(value: T)

  /**
   The error replies of the controllers, by status code, with the message the controller
   gives: the order controller sends it as the `message` of a JSON body, while the cart
   controller passes it to `next` in a `createError`.
   */
  datatype Error =
    | BadRequest(message: string)    // 400
    | NotFound(message: string)      // 404
    | ServerError(message: string)   // 500: a thrown exception caught by the controller

  /** A reply: a success body, or an error reply. */
  datatype Result<+T> = Ok(value: T) | Err(error: Error)

  /** JavaScript truthiness of an optional string: present and not the empty string. */
  predicate Truthy(s: Option<string>)
  {
    s.Some? && s.value != ""
  }

  /** The message a controller sends when an unexpected exception is caught. */
  const ServerErrorMessage := "Server Error"
}
