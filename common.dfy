/** Values shared by every part of the storefront backend model. */
module Common {

  /** Identifier of a stored document (a MongoDB ObjectId), kept abstract. */
  type Id = nat

  /** A value that may be absent: a request field that was not sent, a nullable reference. */
  datatype Option<T> = None | Some(value: T) {
    function GetOr(default: T): T {
      if Some? then value else default
    }
  }

  /** How a model method or a request handler fails. */
  datatype Error =
    | Thrown(message: string)             // an exception: a model method's own check or a rejected save
    | Status(code: nat, message: string)  // an error response sent by a request handler

  datatype Result<T> = Ok(value: T) | Err(error: Error)

  /** The response every handler sends when an exception reaches its catch block. */
  const ServerError := Status(500, "Server error")

  /** JavaScript truthiness of an optional string: both `undefined` and "" are falsy. */
  predicate Truthy(s: Option<string>) {
    s.Some? && s.value != ""
  }
}
