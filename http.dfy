/** The shape of a route handler's answer: a JSON body with status 200, or `{error}` with a status. */
module Http {

  datatype Reply<+T> = Ok(body: T) | Error(status: nat, message: string)

  /** The `{success: true}` body. */
  datatype Done = Done
}
