/** Records shared by the authentication core (src/types/index.ts) and the shape of
    an awaited call: a promise that settles either fulfilled with a value or
    rejected with a reason. */
module Types {

  datatype Option<+T> = None | Some(value: T)

  /** How a promise settles. Service calls are inputs of this type; the async
      handlers of the core settle the same way (a rethrown error is `Rejected`). */
  datatype Settled<+T> = Fulfilled(value: T) | Rejected(reason: string)

  /** JavaScript truthiness of a value that is a string or null/undefined
      (`None`): only a present, non-empty string is truthy. */
  predicate Truthy(value: Option<string>) {
    value.Some? && value.value != ""
  }

  /** `User`: the optional `email` and `status` keys are `None` when absent. */
  datatype User = User(
    id: int,
    username: string,
    email: Option<string>,
    role: string,
    status: Option<string>)

  /** `Session`: one issued credential as listed by the identity service. */
  datatype Session = Session(
    id: int,
    createdAt: string,
    expiresAt: string,
    ipAddress: string,
    userAgent: string,
    isRememberMe: bool)
}
