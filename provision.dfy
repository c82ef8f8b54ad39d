/** What a provider call ends with. */
module Provisions {
  import opened LoadErrors

  /** A product; a refusal `CannotProvide` (a terminal one stops the provider
      search); the failure of a sub-request the provider made through the
      mediator; or an exception the provider itself raised while building. */
  datatype Provision<+T> =
    | Provided(value: T)
    | CannotProvide(terminal: bool)
    | SubRequestFailed
    | ProviderRaised(exc: Exc)
}
