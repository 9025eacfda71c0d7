/** The authenticator capability interface: one factor's descriptor and the
    three operations every factor supplies. */
module Authenticators {
  import opened Wrappers
  import opened IdxTypes

  /** Field name to string-or-absent, as submitted to the server. */
  type Credentials = map<string, Option<string>>

  /** An authenticator of some factor. The source declares the three
      operations abstract; here each factor supplies them as total functions
      when it is built, so `canVerify` always answers, `mapCredentials` never
      fails and `getInputs` may describe its inputs by any type `Inputs`. */
  class Authenticator<Values, Inputs> {
    const meta: IdxAuthenticator
    const canVerify: Values -> bool
    const mapCredentials: Values -> Credentials
    const getInputs: FormField -> Inputs

    constructor(
      meta: IdxAuthenticator,
      canVerify: Values -> bool,
      mapCredentials: Values -> Credentials,
      getInputs: FormField -> Inputs)
      ensures this.meta == meta
      ensures this.canVerify == canVerify
      ensures this.mapCredentials == mapCredentials
      ensures this.getInputs == getInputs
    {
      this.meta := meta;
      this.canVerify := canVerify;
      this.mapCredentials := mapCredentials;
      this.getInputs := getInputs;
    }
  }
}
