# okta-auth-js identity engine core, in Dafny

This project models three small pieces of the client-side identity engine (IDX) of okta-auth-js and proves what they promise.

- **The `authenticator-verification-data` remediator** (module `Remediators`, file `authenticator_verification_data.dfy`). `mapAuthenticator` names the authenticator under verification. It returns the descriptor the base class already holds. Otherwise it infers one from the remediation form's `id` and `enrollmentId` fields. `getInputAuthenticator` asks for a method-type choice when the form's first `methodType` field has options. Otherwise it returns the whole form. `getValuesAfterProceed` stores the base values and returns them without the `authenticator` key. The remediation name constant is `Remediators.RemediationName`.
- **The authenticator capability interface** (module `Authenticators`, file `authenticator.dfy`). An authenticator holds an immutable `meta` descriptor and three operations. `Credentials` is a map from field name to string-or-absent.
- **Interaction parameter resolution** (module `Interaction`, file `interact.dfy`), as the unit tests of `interact` pin it down. A saved transaction meta that has an interaction handle is resumed without a remote call. Otherwise the parameters are resolved by precedence. The interaction request is built and sent. The meta is saved with the new handle.

Shared shapes are in `idx_types.dfy`: form fields, authenticator descriptors and the first-match `find` by name. `wrappers.dfy` holds `Option` (an absent property) and `Result` (a value or a thrown error).

JavaScript semantics are written out where they matter:
- A TypeError thrown by reading a property of `undefined` or `null` is a `Failure`. The TypeScript non-null assertions (`!`) are erased at compile time and let these reads through: `.value` of a missing form or a missing `id` field (lines 34-35) and `.methodType` of nullish authenticator data (line 38).
- Truthiness of `getAuthenticatorData()` is the datatype `AuthenticatorData`: `Known`, `Undefined`, `Null` or `OtherFalsy`.
- Any options array, an empty one included, is truthy.

Two behaviours of the code that are easy to misread:
- Method-type gating happens for any `options` array, not only a non-empty one.
- The inferred descriptor's `methodType` is never carried over from context. Line 38 dereferences the falsy `authenticatorData` itself (see Findings).

Inputs the modelled code gets from code that is not shown become parameters:
- the base-class helpers `getAuthenticatorData`, `getAuthenticatorFromRemediation` and `super.getValuesAfterProceed`;
- `authClient.options` and the prepared token parameters;
- the transaction-meta storage, as the class `TransactionStore`;
- the remote `idx.interact`, as the class `IdxEndpoint`, with a log of the requests it received and an unknown handle supplier that may depend on the request and on the number of earlier requests.

## Model

| member | source | states |
|---|---|---|
| `IdxTypes.Find` | lib/idx/remediators/AuthenticatorVerificationData.ts:34-37 | `find` by name yields nothing exactly when no field has the name, and otherwise the first field that has it |
| `Remediators.MapAuthenticator` | lib/idx/remediators/AuthenticatorVerificationData.ts:24-40 | embedded data is returned unchanged. Otherwise: a missing form throws, and a form without an `id` field throws. Success happens exactly when the data is a non-nullish falsy value and the form has an `id` field. The result's `id` is the first `id` field's value. Its `enrollmentId` is the first `enrollmentId` field's value, or absent if there is none. Its `methodType` and type are absent. Undefined or null data always throws |
| `Remediators.UndefinedDataAlwaysThrows` | lib/idx/remediators/AuthenticatorVerificationData.ts:26-38 | with `undefined` authenticator data the inference path always throws, and for a form with an `id` field it throws at the `methodType` dereference |
| `Remediators.IdFormWithoutDataThrows` | lib/idx/remediators/AuthenticatorVerificationData.ts:32-38 | a concrete form `[{name:'id', value:'aut1'}]` with `undefined` data throws as written. The guarded version returns `{id:'aut1'}` |
| `Remediators.MapAuthenticatorGuarded` | lib/idx/remediators/AuthenticatorVerificationData.ts:24-40 | corrected fallback: succeeds exactly when the form exists and has an `id` field, with the same `id`/`enrollmentId` and no `methodType` |
| `Remediators.GuardedAgreesWhereWrittenSucceeds` | lib/idx/remediators/AuthenticatorVerificationData.ts:38 | the corrected version equals the original wherever the original succeeds. Wherever the two results differ, including two different failures, the original throws at the line-38 dereference on undefined or null data |
| `Remediators.GetInputAuthenticator` | lib/idx/remediators/AuthenticatorVerificationData.ts:42-52 | a missing form throws. If the first `methodType` field has options, the result is exactly the required string `methodType` input, whatever the other fields are. Otherwise the result is the form's fields in the same order |
| `Remediators.WithoutAuthenticator` | lib/idx/remediators/AuthenticatorVerificationData.ts:56-57 | the trimmed keys are exactly the input keys minus `authenticator`, each mapped to its unchanged value |
| `Remediators.TrimIdempotent` | lib/idx/remediators/AuthenticatorVerificationData.ts:56-57 | trimming already-trimmed values changes nothing |
| `Remediators.TrimValues` | lib/idx/remediators/AuthenticatorVerificationData.ts:56-57 | the filter-and-reduce over the keys builds exactly the values without `authenticator` |
| `Remediators.AuthenticatorVerificationData.GetValuesAfterProceed` | lib/idx/remediators/AuthenticatorVerificationData.ts:54-58 | afterwards `values` equals the base result, and the returned map is that result without `authenticator`. Every kept key keeps its value |
| `Authenticators.Authenticator.constructor` | lib/idx/authenticator/Authenticator.ts:11-13 | the given descriptor is stored as `meta` unchanged, together with the factor's total `canVerify`, `mapCredentials` and `getInputs` |
| `Interaction.FirstDefined` | test/spec/idx/interact.ts:65-67 | reference precedence: absent exactly when every source is absent, otherwise the value of the first source that defines it |
| `Interaction.ResolveMeta` | test/spec/idx/interact.ts:65-67 | each meta property is the first defined value among call options, saved meta, client options and token parameters: `state` and `scopes` from all four; the PKCE triple and response type from saved meta, then token parameters; the activation and recovery tokens from call options, saved meta, then client options. The result is always complete |
| `Interaction.ResolveClientSecret` | test/spec/idx/interact.ts:403-466 | the client secret is the call's, else the client option's |
| `Interaction.CallOptionsWin` | test/spec/idx/interact.ts:88-119 | call-time `state`/`scopes` are what the request and the meta carry |
| `Interaction.SavedMetaBeatsClientOptions` | test/spec/idx/interact.ts:121-151 | without call-time values, the saved meta's `state`/`scopes` win |
| `Interaction.ClientOptionsBeatTokenParams` | test/spec/idx/interact.ts:188-252 | with no saved meta and no call-time values, client `state`/`scopes` win, and the token parameters' values fill in when the client has none |
| `Interaction.PkceFromSavedMetaOrTokenParams` | test/spec/idx/interact.ts:92-109 | the PKCE triple is the saved meta's, else the token parameters'. Changing the call options or the client options does not change it |
| `Interaction.CallTokensOverrideClientTokens` | test/spec/idx/interact.ts:254-394 | a call-time activation/recovery token overrides the client's. The chosen token is in both the request and the meta |
| `Interaction.ClientSecretOnlyInRequest` | test/spec/idx/interact.ts:396-467 | the request carries the call's client secret, else the client's. The meta has no client-secret property |
| `Interaction.RequestAgreesWithSavedMeta` | test/spec/idx/interact.ts:469-485 | the request's base URL is `issuer + '/oauth2'`. Its parameters equal those of the meta saved with the new handle. That meta is complete |
| `Interaction.TransactionStore.Get` | test/spec/idx/interact.ts:82-86 | reading the store yields the saved record, if any |
| `Interaction.TransactionStore.Save` | test/spec/idx/interact.ts:469-485 | saving replaces the stored record |
| `Interaction.IdxEndpoint.Interact` | test/spec/idx/interact.ts:16-22 | each remote interaction is appended to the log with its request. It yields the supplier's handle for that request and the number of earlier requests, so two identical requests may get different handles |
| `Interaction.Interact` | test/spec/idx/interact.ts:469-513 | a saved meta with a handle is returned as `{handle, meta, meta.state}`. In that case there is no remote call and the store is unchanged. Otherwise exactly one request is sent, for the resolved meta. The meta carrying the returned handle is saved and returned. In both cases the response's handle is its meta's handle and its state is the meta's state |
| `Interaction.InteractTwice` | test/spec/idx/interact.ts:492-513 | a second `interact` resumes the first: same response, and at most one remote interaction in all |

## Findings

| source | as written | input that shows it | evidently intended | confidence | as-written member | corrected member |
|---|---|---|---|---|---|---|
| lib/idx/remediators/AuthenticatorVerificationData.ts:38 | `methodType: authenticatorData!.methodType` is reached only when `authenticatorData` is falsy. When it is `undefined` or `null`, this throws, so the inference path never succeeds | data `undefined`, form `[{name:'id', value:'aut1'}]` (`Remediators.IdFormWithoutDataThrows`) | return `{id:'aut1', enrollmentId: undefined}` without dereferencing the absent data | high for the throw, medium for the intent; not executed | `Remediators.MapAuthenticator` | `Remediators.MapAuthenticatorGuarded` |

## Left out

- Authenticators.Authenticator: `canVerify`, `mapCredentials` and `getInputs` are abstract in the source. They are total function-valued constants supplied when a factor is built. Their only contract is their type. No concrete factor and no first-match selection among factors is modelled, because their source is not part of this model.
- The remediation dispatcher and the `AuthenticatorData` base-class internals are not part of this model. Their results enter as parameters.
- `getAuthenticatorFromRemediation()` is taken to return an object. Only a missing `form` on it is modelled as a failure.
- Form field values are modelled as strings. Nested sub-forms and other JSON values are not represented.
- Remediators.AuthenticatorVerificationData.GetValuesAfterProceed: the returned object is a map, so the key order `Object.keys` would give is not modelled.
- The real `createTransactionMeta`, `prepareTokenParams` and `getOAuthBaseUrl` are not part of this model. Resolution follows the test's `createTransactionMeta` replacement, `Object.assign({}, tokenParams, authParams, options)`, with `options` the saved meta overlaid by the call options.
- Interaction.ResolveMeta: a property present but set to `undefined` is treated as absent, so a lower-priority source fills it in. `Object.assign` would copy the `undefined` over. The tests remove properties with `delete` (test/spec/idx/interact.ts:222-223), which the model does capture.
- Interaction.ResolveMeta: the `clientSecret` tests (test/spec/idx/interact.ts:396-467) use the real `createTransactionMeta` with a stubbed `prepareTokenParams`. There the request's and the saved meta's `state`/`scopes` are the token parameters' (test/spec/idx/interact.ts:415-416 and 447-448), and `flow: 'default'`, `withCredentials: true` and `urls` appear. The model does not reproduce that. Its `flow` and `withCredentials` come from the saved meta, else the token-parameter layer. `urls` is not modelled.
- Client options carrying PKCE values or a response type are not modelled: the tests' client options carry none.
- A missing `issuer`, `clientId` or `redirectUri` (a configuration error) cannot arise: `ClientOptions` has them as plain strings.
- The remote interaction always returns a handle. Transport errors, retries, cancellation and the promise sequencing around `interact` are left out.
- Whether a saved meta is still valid for the client is decided by the storage. The model takes whatever record `TransactionStore` holds.
- PKCE challenge derivation (section 4.2 of RFC 7636) is cryptography and is not in the modelled code. Challenges and verifiers are opaque strings.
