/** The interaction manager: `interact(authClient, options)` resumes a saved
    transaction that already holds an interaction handle, and otherwise
    resolves the transaction parameters by precedence, asks the identity
    server for a new interaction handle and saves the transaction meta that
    carries it. */
module Interaction {
  import opened Wrappers

  /** The persisted context of one authentication attempt. A saved record
      may be partial, so every field may be absent. */
  datatype TransactionMeta = TransactionMeta(
    issuer: Option<string>,
    clientId: Option<string>,
    redirectUri: Option<string>,
    state: Option<string>,
    scopes: Option<seq<string>>,
    codeVerifier: Option<string>,
    codeChallenge: Option<string>,
    codeChallengeMethod: Option<string>,
    responseType: Option<string>,
    flow: Option<string>,
    withCredentials: Option<bool>,
    activationToken: Option<string>,
    recoveryToken: Option<string>,
    interactionHandle: Option<string>)

  /** The record with no property set (`{}`). */
  const EmptyMeta: TransactionMeta :=
    TransactionMeta(None, None, None, None, None, None, None, None, None, None, None, None, None, None)

  /** The options passed to one call of `interact`. */
  datatype InteractOptions = InteractOptions(
    state: Option<string>,
    scopes: Option<seq<string>>,
    activationToken: Option<string>,
    recoveryToken: Option<string>,
    clientSecret: Option<string>)

  /** The long-lived client's configuration (`authClient.options`). */
  datatype ClientOptions = ClientOptions(
    issuer: string,
    clientId: string,
    redirectUri: string,
    state: Option<string>,
    scopes: Option<seq<string>>,
    activationToken: Option<string>,
    recoveryToken: Option<string>,
    clientSecret: Option<string>)

  /** The defaults the client prepares (`authClient.token.prepareTokenParams()`):
      a fresh state, default scopes and a fresh PKCE triple. */
  datatype TokenParams = TokenParams(
    issuer: string,
    clientId: string,
    redirectUri: string,
    state: string,
    scopes: seq<string>,
    codeVerifier: string,
    codeChallenge: string,
    codeChallengeMethod: string,
    responseType: string,
    flow: Option<string>,
    withCredentials: Option<bool>)

  /** The client `interact` is called on. */
  datatype AuthClient = AuthClient(options: ClientOptions, tokenParams: TokenParams)

  /** The body of the remote interaction request. */
  datatype InteractionRequest = InteractionRequest(
    clientId: Option<string>,
    baseUrl: string,
    codeChallenge: Option<string>,
    codeChallengeMethod: Option<string>,
    redirectUri: Option<string>,
    scopes: Option<seq<string>>,
    state: Option<string>,
    activationToken: Option<string>,
    recoveryToken: Option<string>,
    clientSecret: Option<string>)

  /** What `interact` resolves to. */
  datatype InteractResponse = InteractResponse(
    interactionHandle: string,
    meta: TransactionMeta,
    state: Option<string>)

  /** The value of the highest-priority source that defines it; `sources`
      is listed from highest priority to lowest. */
  function FirstDefined<T>(sources: seq<Option<T>>): (r: Option<T>)
    ensures r.None? <==> forall i | 0 <= i < |sources| :: sources[i].None?
    ensures forall i | Decides(sources, i) :: r == sources[i]
  {
    if |sources| == 0 then None
    else if sources[0].Some? then sources[0]
    else
      var r := FirstDefined(sources[1..]);
      assert forall i | Decides(sources, i) :: Decides(sources[1..], i - 1);
      r
  }

  /** Four sources, highest first: the first that defines the value wins. */
  lemma FirstDefinedOfFour<T>(a: Option<T>, b: Option<T>, c: Option<T>, d: Option<T>)
    ensures FirstDefined([a, b, c, d]) == a.Or(b.Or(c.Or(d)))
  {
    assert [a, b, c, d][1..] == [b, c, d];
    FirstDefinedOfThree(b, c, d);
  }

  /** Three sources, highest first: the first that defines the value wins. */
  lemma FirstDefinedOfThree<T>(a: Option<T>, b: Option<T>, c: Option<T>)
    ensures FirstDefined([a, b, c]) == a.Or(b.Or(c))
  {
    assert [c][1..] == [];
    assert FirstDefined([c]) == c;
    assert [b, c][1..] == [c];
    assert FirstDefined([b, c]) == b.Or(c);
    assert [a, b, c][1..] == [b, c];
  }

  /** Source `i` is the first one that defines the value. */
  ghost predicate Decides<T>(sources: seq<Option<T>>, i: int) {
    && 0 <= i < |sources|
    && sources[i].Some?
    && forall j | 0 <= j < i :: sources[j].None?
  }

  /** Like `Object.assign({}, lower, upper)` on two partial records, with
      `undefined` properties treated as absent: every property `upper` sets
      overwrites the one in `lower`. */
  function Assign(lower: TransactionMeta, upper: TransactionMeta): (m: TransactionMeta) {
    TransactionMeta(
      upper.issuer.Or(lower.issuer),
      upper.clientId.Or(lower.clientId),
      upper.redirectUri.Or(lower.redirectUri),
      upper.state.Or(lower.state),
      upper.scopes.Or(lower.scopes),
      upper.codeVerifier.Or(lower.codeVerifier),
      upper.codeChallenge.Or(lower.codeChallenge),
      upper.codeChallengeMethod.Or(lower.codeChallengeMethod),
      upper.responseType.Or(lower.responseType),
      upper.flow.Or(lower.flow),
      upper.withCredentials.Or(lower.withCredentials),
      upper.activationToken.Or(lower.activationToken),
      upper.recoveryToken.Or(lower.recoveryToken),
      upper.interactionHandle.Or(lower.interactionHandle))
  }

  /** The call options as a record of transaction properties. */
  function CallLayer(options: InteractOptions): (m: TransactionMeta) {
    EmptyMeta.(state := options.state, scopes := options.scopes,
               activationToken := options.activationToken, recoveryToken := options.recoveryToken)
  }

  /** The saved record, or `{}` when nothing is saved. */
  function SavedLayer(saved: Option<TransactionMeta>): (m: TransactionMeta) {
    if saved.Some? then saved.value else EmptyMeta
  }

  /** The client options as a record of transaction properties. */
  function ClientLayer(options: ClientOptions): (m: TransactionMeta) {
    EmptyMeta.(issuer := Some(options.issuer), clientId := Some(options.clientId),
               redirectUri := Some(options.redirectUri), state := options.state, scopes := options.scopes,
               activationToken := options.activationToken, recoveryToken := options.recoveryToken)
  }

  /** The prepared token parameters as a record of transaction properties. */
  function TokenLayer(params: TokenParams): (m: TransactionMeta) {
    EmptyMeta.(issuer := Some(params.issuer), clientId := Some(params.clientId),
               redirectUri := Some(params.redirectUri), state := Some(params.state),
               scopes := Some(params.scopes), codeVerifier := Some(params.codeVerifier),
               codeChallenge := Some(params.codeChallenge),
               codeChallengeMethod := Some(params.codeChallengeMethod),
               responseType := Some(params.responseType), flow := params.flow,
               withCredentials := params.withCredentials)
  }

  /** The transaction meta `interact` creates when it cannot resume: the
      saved record overlaid by the call options, then laid over the client
      options and the prepared token parameters. Each property comes from
      the first of call options, saved meta, client options, token
      parameters that sets it; the PKCE triple and response type, which
      neither call nor client options carry, from the saved meta or else the
      token parameters. The result always has the properties a request needs. */
  function ResolveMeta(options: InteractOptions, saved: Option<TransactionMeta>, authClient: AuthClient)
    : (m: TransactionMeta)
    ensures
      var s := SavedLayer(saved);
      var c := authClient.options;
      var t := authClient.tokenParams;
      && m.state == FirstDefined([options.state, s.state, c.state, Some(t.state)])
      && m.scopes == FirstDefined([options.scopes, s.scopes, c.scopes, Some(t.scopes)])
      && m.codeVerifier == FirstDefined([s.codeVerifier, Some(t.codeVerifier)])
      && m.codeChallenge == FirstDefined([s.codeChallenge, Some(t.codeChallenge)])
      && m.codeChallengeMethod == FirstDefined([s.codeChallengeMethod, Some(t.codeChallengeMethod)])
      && m.responseType == FirstDefined([s.responseType, Some(t.responseType)])
      && m.activationToken == FirstDefined([options.activationToken, s.activationToken, c.activationToken])
      && m.recoveryToken == FirstDefined([options.recoveryToken, s.recoveryToken, c.recoveryToken])
      && m.issuer == FirstDefined([s.issuer, Some(c.issuer)])
      && m.clientId == FirstDefined([s.clientId, Some(c.clientId)])
      && m.redirectUri == FirstDefined([s.redirectUri, Some(c.redirectUri)])
      && m.flow == FirstDefined([s.flow, t.flow])
      && m.withCredentials == FirstDefined([s.withCredentials, t.withCredentials])
      && m.interactionHandle == s.interactionHandle
    ensures Complete(m)
  {
    var t := authClient.tokenParams;
    var s := SavedLayer(saved);
    var m := Assign(Assign(TokenLayer(t), ClientLayer(authClient.options)), Assign(s, CallLayer(options)));
    FirstDefinedOfFour(options.state, s.state, authClient.options.state, Some(t.state));
    FirstDefinedOfFour(options.scopes, s.scopes, authClient.options.scopes, Some(t.scopes));
    FirstDefinedOfThree(options.activationToken, s.activationToken, authClient.options.activationToken);
    FirstDefinedOfThree(options.recoveryToken, s.recoveryToken, authClient.options.recoveryToken);
    assert Decides([Some(authClient.options.issuer)], 0);
    assert Decides([Some(authClient.options.clientId)], 0);
    assert Decides([Some(authClient.options.redirectUri)], 0);
    assert Decides([Some(t.codeVerifier)], 0);
    assert Decides([Some(t.codeChallenge)], 0);
    assert Decides([Some(t.codeChallengeMethod)], 0);
    assert Decides([Some(t.responseType)], 0);
    m
  }

  /** The record has every property the interaction request and a later
      token exchange need. */
  predicate Complete(m: TransactionMeta) {
    && m.issuer.Some? && m.clientId.Some? && m.redirectUri.Some?
    && m.state.Some? && m.scopes.Some?
    && m.codeVerifier.Some? && m.codeChallenge.Some? && m.codeChallengeMethod.Some?
    && m.responseType.Some?
  }

  /** The client secret sent with the request: the call's, else the client's.
      It is never part of the transaction meta. */
  function ResolveClientSecret(options: InteractOptions, client: ClientOptions): (r: Option<string>)
    ensures r == FirstDefined([options.clientSecret, client.clientSecret])
  {
    assert FirstDefined([client.clientSecret]) == client.clientSecret;
    options.clientSecret.Or(client.clientSecret)
  }

  /** The OAuth base URL of an issuer. */
  function OAuthBaseUrl(issuer: string): (url: string) {
    issuer + "/oauth2"
  }

  /** The interaction request for a resolved meta. */
  function BuildRequest(meta: TransactionMeta, issuer: string, clientSecret: Option<string>): (request: InteractionRequest) {
    InteractionRequest(meta.clientId, OAuthBaseUrl(issuer), meta.codeChallenge, meta.codeChallengeMethod,
                       meta.redirectUri, meta.scopes, meta.state, meta.activationToken, meta.recoveryToken,
                       clientSecret)
  }

  /** The interaction request `interact` sends when it cannot resume. */
  function RequestFor(options: InteractOptions, saved: Option<TransactionMeta>, authClient: AuthClient)
    : (request: InteractionRequest)
  {
    BuildRequest(ResolveMeta(options, saved, authClient), authClient.options.issuer,
                 ResolveClientSecret(options, authClient.options))
  }

  /** Call-time `state` and `scopes` win over saved meta, client options and
      token parameters, in the request and in the meta alike. */
  lemma CallOptionsWin(options: InteractOptions, saved: Option<TransactionMeta>, authClient: AuthClient)
    ensures
      var m := ResolveMeta(options, saved, authClient);
      var request := RequestFor(options, saved, authClient);
      && (options.state.Some? ==> m.state == options.state && request.state == options.state)
      && (options.scopes.Some? ==> m.scopes == options.scopes && request.scopes == options.scopes)
  {
  }

  /** Without call-time values, a saved meta's `state` and `scopes` win over
      the client options. */
  lemma SavedMetaBeatsClientOptions(options: InteractOptions, saved: TransactionMeta, authClient: AuthClient)
    ensures
      var m := ResolveMeta(options, Some(saved), authClient);
      && (options.state.None? && saved.state.Some? ==> m.state == saved.state)
      && (options.scopes.None? && saved.scopes.Some? ==> m.scopes == saved.scopes)
  {
  }

  /** With no saved meta and no call-time values, the client options win
      over the token parameters, which are used when the client has none. */
  lemma ClientOptionsBeatTokenParams(options: InteractOptions, authClient: AuthClient)
    ensures
      var m := ResolveMeta(options, None, authClient);
      var c := authClient.options;
      var t := authClient.tokenParams;
      && (options.state.None? ==> m.state == Some(if c.state.Some? then c.state.value else t.state))
      && (options.scopes.None? ==> m.scopes == Some(if c.scopes.Some? then c.scopes.value else t.scopes))
  {
  }

  /** The PKCE triple comes from the saved meta when it has one, otherwise
      from the token parameters, whatever the call and client options say. */
  lemma PkceFromSavedMetaOrTokenParams(
    options: InteractOptions, otherOptions: InteractOptions, saved: Option<TransactionMeta>,
    authClient: AuthClient, otherClientOptions: ClientOptions)
    ensures
      var m := ResolveMeta(options, saved, authClient);
      var s := SavedLayer(saved);
      var t := authClient.tokenParams;
      && m.codeVerifier == Some(if s.codeVerifier.Some? then s.codeVerifier.value else t.codeVerifier)
      && m.codeChallenge == Some(if s.codeChallenge.Some? then s.codeChallenge.value else t.codeChallenge)
      && m.codeChallengeMethod ==
           Some(if s.codeChallengeMethod.Some? then s.codeChallengeMethod.value else t.codeChallengeMethod)
    ensures
      var m := ResolveMeta(options, saved, authClient);
      var m' := ResolveMeta(otherOptions, saved, AuthClient(otherClientOptions, authClient.tokenParams));
      && m'.codeVerifier == m.codeVerifier
      && m'.codeChallenge == m.codeChallenge
      && m'.codeChallengeMethod == m.codeChallengeMethod
  {
  }

  /** A call-time activation or recovery token overrides the client's; the
      token chosen is in the request and in the meta. */
  lemma CallTokensOverrideClientTokens(options: InteractOptions, saved: Option<TransactionMeta>, authClient: AuthClient)
    ensures
      var m := ResolveMeta(options, saved, authClient);
      var request := RequestFor(options, saved, authClient);
      var s := SavedLayer(saved);
      var c := authClient.options;
      && request.activationToken == m.activationToken
      && request.recoveryToken == m.recoveryToken
      && (options.activationToken.Some? ==> m.activationToken == options.activationToken)
      && (options.recoveryToken.Some? ==> m.recoveryToken == options.recoveryToken)
      && (options.activationToken.None? && s.activationToken.None? ==> m.activationToken == c.activationToken)
      && (options.recoveryToken.None? && s.recoveryToken.None? ==> m.recoveryToken == c.recoveryToken)
  {
  }

  /** The client secret goes into the request, the call's before the
      client's; the transaction meta has no place for it. */
  lemma ClientSecretOnlyInRequest(options: InteractOptions, saved: Option<TransactionMeta>, authClient: AuthClient)
    ensures
      var request := RequestFor(options, saved, authClient);
      && (options.clientSecret.Some? ==> request.clientSecret == options.clientSecret)
      && (options.clientSecret.None? ==> request.clientSecret == authClient.options.clientSecret)
  {
  }

  /** The request targets `issuer + '/oauth2'` and carries exactly the
      parameters of the meta that is saved with the new handle. */
  lemma RequestAgreesWithSavedMeta(
    options: InteractOptions, saved: Option<TransactionMeta>, authClient: AuthClient, handle: string)
    ensures
      var request := RequestFor(options, saved, authClient);
      var meta := ResolveMeta(options, saved, authClient).(interactionHandle := Some(handle));
      && request.baseUrl == authClient.options.issuer + "/oauth2"
      && request.clientId == meta.clientId && request.redirectUri == meta.redirectUri
      && request.state == meta.state && request.scopes == meta.scopes
      && request.codeChallenge == meta.codeChallenge
      && request.codeChallengeMethod == meta.codeChallengeMethod
      && request.activationToken == meta.activationToken
      && request.recoveryToken == meta.recoveryToken
      && meta.interactionHandle == Some(handle)
      && Complete(meta)
  {
  }

  /** A saved record that already carries an interaction handle. */
  predicate Resumable(saved: Option<TransactionMeta>) {
    saved.Some? && saved.value.interactionHandle.Some?
  }

  /** The response that resumes a saved transaction. */
  function Resume(meta: TransactionMeta): (res: InteractResponse)
    requires meta.interactionHandle.Some?
  {
    InteractResponse(meta.interactionHandle.value, meta, meta.state)
  }

  /** The response's handle is the one its meta carries, and its state is
      the meta's state. */
  predicate ConsistentResponse(res: InteractResponse) {
    res.meta.interactionHandle == Some(res.interactionHandle) && res.state == res.meta.state
  }

  /** The transaction-meta storage (`getSavedTransactionMeta`,
      `saveTransactionMeta`). Whether a stored record is still valid for the
      client is the storage's concern: it returns only records it accepts. */
  class TransactionStore {
    var saved: Option<TransactionMeta>

    constructor(saved: Option<TransactionMeta>)
      ensures this.saved == saved
    {
      this.saved := saved;
    }

    method Get() returns (meta: Option<TransactionMeta>)
      ensures meta == saved
    {
      meta := saved;
    }

    method Save(meta: TransactionMeta)
      modifies this
      ensures saved == Some(meta)
    {
      saved := Some(meta);
    }
  }

  /** The identity server's interaction endpoint (`idx.interact`). Which
      handle it hands out is not known here: it may depend on the request
      and on how many requests came before. Every request it receives is
      recorded. */
  class IdxEndpoint {
    var requests: seq<InteractionRequest>
    const handleFor: (nat, InteractionRequest) -> string

    constructor(handleFor: (nat, InteractionRequest) -> string)
      ensures requests == [] && this.handleFor == handleFor
    {
      requests := [];
      this.handleFor := handleFor;
    }

    method Interact(request: InteractionRequest) returns (handle: string)
      modifies this
      ensures requests == old(requests) + [request]
      ensures handle == handleFor(|old(requests)|, request)
    {
      handle := handleFor(|requests|, request);
      requests := requests + [request];
    }
  }

  /** `interact(authClient, options)`. */
  method Interact(authClient: AuthClient, options: InteractOptions, store: TransactionStore, idx: IdxEndpoint)
    returns (res: InteractResponse)
    modifies store, idx
    ensures ConsistentResponse(res)
    ensures Resumable(old(store.saved)) ==>
      && res == Resume(old(store.saved).value)
      && idx.requests == old(idx.requests)
      && store.saved == old(store.saved)
    ensures !Resumable(old(store.saved)) ==>
      var request := RequestFor(options, old(store.saved), authClient);
      && idx.requests == old(idx.requests) + [request]
      && res.interactionHandle == idx.handleFor(|old(idx.requests)|, request)
      && res.meta == ResolveMeta(options, old(store.saved), authClient).(interactionHandle := Some(res.interactionHandle))
      && store.saved == Some(res.meta)
  {
    var saved := store.Get();
    if saved.Some? && saved.value.interactionHandle.Some? {
      return Resume(saved.value);
    }
    var meta := ResolveMeta(options, saved, authClient);
    var request := BuildRequest(meta, authClient.options.issuer, ResolveClientSecret(options, authClient.options));
    var handle := idx.Interact(request);
    var newMeta := meta.(interactionHandle := Some(handle));
    store.Save(newMeta);
    res := InteractResponse(handle, newMeta, newMeta.state);
  }

  /** Calling `interact` again, as after a page reload, resumes the
      transaction the first call established: same handle, same meta, same
      state, and at most one remote interaction in all. */
  method InteractTwice(authClient: AuthClient, options: InteractOptions, store: TransactionStore, idx: IdxEndpoint)
    returns (first: InteractResponse, second: InteractResponse)
    modifies store, idx
    ensures second == first
    ensures |idx.requests| <= |old(idx.requests)| + 1
    ensures store.saved == Some(first.meta)
  {
    first := Interact(authClient, options, store, idx);
    second := Interact(authClient, options, store, idx);
  }
}
