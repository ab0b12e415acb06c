/**
 * `handle_tokens` / `refresh_tokens`: keeping the remote access token usable.
 * The parameter store is a map from parameter names to values; the profile
 * probe's status and the token pair the refresh endpoint returns are inputs.
 */
module Tokens {
  import opened Wrappers

  const AccessKey := "FITBIT_ACCESS_TOKEN"
  const RefreshKey := "FITBIT_REFRESH_TOKEN"
  const ClientIdKey := "FITBIT_CLIENT_ID"
  const ClientSecretKey := "FITBIT_CLIENT_SECRET"

  /** The probe status that triggers a refresh. */
  const Unauthorized := 401

  /** The `access_token` and `refresh_token` of the refresh endpoint's answer. */
  datatype TokenPair = TokenPair(accessToken: string, refreshToken: string)

  /** What the refresh call sends: the client credentials and the stored refresh token. */
  datatype RefreshRequest = RefreshRequest(clientId: string, clientSecret: string, refreshToken: string)

  /** The remote inputs of one `handle_tokens` call. */
  datatype Auth = Auth(probeStatus: int, refreshed: TokenPair)

  /** Every parameter `handle_tokens` reads is in the store. */
  predicate HasCredentials(store: map<string, string>) {
    AccessKey in store && RefreshKey in store && ClientIdKey in store && ClientSecretKey in store
  }

  /** The store after `refresh_tokens` wrote the new pair. */
  function Refreshed(store: map<string, string>, pair: TokenPair): (after: map<string, string>)
    ensures after.Keys == store.Keys + {AccessKey, RefreshKey}
    ensures after[AccessKey] == pair.accessToken && after[RefreshKey] == pair.refreshToken
    ensures forall name :: name in store && name != AccessKey && name != RefreshKey ==> after[name] == store[name]
  {
    store[AccessKey := pair.accessToken][RefreshKey := pair.refreshToken]
  }

  /** The store after one `handle_tokens` call. */
  function TokenStep(store: map<string, string>, auth: Auth): (after: map<string, string>)
    requires HasCredentials(store)
    ensures HasCredentials(after) && after.Keys == store.Keys
    ensures auth.probeStatus != Unauthorized ==> after == store
    ensures auth.probeStatus == Unauthorized ==>
      after[AccessKey] == auth.refreshed.accessToken && after[RefreshKey] == auth.refreshed.refreshToken
    ensures forall name :: name in store && name != AccessKey && name != RefreshKey ==> after[name] == store[name]
  {
    if auth.probeStatus == Unauthorized then Refreshed(store, auth.refreshed) else store
  }

  /** The refresh call one `handle_tokens` call makes, if any. */
  function RefreshCall(store: map<string, string>, auth: Auth): (call: Option<RefreshRequest>)
    requires HasCredentials(store)
    ensures call.Some? <==> auth.probeStatus == Unauthorized
    ensures call.Some? ==> call.value == RefreshRequest(store[ClientIdKey], store[ClientSecretKey], store[RefreshKey])
  {
    if auth.probeStatus == Unauthorized then
      Some(RefreshRequest(store[ClientIdKey], store[ClientSecretKey], store[RefreshKey]))
    else None
  }

  /**
   * The token `handle_tokens` returns is the refreshed one after a 401 probe and
   * the stored one otherwise; and a refresh only ever happens after a 401.
   */
  lemma TokenReturned(store: map<string, string>, auth: Auth)
    requires HasCredentials(store)
    ensures TokenStep(store, auth)[AccessKey] ==
      if auth.probeStatus == Unauthorized then auth.refreshed.accessToken else store[AccessKey]
    ensures TokenStep(store, auth) != store ==> auth.probeStatus == Unauthorized
  {
  }

  /** The process-wide parameter store, updated in place. */
  class TokenStore {
    var params: map<string, string>

    ghost predicate Valid()
      reads this
    {
      HasCredentials(params)
    }

    constructor (params: map<string, string>)
      requires HasCredentials(params)
      ensures Valid() && this.params == params
    {
      this.params := params;
    }

    /** `get_parameter(name)`. */
    method Get(name: string) returns (value: string)
      requires name in params
      ensures value == params[name]
    {
      value := params[name];
    }

    /** `update_parameter(name, value)`: overwrites one entry. */
    method Put(name: string, value: string)
      modifies this
      ensures params == old(params)[name := value]
    {
      params := params[name := value];
    }

    /** `refresh_tokens`: asks for a new pair and overwrites both tokens with it. */
    method RefreshTokens(clientId: string, clientSecret: string, refreshToken: string, refreshed: TokenPair)
      returns (request: RefreshRequest)
      modifies this
      ensures request == RefreshRequest(clientId, clientSecret, refreshToken)
      ensures params == Refreshed(old(params), refreshed)
    {
      request := RefreshRequest(clientId, clientSecret, refreshToken);
      Put(AccessKey, refreshed.accessToken);
      Put(RefreshKey, refreshed.refreshToken);
    }

    /**
     * `handle_tokens`: probes with the stored access token, refreshes on a 401,
     * and returns the access token as the store holds it afterwards.
     */
    method HandleTokens(auth: Auth) returns (accessToken: string, probeToken: string, refresh: Option<RefreshRequest>)
      requires Valid()
      modifies this
      ensures Valid()
      ensures params == TokenStep(old(params), auth)
      ensures accessToken == params[AccessKey]
      ensures probeToken == old(params)[AccessKey]
      ensures refresh == RefreshCall(old(params), auth)
    {
      probeToken := Get(AccessKey);
      var refreshToken := Get(RefreshKey);
      var clientId := Get(ClientIdKey);
      var clientSecret := Get(ClientSecretKey);
      if auth.probeStatus == Unauthorized {
        var request := RefreshTokens(clientId, clientSecret, refreshToken, auth.refreshed);
        refresh := Some(request);
      } else {
        refresh := None;
      }
      accessToken := Get(AccessKey);
    }
  }
}
