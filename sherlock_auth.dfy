/** `sherlockml/clients/auth.py`: the older auth hook, which holds one
    token itself. Its token request goes to `<hudson URL>/access_token`. The
    endpoint's answer to the k-th fetch of one call is `obtain(k)`. */
module SherlockAuth {
  import opened Wrappers
  import opened AccessTokens
  import opened Sessions
  import opened Http

  /** `AccessTokenClient(hudson_url).get_access_token(client_id, client_secret)`'s request. */
  function SherlockTokenRequest(hudsonUrl: string, clientId: string, clientSecret: string): (r: TokenRequest)
    ensures r.url == hudsonUrl + "/access_token"
    ensures r.payload.Keys == {"client_id", "client_secret", "grant_type"}
    ensures r.payload["grant_type"] == "client_credentials"
    ensures r.payload["client_id"] == clientId && r.payload["client_secret"] == clientSecret
  {
    TokenRequest(hudsonUrl + "/access_token", Payload(clientId, clientSecret))
  }

  class SherlockMLAuth {
    const authServiceUrl: string
    const clientId: string
    const clientSecret: string
    var accessToken: Option<AccessToken>

    constructor (authServiceUrl: string, clientId: string, clientSecret: string)
      ensures this.authServiceUrl == authServiceUrl && this.clientId == clientId && this.clientSecret == clientSecret
      ensures accessToken == None
    {
      this.authServiceUrl := authServiceUrl;
      this.clientId := clientId;
      this.clientSecret := clientSecret;
      accessToken := None;
    }

    /** The token request every fetch of this hook sends. */
    function Request(): TokenRequest {
      SherlockTokenRequest(authServiceUrl, clientId, clientSecret)
    }

    /** `__call__(request)`: fetch when no token is held, then fetch again
        when the held token has expired, and set the bearer header. A token
        that is already expired when first fetched is therefore fetched
        twice, and a second token is used whatever its expiry. */
    method Call(request: PreparedRequest, now: int, obtain: nat -> TokenReply)
      returns (r: Result<PreparedRequest, string>, fetches: nat)
      modifies this, request
      ensures request.url == old(request.url)
      ensures fetches <= 2
      ensures fetches == 0 <==> IsValidAccessToken(old(accessToken), now)
      ensures fetches == 0 ==> accessToken == old(accessToken) && r.Ok?
      ensures fetches == 2 <==> old(accessToken).None? && obtain(0).Granted? && obtain(0).expiresIn < 0
      ensures r.Ok? ==> r.value == request && accessToken.Some?
                        && request.headers == old(request.headers)["Authorization" := BearerHeader(accessToken.value.token)]
      ensures r.Ok? && fetches > 0 ==> TokenOf(obtain(fetches - 1), now).Ok? && accessToken == Some(TokenOf(obtain(fetches - 1), now).value)
      ensures r.Err? ==> request.headers == old(request.headers) && fetches > 0 && obtain(fetches - 1).Refused?
      ensures r.Err? && fetches == 1 ==> accessToken == old(accessToken)
    {
      fetches := 0;
      if accessToken.None? {
        fetches := 1;
        var t :- Fetch(now, obtain, 0);
      }
      if accessToken.value.expiresAt < now {
        fetches := fetches + 1;
        var t :- Fetch(now, obtain, fetches - 1);
      }
      request.headers := request.headers["Authorization" := BearerHeader(accessToken.value.token)];
      r := Ok(request);
    }

    /** `_get_token()` as the `k`-th fetch, storing the token it grants. */
    method Fetch(now: int, obtain: nat -> TokenReply, k: nat) returns (r: Result<AccessToken, string>)
      modifies this
      ensures r == TokenOf(obtain(k), now)
      ensures accessToken == if r.Ok? then Some(r.value) else old(accessToken)
    {
      r := TokenOf(obtain(k), now);
      if r.Ok? {
        accessToken := Some(r.value);
      }
    }
  }
}
