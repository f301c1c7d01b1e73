/**
 * Authentication against an Auth0 tenant: acquiring an access token from the token
 * endpoint (`Auth0Client`) and verifying a bearer JWT against the keys published at the
 * tenant's JWKS endpoint, with a caller-held key-set cache and one refresh on a miss.
 *
 * Everything outside this logic is an oracle value passed in: the JWKS endpoint
 * (`Network`), the `jsonwebtoken` header parser, RSA key builder and token decoder
 * (`JwtLibrary`), and on the client the token endpoint, the JSON parser of its answer and
 * the URL clean-up regex. Each key-resolution method returns, as `fetched`, the URLs it
 * handed to the JWKS fetch, in order, as a ghost log.
 */
module Authorization {
  import opened Wrappers
  import opened Jwks

  /** A failure reported by `jsonwebtoken` (parse, signature or claims validation). */
  datatype JwtError = JwtError(kind: string)

  /** The crate's error type, restricted to the variants this file produces. `Request` is
      every failure of the HTTP client, including reading a JWKS body that is not a key set;
      `Json` is a token-endpoint answer that does not deserialise. */
  datatype Error =
    | Request(reason: string)
    | Json(reason: string)
    | InvalidJwt(cause: JwtError)
    | JwtMissingKid
    | InvalidJwk

  /** The unverified header of a token: declared algorithm and optional key identifier. */
  datatype Header = Header(alg: string, kid: Option<string>)

  /** The caller's validation policy; passed to the decoder unchanged and never inspected. */
  datatype Validation = Validation(
    algorithms: set<string>,
    validateExp: bool,
    validateAud: bool,
    requiredSpecClaims: set<string>)

  /** A decoded and validated token. The claims type of the source has no fields. */
  datatype TokenData = TokenData(header: Header)

  /** Verification key material built from RSA components. */
  datatype DecodingKey = DecodingKey(material: seq<bv8>)

  /** `fetch_jwks`: URL clean-up, HTTP GET and deserialisation of the body as a key set. */
  datatype Network = Network(fetchJwks: string -> Result<JwkSet, string>)

  /** `decode_header`, `DecodingKey::from_rsa_components` and `decode` of `jsonwebtoken`. */
  datatype JwtLibrary = JwtLibrary(
    decodeHeader: string -> Result<Header, JwtError>,
    fromRsaComponents: (string, string) -> Result<DecodingKey, JwtError>,
    decode: (string, DecodingKey, Validation) -> Result<TokenData, JwtError>)

  /** The well-known key-set location used when the caller holds no key set. It is never
      the bare authority, which is what the refresh after a miss fetches. */
  function JwksUrl(authority: string): (url: string)
    ensures |url| == |authority| + 22 && url[..|authority|] == authority
    ensures url != authority
  {
    authority + "/.well-known/jwks.json"
  }

  /** The longest sequence of fetches `ValidJwt` may make, in order: the well-known URL when
      no set is cached, then the raw authority for the single refresh. A call makes a prefix
      of it. */
  function PlannedFetches(jwks: Option<JwkSet>, authority: string): (urls: seq<string>)
    ensures 1 <= |urls| <= 2 && urls[|urls| - 1] == authority
    ensures |urls| == 2 <==> jwks.None?
  {
    (if jwks.None? then [JwksUrl(authority)] else []) + [authority]
  }

  /** The key identifier a token's header declares, if the header parses and carries one. */
  function HeaderKid(lib: JwtLibrary, token: string): Option<string>
  {
    match lib.decodeHeader(token)
    case Err(_) => None
    case Ok(header) => header.kid
  }

  /** The key set resolution starts from: the cached one, else the well-known fetch's result. */
  ghost function StartingSet(net: Network, jwks: Option<JwkSet>, authority: string): Option<JwkSet>
  {
    if jwks.Some? then jwks
    else match net.fetchJwks(JwksUrl(authority))
      case Ok(fetched) => Some(fetched)
      case Err(_) => None
  }

  /** The oracle for one JWKS fetch. */
  method FetchJwks(net: Network, url: string) returns (r: Result<JwkSet, Error>, ghost fetched: seq<string>)
    ensures fetched == [url]
    ensures r.Ok? <==> net.fetchJwks(url).Ok?
    ensures r.Ok? ==> r.value == net.fetchJwks(url).value
    ensures r.Err? ==> r.error == Request(net.fetchJwks(url).error)
  {
    fetched := [url];
    match net.fetchJwks(url)
    case Ok(keys) => r := Ok(keys);
    case Err(reason) => r := Err(Request(reason));
  }

  /** `fetch_jwks_if_needed`: a cached set is returned as it is without any fetch; otherwise
      exactly one fetch is made, of the well-known URL, and its outcome is returned. */
  method FetchJwksIfNeeded(net: Network, jwks: Option<JwkSet>, authority: string)
    returns (r: Result<JwkSet, Error>, ghost fetched: seq<string>)
    ensures jwks.Some? ==> fetched == [] && r == Ok(jwks.value)
    ensures jwks.None? ==> fetched == [JwksUrl(authority)]
    ensures jwks.None? && net.fetchJwks(JwksUrl(authority)).Ok? ==>
              r == Ok(net.fetchJwks(JwksUrl(authority)).value)
    ensures jwks.None? && net.fetchJwks(JwksUrl(authority)).Err? ==>
              r == Err(Request(net.fetchJwks(JwksUrl(authority)).error))
    ensures r.Ok? <==> StartingSet(net, jwks, authority).Some?
    ensures r.Ok? ==> r.value == StartingSet(net, jwks, authority).value
  {
    match jwks
    case Some(cached) =>
      r, fetched := Ok(cached), [];
    case None =>
      r, fetched := FetchJwks(net, JwksUrl(authority));
  }

  /** `get_jwk`: look `kid` up in `jwks`; on a miss fetch the raw authority once and look
      up only in that fresh set. A returned key always carries `kid` and is the first such
      key of the set returned with it. */
  method GetJwk(net: Network, kid: string, jwks: JwkSet, authority: string)
    returns (r: Result<(Jwk, JwkSet), Error>, ghost fetched: seq<string>)
    ensures Find(jwks, kid).Some? ==> fetched == [] && r == Ok((Find(jwks, kid).value, jwks))
    ensures Find(jwks, kid).None? ==> fetched == [authority]
    ensures Find(jwks, kid).None? && net.fetchJwks(authority).Err? ==>
              r == Err(Request(net.fetchJwks(authority).error))
    ensures Find(jwks, kid).None? && net.fetchJwks(authority).Ok? ==>
              var renewed := net.fetchJwks(authority).value;
              if Find(renewed, kid).Some? then r == Ok((Find(renewed, kid).value, renewed))
              else r == Err(JwtMissingKid)
    ensures r.Ok? ==> r.value.0.kid == Some(kid) && Find(r.value.1, kid) == Some(r.value.0)
    ensures r.Err? ==> r.error == JwtMissingKid || r.error.Request?
  {
    match Find(jwks, kid)
    case Some(jwk) =>
      r, fetched := Ok((jwk, jwks)), [];
    case None =>
      var refreshed;
      refreshed, fetched := FetchJwks(net, authority);
      if refreshed.Err? {
        r := Err(refreshed.error);
        return;
      }
      match Find(refreshed.value, kid)
      case Some(jwk) => r := Ok((jwk, refreshed.value));
      case None => r := Err(JwtMissingKid);
  }

  /** The closed algorithm dispatch and decoding of `valid_jwt`: an RSA key whose components
      build gives the decoder's verdict; any other family, or components that do not build,
      is `InvalidJwk`, and no other key is tried. */
  function DecodeWith(lib: JwtLibrary, token: string, validation: Validation, jwk: Jwk)
    : (r: Result<TokenData, Error>)
    ensures jwk.algorithm.Other? ==> r == Err(InvalidJwk)
    ensures jwk.algorithm.RSA? && lib.fromRsaComponents(jwk.algorithm.n, jwk.algorithm.e).Err? ==>
              r == Err(InvalidJwk)
    ensures r.Ok? ==>
              && jwk.algorithm.RSA?
              && var key := lib.fromRsaComponents(jwk.algorithm.n, jwk.algorithm.e);
                 key.Ok? && lib.decode(token, key.value, validation) == Ok(r.value)
    ensures jwk.algorithm.RSA? && lib.fromRsaComponents(jwk.algorithm.n, jwk.algorithm.e).Ok? ==>
              var verdict := lib.decode(token, lib.fromRsaComponents(jwk.algorithm.n, jwk.algorithm.e).value, validation);
              && (verdict.Ok? ==> r == Ok(verdict.value))
              && (verdict.Err? ==> r == Err(InvalidJwt(verdict.error)))
    ensures r.Err? ==> r.error == InvalidJwk || r.error.InvalidJwt?
    ensures r.Err? && r.error.InvalidJwt? ==>
              && jwk.algorithm.RSA?
              && var key := lib.fromRsaComponents(jwk.algorithm.n, jwk.algorithm.e);
                 key.Ok? && lib.decode(token, key.value, validation) == Err(r.error.cause)
  {
    match jwk.algorithm
    case RSA(n, e) =>
      (match lib.fromRsaComponents(n, e)
       case Err(_) => Err(InvalidJwk)
       case Ok(key) =>
         match lib.decode(token, key, validation)
         case Err(cause) => Err(InvalidJwt(cause))
         case Ok(data) => Ok(data))
    case Other => Err(InvalidJwk)
  }

  /** The security invariant of verification: `data` was produced by the decoder from an
      RSA key of `keys` that is the first key carrying the token's declared kid. */
  ghost predicate VerifiedAgainst(lib: JwtLibrary, token: string, validation: Validation,
                                  keys: JwkSet, data: TokenData)
  {
    HeaderKid(lib, token).Some? &&
    var key := Find(keys, HeaderKid(lib, token).value);
    key.Some? && key.value.algorithm.RSA? &&
    DecodeWith(lib, token, validation, key.value) == Ok(data)
  }

  /** `valid_jwt`: parse the header, require a kid, start from the cached set or one fetch
      of the well-known URL, resolve the key with at most one refresh, dispatch on its
      family and decode. On success the token data is returned with the set the key was
      found in, for the caller to cache. */
  method ValidJwt(net: Network, lib: JwtLibrary, token: string, authority: string,
                  validation: Validation, jwks: Option<JwkSet>)
    returns (r: Result<(TokenData, JwkSet), Error>, ghost fetched: seq<string>)
    // early rejection, before any network work
    ensures lib.decodeHeader(token).Err? ==>
              fetched == [] && r == Err(InvalidJwt(lib.decodeHeader(token).error))
    ensures lib.decodeHeader(token).Ok? && HeaderKid(lib, token).None? ==>
              fetched == [] && r == Err(JwtMissingKid)
    // bounded fetching: a prefix of [well-known URL if uncached] + [authority]
    ensures fetched <= PlannedFetches(jwks, authority) && |fetched| <= 2
    ensures HeaderKid(lib, token).Some? && jwks.None? ==> fetched != []
    // the initial fetch fails
    ensures HeaderKid(lib, token).Some? && StartingSet(net, jwks, authority).None? ==>
              fetched == [JwksUrl(authority)] &&
              r == Err(Request(net.fetchJwks(JwksUrl(authority)).error))
    // a hit in the starting set: no refresh, and that key decides
    ensures HeaderKid(lib, token).Some? && StartingSet(net, jwks, authority).Some? &&
            Find(StartingSet(net, jwks, authority).value, HeaderKid(lib, token).value).Some? ==>
              var start := StartingSet(net, jwks, authority).value;
              var res := DecodeWith(lib, token, validation, Find(start, HeaderKid(lib, token).value).value);
              |fetched| == |PlannedFetches(jwks, authority)| - 1 &&
              (res.Ok? ==> r == Ok((res.value, start))) &&
              (res.Err? ==> r == Err(res.error))
    // a miss in the starting set: exactly one refresh, of the raw authority
    ensures HeaderKid(lib, token).Some? && StartingSet(net, jwks, authority).Some? &&
            Find(StartingSet(net, jwks, authority).value, HeaderKid(lib, token).value).None? ==>
              fetched == PlannedFetches(jwks, authority) &&
              (net.fetchJwks(authority).Err? ==> r == Err(Request(net.fetchJwks(authority).error))) &&
              (net.fetchJwks(authority).Ok? &&
               Find(net.fetchJwks(authority).value, HeaderKid(lib, token).value).None? ==>
                 r == Err(JwtMissingKid))
    // a hit in the refreshed set: that key decides, and the refreshed set is returned
    ensures HeaderKid(lib, token).Some? && StartingSet(net, jwks, authority).Some? &&
            Find(StartingSet(net, jwks, authority).value, HeaderKid(lib, token).value).None? &&
            net.fetchJwks(authority).Ok? &&
            Find(net.fetchJwks(authority).value, HeaderKid(lib, token).value).Some? ==>
              var renewed := net.fetchJwks(authority).value;
              var res := DecodeWith(lib, token, validation, Find(renewed, HeaderKid(lib, token).value).value);
              (res.Ok? ==> r == Ok((res.value, renewed))) &&
              (res.Err? ==> r == Err(res.error))
    // success: the returned set is the one the key was found in, and the token was
    // verified against that set's key for the declared kid
    ensures r.Ok? ==> VerifiedAgainst(lib, token, validation, r.value.1, r.value.0)
    ensures r.Ok? && fetched == [] ==> jwks == Some(r.value.1)
    ensures r.Ok? && fetched != [] ==> net.fetchJwks(fetched[|fetched| - 1]) == Ok(r.value.1)
  {
    var header := lib.decodeHeader(token);
    if header.Err? {
      r, fetched := Err(InvalidJwt(header.error)), [];
      return;
    }
    if header.value.kid.None? {
      r, fetched := Err(JwtMissingKid), [];
      return;
    }
    var kid := header.value.kid.value;
    var start;
    start, fetched := FetchJwksIfNeeded(net, jwks, authority);
    if start.Err? {
      r := Err(start.error);
      return;
    }
    var found;
    ghost var refetched;
    found, refetched := GetJwk(net, kid, start.value, authority);
    fetched := fetched + refetched;
    if found.Err? {
      r := Err(found.error);
      return;
    }
    var jwt := DecodeWith(lib, token, validation, found.value.0);
    if jwt.Err? {
      r := Err(jwt.error);
      return;
    }
    r := Ok((jwt.value, found.value.1));
  }

  /** Caller-side caching: verifying a token once more with the key set the first successful
      verification returned makes no fetch and gives the same answer. */
  method VerifyWithReturnedSet(net: Network, lib: JwtLibrary, token: string, authority: string,
                               validation: Validation, jwks: Option<JwkSet>)
    returns (first: Result<(TokenData, JwkSet), Error>, second: Result<(TokenData, JwkSet), Error>,
             ghost fetchedAgain: seq<string>)
    ensures first.Ok? ==> second == first
    ensures first.Ok? ==> fetchedAgain == []
  {
    ghost var fetched;
    first, fetched := ValidJwt(net, lib, token, authority, validation, jwks);
    if first.Ok? {
      second, fetchedAgain := ValidJwt(net, lib, token, authority, validation, Some(first.value.1));
    } else {
      second, fetchedAgain := first, [];
    }
  }

  /** Without a cached set, a kid missing from the well-known document is reported as
      `JwtMissingKid` only when the bare authority also serves a key set without it; when
      fetching the bare authority fails, that failure is what the caller sees. */
  method UncachedMissAtBareAuthority(net: Network, lib: JwtLibrary, token: string, authority: string,
                                     validation: Validation)
    returns (r: Result<(TokenData, JwkSet), Error>)
    requires HeaderKid(lib, token).Some?
    requires net.fetchJwks(JwksUrl(authority)).Ok?
    requires Find(net.fetchJwks(JwksUrl(authority)).value, HeaderKid(lib, token).value).None?
    ensures net.fetchJwks(authority).Err? ==>
              r == Err(Request(net.fetchJwks(authority).error)) && r != Err(JwtMissingKid)
    ensures r == Err(JwtMissingKid) <==>
              net.fetchJwks(authority).Ok? &&
              Find(net.fetchJwks(authority).value, HeaderKid(lib, token).value).None?
  {
    ghost var fetched;
    r, fetched := ValidJwt(net, lib, token, authority, validation, None);
  }

  /** The body of one POST to the token endpoint. */
  datatype TokenRequest = TokenRequest(url: string, body: map<string, string>)

  /** The token endpoint's answer, as far as the client reads it. */
  datatype AccessTokenResponse = AccessTokenResponse(accessToken: string)

  /** A client of one Auth0 tenant. The configuration is fixed at construction; the only
      state the operations change is the stored access token. */
  class Auth0Client {
    const clientId: string
    const clientSecret: string
    const domain: string
    const audience: string
    const grantType: string
    /** `http_client.post(url).json(body).send()` then `text()`: the body text or a failure. */
    const post: TokenRequest -> Result<string, string>
    /** `serde_json::from_str::<AccessTokenResponse>`. */
    const parseResponse: string -> Result<AccessTokenResponse, string>
    /** `URL_REGEX.replace_all(_, "$1")` of the crate's utilities. */
    const cleanUrl: string -> string

    var accessToken: Option<string>
    /** Every request posted to the token endpoint, oldest first. */
    ghost var posted: seq<TokenRequest>

    constructor (clientId: string, clientSecret: string, domain: string, audience: string,
                 grantType: string, post: TokenRequest -> Result<string, string>,
                 parseResponse: string -> Result<AccessTokenResponse, string>,
                 cleanUrl: string -> string)
      ensures this.clientId == clientId && this.clientSecret == clientSecret
      ensures this.domain == domain && this.audience == audience && this.grantType == grantType
      ensures this.post == post && this.parseResponse == parseResponse && this.cleanUrl == cleanUrl
      ensures accessToken == None && posted == []
    {
      this.clientId, this.clientSecret := clientId, clientSecret;
      this.domain, this.audience, this.grantType := domain, audience, grantType;
      this.post, this.parseResponse, this.cleanUrl := post, parseResponse, cleanUrl;
      accessToken, posted := None, [];
    }

    /** The token endpoint of the tenant. */
    function TokenUrl(): string
    {
      cleanUrl(domain + "/oauth/token")
    }

    /** What one POST of `request` yields: a transport failure, an answer that does not
        parse, or the parsed answer. */
    function Exchange(request: TokenRequest): Result<AccessTokenResponse, Error>
    {
      match post(request)
      case Err(reason) => Err(Request(reason))
      case Ok(text) =>
        match parseResponse(text)
        case Err(reason) => Err(Json(reason))
        case Ok(response) => Ok(response)
    }

    /** The client-credentials body: exactly these four fields, from the configuration. */
    ghost predicate IsCredentialsBody(body: map<string, string>)
    {
      && body.Keys == {"grant_type", "client_id", "client_secret", "audience"}
      && body["grant_type"] == grantType && body["client_id"] == clientId
      && body["client_secret"] == clientSecret && body["audience"] == audience
    }

    /** The password body: the four credential fields plus the user's name and password. */
    ghost predicate IsUserBody(body: map<string, string>, username: string, password: string)
    {
      && body.Keys == {"grant_type", "client_id", "client_secret", "audience", "username", "password"}
      && body["grant_type"] == grantType && body["client_id"] == clientId
      && body["client_secret"] == clientSecret && body["audience"] == audience
      && body["username"] == username && body["password"] == password
    }

    /** `authenticate_with_body`: one POST of `body` to the token endpoint. */
    method AuthenticateWithBody(body: map<string, string>) returns (r: Result<AccessTokenResponse, Error>)
      modifies this`posted
      ensures posted == old(posted) + [TokenRequest(TokenUrl(), body)]
      ensures r == Exchange(TokenRequest(TokenUrl(), body))
    {
      var request := TokenRequest(TokenUrl(), body);
      posted := posted + [request];
      var response := post(request);
      if response.Err? {
        r := Err(Request(response.error));
        return;
      }
      var parsed := parseResponse(response.value);
      if parsed.Err? {
        r := Err(Json(parsed.error));
        return;
      }
      r := Ok(parsed.value);
    }

    /** `authenticate`: post the client-credentials body; on success store the token and
        return it, on failure leave the stored token as it was. */
    method Authenticate() returns (r: Result<string, Error>)
      modifies this`accessToken, this`posted
      ensures |posted| == |old(posted)| + 1 && posted[..|old(posted)|] == old(posted)
      ensures posted[|old(posted)|].url == TokenUrl() && IsCredentialsBody(posted[|old(posted)|].body)
      ensures Exchange(posted[|old(posted)|]).Ok? ==>
                r == Ok(Exchange(posted[|old(posted)|]).value.accessToken) && accessToken == Some(r.value)
      ensures Exchange(posted[|old(posted)|]).Err? ==>
                r == Err(Exchange(posted[|old(posted)|]).error) && accessToken == old(accessToken)
    {
      var body: map<string, string> := map[];
      body := body["grant_type" := grantType];
      body := body["client_id" := clientId];
      body := body["client_secret" := clientSecret];
      body := body["audience" := audience];
      var response := AuthenticateWithBody(body);
      if response.Err? {
        r := Err(response.error);
        return;
      }
      accessToken := Some(response.value.accessToken);
      r := Ok(response.value.accessToken);
    }

    /** `authenticate_user`: post the password body. The token of a successful answer is
        not stored: the stored token is the same afterwards whatever the answer. */
    method AuthenticateUser(username: string, password: string) returns (r: Result<(), Error>)
      modifies this`posted
      ensures |posted| == |old(posted)| + 1 && posted[..|old(posted)|] == old(posted)
      ensures posted[|old(posted)|].url == TokenUrl()
      ensures IsUserBody(posted[|old(posted)|].body, username, password)
      ensures Exchange(posted[|old(posted)|]).Ok? ==> r == Ok(())
      ensures Exchange(posted[|old(posted)|]).Err? ==> r == Err(Exchange(posted[|old(posted)|]).error)
      ensures accessToken == old(accessToken)
    {
      var body: map<string, string> := map[];
      body := body["grant_type" := grantType];
      body := body["client_id" := clientId];
      body := body["client_secret" := clientSecret];
      body := body["audience" := audience];
      body := body["username" := username];
      body := body["password" := password];
      var response := AuthenticateWithBody(body);
      if response.Err? {
        r := Err(response.error);
        return;
      }
      r := Ok(());
    }

    /** `access_token`: the stored token, read without any change. */
    function AccessToken(): (t: Option<string>)
      reads this
      ensures t == accessToken
    {
      accessToken
    }
  }

  /** The password body is the client-credentials body extended by exactly the two user
      fields: removing them gives back the credentials body. */
  lemma UserBodyExtendsCredentials(c: Auth0Client, body: map<string, string>, username: string, password: string)
    requires c.IsUserBody(body, username, password)
    ensures c.IsCredentialsBody(body - {"username", "password"})
    ensures body.Keys - (body - {"username", "password"}).Keys == {"username", "password"}
  {
  }
}
