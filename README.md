# auth0_client: JWT key resolution and token acquisition, in Dafny

This project models `src/authorization.rs` of the `auth0_client` Rust crate. That file covers two things.

* Verification of a bearer JWT against the keys an Auth0 tenant publishes (`valid_jwt`):
  1. Parse the unverified header and reject it if it has no `kid`.
  2. Start from the caller's cached key set, or fetch one from `{authority}/.well-known/jwks.json`.
  3. Look the `kid` up. On a miss, re-fetch once from the raw `authority` string and look up only in that fresh set.
  4. Dispatch on the key's algorithm family: RSA, or `InvalidJwk`.
  5. Decode, and return the token data together with the set the key was found in, so the caller can cache it.
* Token acquisition by the `Auth0Client`. `authenticate` and `authenticate_user` each build a request body by inserting fields one by one and hand it to `authenticate_with_body`, which posts it to `{domain}/oauth/token`. `authenticate` stores the returned access token, and `access_token` reads the stored token.

Files:

* `wrappers.dfy`: `Option` and `Result`.
* `jwks.dfy` (module `Jwks`): the `jsonwebtoken::jwk` types the code relies on (`Jwk`, `AlgorithmParameters`, `JwkSet`) and `JwkSet::find`. `find` comes from that library, which is not part of this model. It is modelled as "the first key, in document order, whose `kid` is present and equal to the argument".
* `authorization.dfy` (module `Authorization`): the error type, the oracles, the key-resolution methods and the `Auth0Client` class.

The key-resolution functions are async code with early returns around network calls. They become methods. Each takes the JWKS endpoint as an oracle value (`Network`). Each returns its result together with `fetched`, a ghost log of the URLs it passed to `fetch_jwks`, in order. The source returns no such log; it exists only to state how many fetches happen. Their contracts state:

* how many fetches happen, and of which URL;
* which key set comes back;
* which error is reported.

`decode_header`, `DecodingKey::from_rsa_components` and `decode` are oracle functions in a `JwtLibrary` value. `Auth0Client` is a class:

* Its configuration is constant fields.
* Its `access_token` is a mutable field.
* A ghost log `posted` records every request sent to the token endpoint.
* Its methods state the exact body they post and the new value of the stored token.

Points where the code's behaviour is easy to misread:

* The two JWKS URLs are kept as written. The initial fetch uses `authority + "/.well-known/jwks.json"` (src/authorization.rs:157). The refresh after a miss uses `authority` verbatim (src/authorization.rs:167). `JwksUrl` proves that the two are never equal, so the refresh never hits the well-known document unless the caller's authority string already names it. One consequence concerns the crate's test `errored_with_missing_kid` (src/authorization.rs:329-347). That test serves a key set only at `/.well-known/jwks.json` and expects `JwtMissingKid`. With no cached set and a kid missing from the well-known document, `valid_jwt` answers `JwtMissingKid` exactly when a fetch of the bare authority yields a key set that also lacks the kid. When that fetch fails, the caller gets the fetch's own error instead (`Authorization.UncachedMissAtBareAuthority`). So the test's expectation holds only if the bare server URL also answers with a key set.
* The key set is ordered. `find` returns the first matching key, so with duplicate `kid`s a later key is never tried (`Jwks.FindIsFirstMatch`).
* A failed request (`reqwest::get`, src/authorization.rs:147) and a JWKS body that does not deserialise (`res.json`, src/authorization.rs:148) are two separate calls, but both return the HTTP client's error type. Both are modelled as one error kind, `Request`.
* `authenticate_user` discards the token it obtains. The stored access token is unchanged afterwards (src/authorization.rs:115-117), and the model keeps that.

## Model

| member | source | states |
|---|---|---|
| `Jwks.FindFrom` | src/authorization.rs:164 | the index returned is the first index from `i` on whose key carries `kid`; `None` exactly when no key from `i` on carries it |
| `Jwks.Find` | src/authorization.rs:164 | a found key is in the set, carries the requested `kid`, and no earlier key does; `None` exactly when no key of the set carries the `kid` |
| `Jwks.FindFromUnique` | src/authorization.rs:164 | when kids are unique from `i` on, the search from `i` finds exactly the index of the key carrying the kid |
| `Jwks.FindReturnsMember` | src/authorization.rs:164-165 | when kids are unique, resolving the kid of any key of a set returns that identical record |
| `Jwks.FindIsFirstMatch` | src/authorization.rs:164 | the key at the first index carrying the kid is the one returned, whatever later keys share the kid |
| `Authorization.JwksUrl` | src/authorization.rs:157 | the initial fetch URL is the authority followed by the 22-character well-known suffix, and it is never the raw authority that the refresh fetches |
| `Authorization.PlannedFetches` | src/authorization.rs:154-170 | the longest fetch sequence `ValidJwt` may make: the well-known URL when nothing is cached, then the raw authority; it has length two exactly when no set is cached |
| `Authorization.FetchJwks` | src/authorization.rs:145-151 | one fetch of exactly `url`; its key set, or its failure as a `Request` error |
| `Authorization.FetchJwksIfNeeded` | src/authorization.rs:154-158 | a cached set comes back unchanged with zero fetches; otherwise exactly one fetch of the well-known URL, whose set or failure is returned |
| `Authorization.GetJwk` | src/authorization.rs:163-172 | a hit returns that key and the same set with zero fetches; a miss makes exactly one fetch, of the raw authority, and searches only the fresh set: a key paired with the fresh set, `JwtMissingKid`, or the fetch's own error; a returned key carries the kid and is its set's first match |
| `Authorization.DecodeWith` | src/authorization.rs:207-214 | a non-RSA key is always `InvalidJwk`, and so are RSA components that do not build; otherwise the decoder's verdict, its failure wrapped as `InvalidJwt`; success only through an RSA key and a successful decode |
| `Authorization.ValidJwt` | src/authorization.rs:195-217 | an unparsable header (`InvalidJwt`) or a missing kid (`JwtMissingKid`) fails with zero fetches; the fetches are a prefix of [well-known URL if uncached, authority], so at most two; a hit in the starting set makes no refresh and that key decides; a miss makes exactly one refresh, whose failure is propagated, whose miss is `JwtMissingKid`, and whose hit is decided by that key alone (non-RSA or unbuildable is `InvalidJwk`, else the decoder's verdict) with the refreshed set returned; on success the token was decoded with the first key of the returned set that carries the header's kid, and that key is RSA (a later key with the same kid is never tried); and that set is the cached one when nothing was fetched, else the result of the last fetch |
| `Authorization.UncachedMissAtBareAuthority` | src/authorization.rs:163-170 | with no cached set and a kid missing from the well-known document, the answer is `JwtMissingKid` exactly when the bare authority serves a key set that also lacks the kid; a failed fetch of the bare authority surfaces as its own `Request` error |
| `Authorization.VerifyWithReturnedSet` | src/authorization.rs:195-216 | verifying again with the set a successful verification returned makes no fetch and gives the same answer |
| `Authorization.Auth0Client.constructor` | src/authorization.rs:263-269 | a new client holds no access token and has posted nothing |
| `Authorization.Auth0Client.AuthenticateWithBody` | src/authorization.rs:120-137 | exactly one POST of the given body to the cleaned `{domain}/oauth/token`; a transport failure is `Request`, an unparsable answer is `Json`, else the parsed answer |
| `Authorization.Auth0Client.Authenticate` | src/authorization.rs:73-94 | posts one body with exactly the keys `grant_type`, `client_id`, `client_secret` and `audience`, holding the configuration's values; on success it stores `Some(token)` and returns the same token; on failure it returns the error and the stored token is unchanged |
| `Authorization.Auth0Client.AuthenticateUser` | src/authorization.rs:96-118 | posts one body with those four keys plus `username` and `password` holding the arguments; returns the exchange's error or unit; the stored token is unchanged in every case |
| `Authorization.Auth0Client.AccessToken` | src/authorization.rs:139-141 | returns the stored token and, as a function, changes nothing |
| `Authorization.UserBodyExtendsCredentials` | src/authorization.rs:103-113 | the password body minus `username` and `password` is exactly the client-credentials body |

## Left out

- HTTP transport (`reqwest::get`, `http_client.post`) and async/await. The JWKS endpoint is the oracle `Network.fetchJwks`. The token endpoint is the client's `post` oracle. Calls are sequential and logged (`fetched`, `posted`).
- Deserialisation of `JwkSet` and `AccessTokenResponse` (serde). It is included in the `Network.fetchJwks` oracle, and on the client it is the `parseResponse` oracle.
- `URL_REGEX` from `crate::utils`, which is not part of this model. `fetch_jwks` applies it inside the fetch oracle, so `fetched` records the URL before clean-up. On the client it is the opaque `cleanUrl` function.
- All cryptography and JWT processing in `jsonwebtoken`: `decode_header`, `DecodingKey::from_rsa_components` (base64url and RSA) and `decode` with its `Validation` checks for exp/aud/iss/required claims. These are oracle functions. `Validation` keeps a few of its fields only as data that is passed through.
- The error type of `crate::error`, which is not part of this model. It is assumed that `jsonwebtoken` errors convert to `InvalidJwt`, HTTP-client errors to `Request`, and `serde_json` errors to `Json`.
- The algorithm families other than RSA are one variant, `Other`, since the code treats them all alike.
- The `tracing` log lines and the unused URLs built for them in `authenticate` and `authenticate_user`.
- The `tests` module's mock server and file fixtures. The `Claims` struct has no fields, so `TokenData` carries only the header.
- `Auth0Client::new` and the struct's definition live outside this file. The constructor's parameters mirror the fields the file reads. The grant type is its `to_string()` text.
- Authorization.VerifyWithReturnedSet: `decode` checks expiry against the clock. The oracle is one fixed function, so "the same answer" holds only for two verifications at the same instant.
