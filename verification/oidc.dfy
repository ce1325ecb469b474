/**
 * The identity provider as the backend sees it, reduced to oracles: ID-token
 * verification (signature, issuer, audience and the `exp` check of section
 * 3.1.3.7 of OpenID Connect Core 1.0), the authorization-code exchange, the
 * refresh-token grant, and the two URLs the provider client builds.
 */
module Oidc {
  import opened Wrappers
  import opened Http

  /** `dto.IdTokenClaims`. */
  datatype IdTokenClaims = IdTokenClaims(email: string, givenName: string, familyName: string, roles: seq<string>)

  /** A verified ID token: its subject, and its claims when they decode. */
  datatype IdToken = IdToken(subject: string, claims: Option<IdTokenClaims>)

  /** What `Verify` reports: a token, the distinguished `TokenExpiredError`, or any other failure. */
  datatype Verification = Verified(token: IdToken) | Expired | Invalid

  /** `oauth2.Token`, with `Extra("id_token").(string)` already taken: `None` when absent or not a string. */
  datatype OAuthToken = OAuthToken(accessToken: string, refreshToken: string, idToken: Option<string>)

  datatype Provider = Provider(
    verify: string -> Verification,
    /** Authorization-code exchange; `None` when the provider call fails. */
    exchange: string -> Option<OAuthToken>,
    /** Refresh-token grant through the token source; `None` when the provider call fails. */
    refresh: string -> Option<OAuthToken>,
    /** `AuthCodeURL(state)`. */
    authCodeUrl: string -> string,
    /** The end-session URL, parsed; `None` when it does not parse. */
    logoutUrl: Option<Url>)
}
