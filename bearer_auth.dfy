/**
 * The back end's bearer-token dependency (dependencies.py) and the header
 * round trip between it and the front end's client.
 *
 * The JWT decoder (`decode_token`, PyJWT with the configured secret and
 * clock) is a parameter: it maps a token to its claims, or to None where
 * PyJWT raises.
 */
module BearerAuth {
  import opened Wrappers
  import opened Text
  import ApiClient

  datatype HttpError = HttpError(status: int, detail: string)

  const MissingBearer: string := "Missing or invalid bearer token"
  const InvalidToken: string := "Invalid or expired token"
  const InvalidSubject: string := "Invalid token subject"

  type Claims = map<string, string>
  type Decoder = string -> Option<Claims>

  /** The `Authorization` header as FastAPI hands it over: "" when the request has none. */
  function HeaderValue(headers: map<string, string>): string {
    if ApiClient.AuthorizationHeader in headers then headers[ApiClient.AuthorizationHeader] else ""
  }

  /**
   * `get_current_user`: prefix check, then decoding of the header with its
   * first "Bearer " removed, then the subject check.
   */
  function GetCurrentUser(authorization: string, decode: Decoder): (r: Result<string, HttpError>)
    ensures !StartsWith(authorization, ApiClient.BearerPrefix) ==> r == Failure(HttpError(401, MissingBearer))
    ensures StartsWith(authorization, ApiClient.BearerPrefix) ==>
      var claims := decode(authorization[|ApiClient.BearerPrefix|..]);
      && (claims.None? ==> r == Failure(HttpError(401, InvalidToken)))
      && (claims.Some? && ("sub" !in claims.value || claims.value["sub"] == "") ==> r == Failure(HttpError(401, InvalidSubject)))
    ensures r.Success? <==>
      && StartsWith(authorization, ApiClient.BearerPrefix)
      && decode(authorization[|ApiClient.BearerPrefix|..]).Some?
      && "sub" in decode(authorization[|ApiClient.BearerPrefix|..]).value
      && decode(authorization[|ApiClient.BearerPrefix|..]).value["sub"] != ""
    ensures r.Success? ==> r.value == decode(authorization[|ApiClient.BearerPrefix|..]).value["sub"]
    ensures r.Failure? ==> r.error.status == 401
  {
    if !StartsWith(authorization, ApiClient.BearerPrefix) then
      Failure(HttpError(401, MissingBearer))
    else
      var token := ReplaceFirst(authorization, ApiClient.BearerPrefix, "");
      ReplaceFirstOfPrefix(authorization, ApiClient.BearerPrefix);
      match decode(token)
      case None => Failure(HttpError(401, InvalidToken))
      case Some(payload) =>
        if "sub" !in payload || payload["sub"] == "" then Failure(HttpError(401, InvalidSubject))
        else Success(payload["sub"])
  }

  /**
   * The header the client sets for a non-empty token passes the prefix check
   * and the decoder receives exactly that token; with no token the request
   * carries no header and is refused as missing.
   */
  lemma HeaderRoundTrip(headers: map<string, string>, token: string, decode: Decoder)
    ensures var sent := HeaderValue(ApiClient.WithAuthToken(headers, token));
      && (token != "" ==> StartsWith(sent, ApiClient.BearerPrefix) && sent[|ApiClient.BearerPrefix|..] == token)
      && (token == "" ==> GetCurrentUser(sent, decode) == Failure(HttpError(401, MissingBearer)))
  {
    var sent := HeaderValue(ApiClient.WithAuthToken(headers, token));
    if token != "" {
      assert sent == ApiClient.BearerPrefix + token;
      assert sent[..|ApiClient.BearerPrefix|] == ApiClient.BearerPrefix;
    }
  }

  /** A token whose claims carry a non-empty subject authenticates as that subject once the client has sent it. */
  lemma RoundTripAuthenticates(headers: map<string, string>, token: string, decode: Decoder, user: string)
    requires token != "" && user != ""
    requires decode(token).Some? && "sub" in decode(token).value && decode(token).value["sub"] == user
    ensures GetCurrentUser(HeaderValue(ApiClient.WithAuthToken(headers, token)), decode) == Success(user)
  {
    HeaderRoundTrip(headers, token, decode);
  }
}
