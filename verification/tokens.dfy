/**
 * The bearer-token gate in front of protected routes, and token issuance.
 * JSON Web Token (RFC 7519) signing and verification under the process
 * secret are left abstract: a `Jwt` value carries the two operations.
 */
module Tokens {
  import opened Wrappers
  import opened Text

  /** The identity claims a token carries and the gate attaches as `req.user`. */
  datatype Claims = Claims(id: string, email: string)

  /**
   * `jwt.sign(claims, secret, { expiresIn })` with the lifetime in seconds, and
   * `jwt.verify(token, secret)`, which yields nothing for a bad signature, a
   * malformed token or an expired one.
   */
  datatype Jwt = Jwt(sign: (Claims, nat) -> string, verify: string -> Option<Claims>)

  /** `expiresIn: '7d'`, in seconds. */
  const TokenLifetime: nat := 7 * 24 * 60 * 60

  /** The authentication scheme, matched case-sensitively, trailing space included. */
  const Scheme: string := "Bearer "

  const Unauthorized: nat := 401
  const NoTokenProvided: string := "No token provided"
  const InvalidToken: string := "Invalid token"

  /** The assumption about the abstract pair: a token just issued verifies to its claims. */
  predicate IssuedTokensVerify(jwt: Jwt, c: Claims)
  {
    jwt.verify(jwt.sign(c, TokenLifetime)) == Some(c)
  }

  /** `generateToken`: signs exactly the `{ id, email }` claims, valid for seven days. */
  function GenerateToken(jwt: Jwt, user: Claims): (token: string)
    ensures IssuedTokensVerify(jwt, user) ==> jwt.verify(token) == Some(user)
  {
    jwt.sign(user, TokenLifetime)
  }

  /** The token of an `Authorization` header: what follows `Bearer `, or nothing. */
  function BearerToken(header: Option<string>): (token: Option<string>)
    ensures token.Some? <==> header.Some? && StartsWith(header.value, Scheme)
    ensures token.Some? ==> header.value == Scheme + token.value
  {
    if header.Some? && StartsWith(header.value, Scheme) then Some(header.value[7..]) else None
  }

  /** Whether the gate lets a request through, and as whom. */
  datatype Verdict = Next(user: Claims) | Reject(status: nat, error: string)

  /** The decision `authMiddleware` takes for an `Authorization` header. */
  function Authenticate(jwt: Jwt, header: Option<string>): (v: Verdict)
    ensures v.Next? <==> BearerToken(header).Some? && jwt.verify(BearerToken(header).value).Some?
    ensures v.Next? ==> header.value == Scheme + BearerToken(header).value
                        && jwt.verify(BearerToken(header).value) == Some(v.user)
    ensures (header.None? || !StartsWith(header.value, Scheme)) ==> v == Reject(Unauthorized, NoTokenProvided)
    ensures v.Reject? && BearerToken(header).Some? ==> v == Reject(Unauthorized, InvalidToken)
  {
    match BearerToken(header)
    case None => Reject(Unauthorized, NoTokenProvided)
    case Some(token) =>
      match jwt.verify(token)
      case None => Reject(Unauthorized, InvalidToken)
      case Some(decoded) => Next(decoded)
  }

  /** A request as the gate sees it: its `Authorization` header and the `user` slot it fills. */
  class AuthRequest {
    const authorization: Option<string>
    var user: Option<Claims>

    constructor (authorization: Option<string>)
      ensures this.authorization == authorization && user == None
    {
      this.authorization := authorization;
      user := None;
    }
  }

  /**
   * `authMiddleware`: on success it sets `req.user` to the decoded claims and
   * calls `next` once (the `Next` verdict); otherwise it answers 401 and
   * leaves `req.user` alone.
   */
  method AuthMiddleware(req: AuthRequest, jwt: Jwt) returns (v: Verdict)
    modifies req`user
    ensures v == Authenticate(jwt, req.authorization)
    ensures v.Next? ==> req.user == Some(v.user)
    ensures v.Reject? ==> req.user == old(req.user)
  {
    var header := req.authorization;
    if header.None? || !StartsWith(header.value, Scheme) {
      return Reject(Unauthorized, NoTokenProvided);
    }
    var token := header.value[7..];
    var decoded := jwt.verify(token);
    if decoded.None? {
      return Reject(Unauthorized, InvalidToken);
    }
    req.user := decoded;
    v := Next(decoded.value);
  }

  /** A header built from a token just issued for `c` lets the request through as `c`. */
  lemma {:induction false} IssuedTokenAuthenticates(jwt: Jwt, c: Claims)
    requires IssuedTokensVerify(jwt, c)
    ensures Authenticate(jwt, Some(Scheme + GenerateToken(jwt, c))) == Next(c)
  {
    var header := Scheme + GenerateToken(jwt, c);
    assert header[..7] == Scheme;
    assert header[7..] == GenerateToken(jwt, c);
  }

  /** The scheme is matched case-sensitively: `bearer ` in lower case is refused. */
  lemma LowerCaseSchemeRefused(jwt: Jwt, token: string)
    ensures Authenticate(jwt, Some("bearer " + token)) == Reject(Unauthorized, NoTokenProvided)
  {
    var header := "bearer " + token;
    assert header[0] != Scheme[0];
  }
}
