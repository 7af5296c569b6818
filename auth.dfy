/**
 * `authenticateUser` (server/src/middleware/authMiddleware.ts): the bearer-token check in front
 * of every user route. The header form is the one of section 2.1 of RFC 6750, matched here
 * case-sensitively on the exact prefix "Bearer ".
 */
module Auth {
  import opened Wrappers
  import opened Text

  const BearerPrefix := "Bearer "

  /** What the identity provider decodes from a valid token. */
  datatype DecodedToken = DecodedToken(uid: string)

  /** A 401 answer with its `error` text. */
  datatype Rejection = Rejection(status: int, error: string)

  const NoToken := Rejection(401, "Unauthorized: No token provided")
  const InvalidToken := Rejection(401, "Unauthorized: Invalid token")

  /** The header is present and starts with the exact prefix. */
  predicate HasBearer(authHeader: Option<string>) {
    authHeader.Some? && authHeader.value != "" && StartsWith(authHeader.value, BearerPrefix)
  }

  /** `authHeader.split('Bearer ')[1]` for a header that starts with the prefix. */
  function Token(authHeader: string): (token: string)
    requires StartsWith(authHeader, BearerPrefix)
  {
    assert OccursAt(authHeader, BearerPrefix, 0);
    var pieces := Split(authHeader, BearerPrefix);
    assert pieces == [""] + Split(authHeader[|BearerPrefix|..], BearerPrefix);
    pieces[1]
  }

  /** The token is the text after the prefix up to the next "Bearer ", if another occurs. */
  lemma TokenIsTextAfterPrefix(authHeader: string)
    requires StartsWith(authHeader, BearerPrefix)
    ensures var rest := authHeader[|BearerPrefix|..];
      && (IndexOf(rest, BearerPrefix).None? ==> Token(authHeader) == rest)
      && (IndexOf(rest, BearerPrefix).Some? ==> Token(authHeader) == rest[..IndexOf(rest, BearerPrefix).value])
  {
    assert OccursAt(authHeader, BearerPrefix, 0);
    SplitHead(authHeader[|BearerPrefix|..], BearerPrefix);
  }

  /** The token never holds the prefix text itself. */
  lemma TokenHasNoPrefix(authHeader: string)
    requires StartsWith(authHeader, BearerPrefix)
    ensures !Contains(Token(authHeader), BearerPrefix)
  {
    assert OccursAt(authHeader, BearerPrefix, 0);
    SplitPiecesFree(authHeader, BearerPrefix, 1);
  }

  /** A header built from a token is parsed back to that token. */
  lemma TokenRoundTrip(token: string)
    requires !Contains(token, BearerPrefix)
    ensures StartsWith(BearerPrefix + token, BearerPrefix)
    ensures Token(BearerPrefix + token) == token
  {
    TokenIsTextAfterPrefix(BearerPrefix + token);
    assert (BearerPrefix + token)[|BearerPrefix|..] == token;
  }

  /** The prefix is matched case-sensitively: a lower-case scheme is refused. */
  lemma LowerCaseSchemeRefused(token: string)
    ensures !HasBearer(Some("bearer " + token))
  {
    assert ("bearer " + token)[0] == 'b';
  }

  /** An incoming request as far as the middleware sees and changes it. */
  class Request {
    var user: Option<DecodedToken>
    /** How many times the middleware has passed the request on. */
    var nextCalls: nat

    constructor ()
      ensures user.None? && nextCalls == 0
    {
      user := None;
      nextCalls := 0;
    }
  }

  /** The middleware: `verify` is the identity provider's check of a token. On success it sets
   *  `req.user` and calls `next` once; otherwise it answers 401 and does not call `next`. */
  method AuthenticateUser(req: Request, authHeader: Option<string>, verify: string -> Option<DecodedToken>)
    returns (rejection: Option<Rejection>)
    modifies req
    ensures !HasBearer(authHeader) ==>
      rejection == Some(NoToken) && req.user == old(req.user) && req.nextCalls == old(req.nextCalls)
    ensures HasBearer(authHeader) && verify(Token(authHeader.value)).None? ==>
      rejection == Some(InvalidToken) && req.user == old(req.user) && req.nextCalls == old(req.nextCalls)
    ensures HasBearer(authHeader) && verify(Token(authHeader.value)).Some? ==>
      rejection.None? && req.user == verify(Token(authHeader.value)) && req.nextCalls == old(req.nextCalls) + 1
  {
    if authHeader.None? || authHeader.value == "" || !StartsWith(authHeader.value, BearerPrefix) {
      return Some(NoToken);
    }
    var token := Token(authHeader.value);
    var decodedToken := verify(token);
    if decodedToken.None? {
      return Some(InvalidToken);
    }
    req.user := decodedToken;
    req.nextCalls := req.nextCalls + 1;
    rejection := None;
  }
}
