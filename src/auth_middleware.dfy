/** The HTTP authentication gate (internal/middleware/auth_middleware.go). A request presents
    an `Authorization` header and a `token` query parameter; token verification (JWT parsing
    and signature checks) is an oracle that either yields the claims or an error message. What
    the gate stores in the request's locals is its output. */
module Auth {
  import opened Wrappers
  import opened Text

  const Bearer := "Bearer "
  const StatusUnauthorized := 401

  /** The claims a verified token carries. */
  datatype Claims = Claims(room: string, identity: string, userName: string, userType: string)

  /** The request's locals after the gate: `user`, `room`, `identity`, `userName` and
      `userType`, all set together from one set of claims, or none of them. */
  type Locals = Option<Claims>

  /** What the gate does with a request: reject it with a status and message, or pass it to the
      next handler with its locals. */
  datatype Gate = Reject(status: int, message: string) | Next(locals: Locals)

  /** The token of a request: the header with one leading `"Bearer "` removed (matched
      case-sensitively), the whole header when it has no such prefix, and the query parameter
      when the header yields nothing. */
  function ExtractToken(header: string, queryToken: string): (t: string)
    ensures HasPrefix(header, Bearer) && |header| > |Bearer| ==> t == header[|Bearer|..]
    ensures !HasPrefix(header, Bearer) && header != "" ==> t == header
    ensures header == "" || header == Bearer ==> t == queryToken
    ensures t == "" <==> (header == "" || header == Bearer) && queryToken == ""
  {
    var fromHeader := if header != "" then TrimPrefix(header, Bearer) else "";
    assert fromHeader == "" ==> header == "" || header == Bearer;
    if fromHeader == "" then queryToken else fromHeader
  }

  /** A bearer header always wins over the query parameter and gives back the token it wraps. */
  lemma BearerRoundTrip(token: string, queryToken: string)
    requires token != ""
    ensures ExtractToken(Bearer + token, queryToken) == token
  {
    assert (Bearer + token)[|Bearer|..] == token;
  }

  /** The scheme is matched case-sensitively: a `"bearer "` header is taken whole as the token. */
  lemma LowercaseSchemeIsWholeHeader(rest: string, queryToken: string)
    ensures ExtractToken("bearer " + rest, queryToken) == "bearer " + rest
  {
    assert ("bearer " + rest)[0] != Bearer[0];
  }

  /** `AuthMiddleware`: no token gives 401 "Invalid token"; a token the oracle refuses gives
      401 with the oracle's message; otherwise the request goes on with the token's claims. */
  function Authenticate(header: string, queryToken: string, verify: string -> Result<Claims>): (g: Gate)
    ensures g.Next? <==> ExtractToken(header, queryToken) != "" && verify(ExtractToken(header, queryToken)).Ok?
    ensures g.Next? ==> g.locals == Some(verify(ExtractToken(header, queryToken)).value)
    ensures ExtractToken(header, queryToken) == "" ==> g == Reject(StatusUnauthorized, "Invalid token")
    ensures ExtractToken(header, queryToken) != "" && verify(ExtractToken(header, queryToken)).Err? ==>
      g == Reject(StatusUnauthorized, verify(ExtractToken(header, queryToken)).error)
  {
    var token := ExtractToken(header, queryToken);
    if token == "" then Reject(StatusUnauthorized, "Invalid token")
    else
      match verify(token)
      case Err(e) => Reject(StatusUnauthorized, e)
      case Ok(claims) => Next(Some(claims))
  }

  /** `OptionalAuthMiddleware`: the request always goes on; its locals are set exactly when a
      token is present and verifies. */
  function AuthenticateOptional(header: string, queryToken: string, verify: string -> Result<Claims>): (g: Gate)
    ensures g.Next?
    ensures g.locals.Some? <==> ExtractToken(header, queryToken) != "" && verify(ExtractToken(header, queryToken)).Ok?
    ensures g.locals.Some? ==> g.locals.value == verify(ExtractToken(header, queryToken)).value
  {
    var token := ExtractToken(header, queryToken);
    if token != "" && verify(token).Ok? then Next(Some(verify(token).value)) else Next(None)
  }

  /** The two gates agree: the optional one sets locals exactly for the requests the required
      one lets through, and sets the same ones. */
  lemma OptionalAgreesWithRequired(header: string, queryToken: string, verify: string -> Result<Claims>)
    ensures Authenticate(header, queryToken, verify).Next? <==> AuthenticateOptional(header, queryToken, verify).locals.Some?
    ensures Authenticate(header, queryToken, verify).Next? ==>
      Authenticate(header, queryToken, verify) == AuthenticateOptional(header, queryToken, verify)
  {
  }

  /** The two request locals the handlers read back. */
  datatype LocalName = RoomLocal | IdentityLocal

  /** `GetRoomFromContext` and `GetIdentityFromContext`: the named local of the claims, `""`
      when the gate set none. */
  function FromContext(locals: Locals, name: LocalName): (value: string)
    ensures locals.None? ==> value == ""
    ensures locals.Some? && name == RoomLocal ==> value == locals.value.room
    ensures locals.Some? && name == IdentityLocal ==> value == locals.value.identity
  {
    if locals.None? then ""
    else match name
      case RoomLocal => locals.value.room
      case IdentityLocal => locals.value.identity
  }

  /** A handler behind the required gate always finds the room of a verified token. */
  lemma RequiredGateSetsRoom(header: string, queryToken: string, verify: string -> Result<Claims>)
    requires Authenticate(header, queryToken, verify).Next?
    ensures FromContext(Authenticate(header, queryToken, verify).locals, RoomLocal)
         == verify(ExtractToken(header, queryToken)).value.room
  {
  }
}
