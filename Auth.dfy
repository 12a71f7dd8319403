/** The bearer-token guard (`authenticate`) in front of the API routes. */
module Auth {
  import opened Wrappers
  import opened Strings

  const BearerPrefix: string := "Bearer "

  const NoTokenError: string := "Unauthorized: No token provided or invalid format"
  const InvalidTokenError: string := "Unauthorized: Invalid token"

  /** `next()` is called, or the request is answered 401 with the given error. */
  datatype Decision = Proceed | Unauthorized(error: string)

  /** `authHeader.split(" ")[1]`, `None` where JavaScript gives `undefined`. */
  function BearerToken(header: string): (t: Option<string>)
    ensures t.Some? <==> ' ' in header
    ensures t.Some? ==> ' ' !in t.value
  {
    var parts := Split(header, ' ');
    SplitOnePiece(header, ' ');
    if |parts| > 1 then Some(parts[1]) else None
  }

  /** `authenticate`: a missing header or one without the `Bearer ` prefix is refused first;
      then the token must equal the configured one. */
  function Authenticate(header: Option<string>, authToken: string): (d: Decision)
    ensures header.None? || !StartsWith(header.value, BearerPrefix) ==> d == Unauthorized(NoTokenError)
    ensures header.Some? && StartsWith(header.value, BearerPrefix) ==>
      d == if BearerToken(header.value) == Some(authToken) then Proceed else Unauthorized(InvalidTokenError)
  {
    if header.None? || header.value == "" || !StartsWith(header.value, BearerPrefix) then
      Unauthorized(NoTokenError)
    else if BearerToken(header.value) != Some(authToken) then
      Unauthorized(InvalidTokenError)
    else
      Proceed
  }

  /** After the prefix, the token is the text up to the next space or the end. */
  lemma TokenAfterPrefix(header: string)
    requires StartsWith(header, BearerPrefix)
    ensures BearerToken(header) == Some(Split(header[|BearerPrefix|..], ' ')[0])
  {
    var rest := header[|BearerPrefix|..];
    assert header == "Bearer" + ([' '] + rest);
    SplitAfterPrefix("Bearer", [' '] + rest, ' ');
    assert ([' '] + rest)[1..] == rest;
    assert Split([' '] + rest, ' ') == [""] + Split(rest, ' ');
  }

  /** A request proceeds exactly when its header is `Bearer `, then the configured token, then
      the end or a space; a configured token that holds a space is never accepted. */
  lemma AcceptsExactly(header: string, authToken: string)
    ensures Authenticate(Some(header), authToken).Proceed? <==>
      && StartsWith(header, BearerPrefix)
      && ' ' !in authToken
      && StartsWith(header[|BearerPrefix|..], authToken)
      && (|header| == |BearerPrefix| + |authToken| || header[|BearerPrefix| + |authToken|] == ' ')
  {
    if StartsWith(header, BearerPrefix) {
      var rest := header[|BearerPrefix|..];
      TokenAfterPrefix(header);
      FirstPieceShape(rest, ' ');
      if ' ' !in authToken && StartsWith(rest, authToken) && (|rest| == |authToken| || rest[|authToken|] == ' ') {
        FirstPieceIs(rest, ' ', authToken);
      }
    }
  }

  /** The header a client is meant to send, `Bearer <token>`, is accepted when the token has no
      space. */
  lemma AcceptsCanonicalHeader(authToken: string)
    requires ' ' !in authToken
    ensures Authenticate(Some(BearerPrefix + authToken), authToken) == Proceed
  {
    var header := BearerPrefix + authToken;
    assert header[..|BearerPrefix|] == BearerPrefix;
    assert header[|BearerPrefix|..] == authToken;
    AcceptsExactly(header, authToken);
  }
}
