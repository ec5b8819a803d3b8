/** The authentication middleware: read the bearer token from the
    `Authorization` header, verify it, and attach the subject to the request
    as the user id before handing over to the next handler. */
module Auth {
  import opened Domain

  /** `String.prototype.split` with a one-character separator: the pieces
      between separators, empty ones included. */
  function Split(s: string, sep: char): (parts: seq<string>)
    ensures |parts| >= 1
    ensures |parts| == 1 <==> sep !in s
    ensures forall i | 0 <= i < |parts| :: sep !in parts[i]
    decreases |s|
  {
    if s == [] then [""]
    else
      var rest := Split(s[1..], sep);
      if s[0] == sep then [""] + rest
      else [[s[0]] + rest[0]] + rest[1..]
  }

  /** `Array.prototype.join`, the inverse of `Split`. */
  function Join(parts: seq<string>, sep: char): string
    requires |parts| >= 1
    decreases |parts|
  {
    if |parts| == 1 then parts[0] else parts[0] + [sep] + Join(parts[1..], sep)
  }

  /** Splitting loses nothing: joining the pieces gives the header back. */
  lemma {:induction false} JoinSplit(s: string, sep: char)
    ensures Join(Split(s, sep), sep) == s
    decreases |s|
  {
    if s != [] {
      JoinSplit(s[1..], sep);
      var rest := Split(s[1..], sep);
      if s[0] == sep {
        assert Split(s, sep)[1..] == rest;
      } else {
        var parts := Split(s, sep);
        if |rest| == 1 {
          assert parts == [[s[0]] + rest[0]];
        } else {
          assert parts[1..] == rest[1..];
          assert Join(rest, sep) == rest[0] + [sep] + Join(rest[1..], sep);
        }
      }
    }
  }

  /** A first piece without the separator splits off on its own. */
  lemma {:induction false} SplitAfterFirst(first: string, sep: char, rest: string)
    requires sep !in first
    ensures Split(first + [sep] + rest, sep) == [first] + Split(rest, sep)
    decreases |first|
  {
    if first == [] {
      assert [sep] + rest == first + [sep] + rest;
      assert ([sep] + rest)[1..] == rest;
    } else {
      SplitAfterFirst(first[1..], sep, rest);
      assert (first + [sep] + rest)[1..] == first[1..] + [sep] + rest;
      assert [first[0]] + first[1..] == first;
    }
  }

  /** `const [, token] = authHeader.split(' ')`: the second piece, if any. */
  function BearerToken(header: string): (token: Option<string>)
    ensures token.Some? <==> ' ' in header
    ensures token.Some? ==> ' ' !in token.value
  {
    var parts := Split(header, ' ');
    if |parts| >= 2 then Some(parts[1]) else None
  }

  /** A header of the usual shape `<scheme> <token>` yields exactly its token. */
  lemma SchemeThenToken(scheme: string, token: string)
    requires ' ' !in scheme && ' ' !in token
    ensures BearerToken(scheme + " " + token) == Some(token)
  {
    SplitAfterFirst(scheme, ' ', token);
    JoinSplit(token, ' ');
    assert scheme + " " + token == scheme + [' '] + token;
  }

  /** Only the second piece counts: a header `<scheme> <token> <rest>` yields
      `token` whatever follows it, and with two spaces in a row the token is
      empty (`"Bearer  abc"` yields `""`). */
  lemma SchemeTokenThenRest(scheme: string, token: string, rest: string)
    requires ' ' !in scheme && ' ' !in token
    ensures BearerToken(scheme + " " + token + " " + rest) == Some(token)
  {
    SplitAfterFirst(scheme, ' ', token + " " + rest);
    SplitAfterFirst(token, ' ', rest);
    assert scheme + " " + token + " " + rest == scheme + [' '] + (token + [' '] + rest);
    assert token + " " + rest == token + [' '] + rest;
  }

  /** The `sub` claim of a verified payload; only a string one is accepted. */
  datatype Subject = StringSubject(value: string) | OtherSubject

  datatype Claims = Claims(sub: Subject)

  /** What the middleware decides: call `next` for this user id, or answer. */
  datatype Decision = Proceed(userId: string) | Refuse(response: Response<()>)

  /** `authMiddleware` as a decision. `verify` stands for the JWT library's
      `verify` with the configured secret; `None` is any error it throws. */
  function Authenticate(header: Option<string>, verify: string -> Option<Claims>): (d: Decision)
    // an absent or empty header: 401 "token not provided"
    ensures header.None? || header == Some("") ==> d == Refuse(Response(401, Message(TokenMissing)))
    // a header without a space carries no token: 401 "invalid token"
    ensures header.Some? && header.value != "" && ' ' !in header.value ==>
              d == Refuse(Response(401, Message(TokenInvalid)))
    // proceed exactly when the second field verifies to a payload with a string subject,
    // and then with that subject as the user id
    ensures d.Proceed? <==>
              && header.Some? && header.value != "" && BearerToken(header.value).Some?
              && verify(BearerToken(header.value).value).Some?
              && verify(BearerToken(header.value).value).value.sub.StringSubject?
    ensures d.Proceed? ==> d.userId == verify(BearerToken(header.value).value).value.sub.value
    // every refusal is a 401, and the reason is never exposed beyond the two messages
    ensures d.Refuse? ==> d.response.status == 401
    ensures d.Refuse? ==> d.response.body in {Message(TokenMissing), Message(TokenInvalid)}
    // once a header is present, any refusal (no token, a throwing `verify`, a
    // non-string subject) is "invalid token"
    ensures d.Refuse? && header.Some? && header.value != "" ==> d == Refuse(Response(401, Message(TokenInvalid)))
  {
    if header.None? || header.value == "" then
      Refuse(Response(401, Message(TokenMissing)))
    else
      match BearerToken(header.value)
      case None => Refuse(Response(401, Message(TokenInvalid)))
      case Some(token) =>
        match verify(token)
        case None => Refuse(Response(401, Message(TokenInvalid)))
        case Some(decoded) =>
          if decoded.sub.OtherSubject? then Refuse(Response(401, Message(TokenInvalid)))
          else Proceed(decoded.sub.value)
  }

  datatype AuthenticatedUser = AuthenticatedUser(id: string)

  /** The part of an Express request the middleware touches. */
  class Request {
    const authorization: Option<string>
    var user: Option<AuthenticatedUser>

    constructor (authorization: Option<string>)
      ensures this.authorization == authorization && user.None?
    {
      this.authorization := authorization;
      user := None;
    }
  }

  /** What the middleware returns to Express: the result of `next()`, or a
      response it wrote itself. */
  datatype Outcome = CalledNext | Responded(response: Response<()>)

  /** `authMiddleware`: sets `req.user` and calls `next` only on success. */
  method AuthMiddleware(req: Request, verify: string -> Option<Claims>) returns (out: Outcome)
    modifies req
    ensures match Authenticate(req.authorization, verify)
            case Proceed(id) => out == CalledNext && req.user == Some(AuthenticatedUser(id))
            case Refuse(response) => out == Responded(response) && req.user == old(req.user)
  {
    var authHeader := req.authorization;
    if authHeader.None? || authHeader.value == "" {
      return Responded(Response(401, Message(TokenMissing)));
    }
    var parts := Split(authHeader.value, ' ');
    if |parts| < 2 {
      // `verify(undefined)` throws
      return Responded(Response(401, Message(TokenInvalid)));
    }
    var decoded := verify(parts[1]);
    if decoded.None? || !decoded.value.sub.StringSubject? {
      return Responded(Response(401, Message(TokenInvalid)));
    }
    req.user := Some(AuthenticatedUser(decoded.value.sub.value));
    return CalledNext;
  }
}
