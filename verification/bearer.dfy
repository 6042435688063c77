/** Bearer credentials in the Authorization header, in the style of section
    2.1 of RFC 6750: the token is the second field of the header split on
    single spaces, and the scheme word in front of it is not looked at.
    Also the request middleware that verifies that token and, on success,
    attaches the decoded payload to the request. */
module Bearer {
  import opened Common
  import opened Externals

  // ---------------------------------------------------------------- String.prototype.split(' ')

  /** JavaScript's `s.split(' ')`: the pieces between single spaces, so
      consecutive spaces give empty pieces and "" gives [""]. */
  function Split(s: string): (parts: seq<string>)
    ensures |parts| >= 1
    ensures forall i :: 0 <= i < |parts| ==> ' ' !in parts[i]
    ensures |parts| == 1 <==> ' ' !in s
  {
    if s == [] then [""]
    else
      var rest := Split(s[1..]);
      if s[0] == ' ' then [""] + rest
      else [[s[0]] + rest[0]] + rest[1..]
  }

  /** `parts.join(' ')`, the inverse of Split. */
  function Join(parts: seq<string>): string
    requires |parts| >= 1
  {
    if |parts| == 1 then parts[0] else parts[0] + " " + Join(parts[1..])
  }

  /** Splitting loses nothing: joining the pieces gives the header back. */
  lemma {:induction false} JoinSplit(s: string)
    ensures Join(Split(s)) == s
  {
    if s != [] {
      var rest := Split(s[1..]);
      JoinSplit(s[1..]);
      if s[0] == ' ' {
        assert Split(s) == [""] + rest;
        assert Join(Split(s)) == "" + " " + Join(rest);
      } else {
        var parts := Split(s);
        assert parts == [[s[0]] + rest[0]] + rest[1..];
        if |rest| == 1 {
          assert Join(parts) == [s[0]] + rest[0];
        } else {
          assert parts[1..] == rest[1..];
          assert Join(parts) == [s[0]] + rest[0] + " " + Join(rest[1..]);
        }
        assert s == [s[0]] + s[1..];
      }
    }
  }

  /** A prefix without spaces followed by one space becomes the first piece. */
  lemma {:induction false} SplitAtFirstSpace(a: string, b: string)
    requires ' ' !in a
    ensures Split(a + " " + b) == [a] + Split(b)
  {
    if a == [] {
      assert a + " " + b == [' '] + b;
      assert (a + " " + b)[1..] == b;
    } else {
      assert (a + " " + b)[1..] == a[1..] + " " + b;
      SplitAtFirstSpace(a[1..], b);
      assert [a[0]] + a[1..] == a;
    }
  }

  /** `header.split(' ')[1]`: undefined when the header has no space. */
  function TokenOf(header: string): (token: Option<string>)
    ensures token.None? <==> ' ' !in header
    ensures token.Some? ==> ' ' !in token.value
  {
    var parts := Split(header);
    if |parts| >= 2 then Some(parts[1]) else None
  }

  /** The credentials a client is meant to send, `Bearer <token>` with a
      token without spaces, give that token back; and any other scheme word
      in front of it gives the same token. */
  lemma {:induction false} TokenOfCredentials(scheme: string, t: string)
    requires ' ' !in scheme && ' ' !in t
    ensures TokenOf(scheme + " " + t) == Some(t)
    ensures TokenOf(scheme + " " + t) == TokenOf("Bearer " + t)
  {
    SplitAtFirstSpace(scheme, t);
    SplitAtFirstSpace("Bearer", t);
    JoinSplit(t);
    assert "Bearer" + " " + t == "Bearer " + t;
  }

  /** Two spaces after the scheme word leave an empty token, which every
      handler refuses as missing. */
  lemma {:induction false} DoubleSpaceGivesEmptyToken(scheme: string, t: string)
    requires ' ' !in scheme
    ensures TokenOf(scheme + "  " + t) == Some("")
    ensures !Truthy(TokenOf(scheme + "  " + t))
  {
    assert scheme + "  " + t == scheme + " " + (" " + t);
    SplitAtFirstSpace(scheme, " " + t);
    SplitAtFirstSpace("", t);
    assert "" + " " + t == " " + t;
  }

  // ---------------------------------------------------------------- middleware

  const NoTokenMessage := "No se proporcionó token de autenticación."
  const BadTokenMessage := "Token inválido o expirado."

  datatype Decision = Reject(message: string) | Pass(payload: Payload)
  {
    function Status(): int
    {
      if Pass? then 200 else 401
    }
  }

  /** The token the middleware works with: `headers.get('Authorization')?.split(' ')[1]`. */
  function HeaderToken(header: Option<string>): Option<string>
  {
    if header.Some? then TokenOf(header.value) else None
  }

  /** `middleware`: a falsy token, then a failed `jwt.verify`, are both 401;
      `verify` stands for `jwt.verify(token, process.env.JWT_SECRET!)`. */
  function MiddlewareDecision(header: Option<string>, verify: Verifier): (d: Decision)
    ensures d.Pass? <==> Truthy(HeaderToken(header)) && verify(HeaderToken(header).value).Some?
    ensures d.Pass? ==> Some(d.payload) == verify(HeaderToken(header).value)
    ensures d.Reject? && !Truthy(HeaderToken(header)) ==> d.message == NoTokenMessage
    ensures d.Reject? && Truthy(HeaderToken(header)) ==> d.message == BadTokenMessage
  {
    var token := HeaderToken(header);
    if !Truthy(token) then Reject(NoTokenMessage)
    else
      var decoded := verify(token.value);
      if decoded.None? then Reject(BadTokenMessage) else Pass(decoded.value)
  }

  /** The part of a Next.js request the middleware writes. */
  class Request {
    var user: Option<Payload>

    constructor ()
      ensures user.None?
    {
      user := None;
    }
  }

  /** `middleware(req)`: decides, and on success sets `req.user`. */
  method Middleware(req: Request, header: Option<string>, verify: Verifier) returns (d: Decision)
    modifies req
    ensures d == MiddlewareDecision(header, verify)
    ensures req.user == (if d.Pass? then Some(d.payload) else old(req.user))
  {
    var token := if header.Some? then TokenOf(header.value) else None;
    if token.None? || token.value == "" {
      return Reject(NoTokenMessage);
    }
    var decoded := verify(token.value);
    if decoded.None? {
      return Reject(BadTokenMessage);
    }
    req.user := decoded;
    d := Pass(decoded.value);
  }

  /** A missing header, a header without a second field and a token that
      does not verify all give the same status, 401. */
  lemma {:induction false} EveryRejectionIs401(header: Option<string>, verify: Verifier)
    ensures MiddlewareDecision(header, verify).Status() == 401 <==>
            !Truthy(HeaderToken(header)) || verify(HeaderToken(header).value).None?
  {
  }

  /** For well-formed credentials the verifier alone decides. */
  lemma {:induction false} BearerCredentialsDecidedByVerifier(t: string, verify: Verifier)
    requires ' ' !in t && t != ""
    ensures MiddlewareDecision(Some("Bearer " + t), verify) ==
            (if verify(t).Some? then Pass(verify(t).value) else Reject(BadTokenMessage))
  {
    TokenOfCredentials("Bearer", t);
  }
}
