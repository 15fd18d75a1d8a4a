/** The token check of the authentication router (`/verify`). Its register
    and login handlers apply the same rules as the server's own auth
    endpoints and are modelled once, by `ServerApp.Register` and
    `ServerApp.Login`. */
module AuthRoutes {
  import opened Wrappers
  import opened Text

  const Scheme := "Bearer "

  /** `authHeader.split(' ')[1]` for a header that starts with "Bearer ":
      the first space-separated field after the scheme, possibly empty. */
  function TokenOf(header: string): (token: string)
    requires Scheme <= header
    ensures |Split(header, ' ')| >= 2 && token == Split(header, ' ')[1]
    ensures token == Split(header[|Scheme|..], ' ')[0]
  {
    assert header == "Bearer" + [' '] + header[|Scheme|..];
    SplitFirstField("Bearer", header[|Scheme|..], ' ');
    Split(header, ' ')[1]
  }

  /** The token of "Bearer " followed by a space-free token and then nothing
      or a space is that token. */
  lemma TokenAfterScheme(token: string, rest: string)
    requires ' ' !in token && (rest == [] || rest[0] == ' ')
    ensures TokenOf(Scheme + token + rest) == token
  {
    var h := Scheme + token + rest;
    assert h[|Scheme|..] == token + rest;
    if rest == [] {
      assert token + rest == token;
      SplitNoSeparator(token, ' ');
    } else {
      assert token + rest == token + [' '] + rest[1..];
      SplitFirstField(token, rest[1..], ' ');
    }
  }

  datatype VerifyResponse =
    | VerifyRejected(status: nat, error: string)
    | VerifiedUser(userId: int)

  /** `GET /verify`: `decode` stands for `jwt.verify` (the user id of a valid
      token) and `ids` for the user table. A missing header or one of another
      scheme is 'No token provided'; a bad token and an unknown user are both
      'Invalid token'; every refusal is a 401. */
  function Verify(header: Option<string>, decode: string -> Option<int>, ids: set<int>): (r: VerifyResponse)
    ensures r == VerifyRejected(401, "No token provided") <==> header.None? || !(Scheme <= header.value)
    ensures r.VerifyRejected? ==> r.status == 401
    ensures r.VerifiedUser? <==>
              header.Some? && Scheme <= header.value &&
              decode(TokenOf(header.value)).Some? && decode(TokenOf(header.value)).value in ids
    ensures r.VerifiedUser? ==> r.userId == decode(TokenOf(header.value)).value
  {
    if header.None? || !(Scheme <= header.value) then VerifyRejected(401, "No token provided")
    else
      match decode(TokenOf(header.value))
      case None => VerifyRejected(401, "Invalid token")
      case Some(id) => if id in ids then VerifiedUser(id) else VerifyRejected(401, "Invalid token")
  }

  /** A token under another scheme, or in lower case, is never looked at;
      an expired token and a deleted user get the same refusal. */
  lemma OnlyTheBearerSchemeIsRead(token: string, decode: string -> Option<int>, ids: set<int>)
    requires ' ' !in token
    ensures Verify(Some("Token " + token), decode, ids) == VerifyRejected(401, "No token provided")
    ensures Verify(Some("bearer " + token), decode, ids) == VerifyRejected(401, "No token provided")
    ensures decode(token).None? || decode(token).value !in ids ==>
              Verify(Some(Scheme + token), decode, ids) == VerifyRejected(401, "Invalid token")
    ensures decode(token).Some? && decode(token).value in ids ==>
              Verify(Some(Scheme + token), decode, ids) == VerifiedUser(decode(token).value)
  {
    assert ("Token " + token)[0] != Scheme[0];
    assert ("bearer " + token)[0] != Scheme[0];
    TokenAfterScheme(token, "");
    assert Scheme + token + "" == Scheme + token;
  }
}
