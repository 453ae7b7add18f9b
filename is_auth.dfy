/** The authentication middleware: the token is the second space-separated segment of
    the `Authorization` header (the scheme word in front of it is not checked); it must
    verify and name a stored user. Every rejection carries status 401. */
module IsAuth {
  import opened Common
  import opened UserModel

  /** `next()` with `req.user` set, or `next(error)`. */
  datatype Outcome = Next(user: Id) | Reject(failure: Failure)

  /** `req.headers.authorization?.split(" ")[1]`, None when it is undefined or empty. */
  function Token(authorization: Option<string>): (r: Option<string>)
    ensures r.Some? ==> authorization.Some? && |Split(authorization.value)| >= 2 &&
                        r.value == Split(authorization.value)[1] && r.value != ""
    ensures authorization.Some? && |Split(authorization.value)| >= 2 && Split(authorization.value)[1] != "" ==> r.Some?
  {
    match authorization
    case None => None
    case Some(h) =>
      var parts := Split(h);
      if |parts| >= 2 && parts[1] != "" then Some(parts[1]) else None
  }

  function IsAuthenticated(authorization: Option<string>, crypto: Crypto, users: seq<User>): (r: Outcome)
    ensures r.Reject? ==> r.failure.status == Some(401)
    ensures r.Next? <==>
              Token(authorization).Some? && crypto.verify(Token(authorization).value).Some? &&
              exists i :: 0 <= i < |users| && users[i].id == crypto.verify(Token(authorization).value).value
    ensures r.Next? ==> r.user == crypto.verify(Token(authorization).value).value
  {
    match Token(authorization)
    case None => Reject(Failure(Some(401), "Not authorized - No token"))
    case Some(token) =>
      match crypto.verify(token)
      case None => Reject(Failure(Some(401), "invalid token"))
      case Some(id) =>
        if exists i :: 0 <= i < |users| && users[i].id == id then Next(id)
        else Reject(Failure(Some(401), "Not authorized - User not found"))
  }

  /** A header `<scheme> <token>` whose two words hold no space splits into exactly those
      two words, whatever the scheme word is. */
  lemma {:induction false} SchemeAndToken(scheme: string, token: string)
    requires ' ' !in scheme && ' ' !in token
    ensures Split(scheme + " " + token) == [scheme, token]
  {
    var h := scheme + " " + token;
    assert h[|scheme|] == ' ';
    assert h[..|scheme|] == scheme;
    var i := IndexOf(h, ' ');
    assert i == |scheme|;
    assert h[i + 1..] == token;
  }

  /** Such a header yields the token word. */
  lemma TokenOfBearerHeader(scheme: string, token: string)
    requires ' ' !in scheme && ' ' !in token && token != ""
    ensures Token(Some(scheme + " " + token)) == Some(token)
  {
    SchemeAndToken(scheme, token);
  }

  /** A header without a space has no second segment and is rejected. */
  lemma NoSpaceRejected(h: string, crypto: Crypto, users: seq<User>)
    requires ' ' !in h
    ensures IsAuthenticated(Some(h), crypto, users) == Reject(Failure(Some(401), "Not authorized - No token"))
  {
  }
}
