/** The user schema: the setters and validators of its three fields, the pre-save hook
    that hashes a modified password, the JSON transform that drops the password, and
    `comparePassword`. Hashing and token signing are uninterpreted functions. */
module UserModel {
  import opened Common

  /** A stored user; `password` holds whatever the pre-save hook wrote (the hash). */
  datatype User = User(id: Id, username: string, email: string, password: string)

  /** The bcrypt and jsonwebtoken primitives, left uninterpreted: `hash` and `compare`
      stand for salting and hashing, `sign` and `verify` for issuing and checking a token
      that encodes a user id. */
  datatype Crypto = Crypto(
    hash: string -> string,
    compare: (string, string) -> bool,
    sign: Id -> string,
    verify: string -> Option<Id>)

  /** `username`: `trim: true`. */
  function SetUsername(raw: string): string {
    Trim(raw)
  }

  /** `email`: `trim: true, lowercase: true`. */
  function SetEmail(raw: string): string {
    Lower(Trim(raw))
  }

  /** The validators of `username`, on the value after its setter ran. */
  function UsernameError(username: string): (r: Option<string>)
    ensures r.None? <==> 3 <= |username| <= 30
  {
    if username == "" then Some("Username is required")
    else if |username| < 3 then Some("Username must be at least 3 characters")
    else if |username| > 30 then Some("Username cannot exceed 30 characters")
    else None
  }

  /** The validators of `email`, on the value after its setters ran; the pattern check is
      not modelled. */
  function EmailError(email: string): (r: Option<string>)
    ensures r.None? <==> email != ""
  {
    if email == "" then Some("Email is required") else None
  }

  /** The validators of `password`, on the plain value before the hook hashes it. */
  function PasswordError(password: string): (r: Option<string>)
    ensures r.None? <==> |password| >= 6
  {
    if password == "" then Some("Password is required")
    else if |password| < 6 then Some("Password must be at least 6 characters")
    else None
  }

  /** The first error of the first failing field, in schema order. */
  function FirstError(a: Option<string>, b: Option<string>): (r: Option<string>)
    ensures r.None? <==> a.None? && b.None?
    ensures a.Some? ==> r == a
  {
    if a.Some? then a else b
  }

  /** Validation of a whole new user. */
  function ValidationError(username: string, email: string, password: string): (r: Option<string>)
    ensures r.None? <==> 3 <= |username| <= 30 && email != "" && |password| >= 6
    ensures username == "" ==> r == Some("Username is required")
  {
    FirstError(UsernameError(username), FirstError(EmailError(email), PasswordError(password)))
  }

  /** The stored values (after the setters) of a raw username and email satisfy the
      trimming and lowercasing rules: applying the setters again changes nothing. */
  lemma SettersNormalise(username: string, email: string)
    ensures SetUsername(SetUsername(username)) == SetUsername(username)
    ensures SetEmail(SetEmail(email)) == SetEmail(email)
    ensures Lower(SetEmail(email)) == SetEmail(email)
  {
    TrimIdempotent(username);
    var t := Trim(email);
    LowerIdempotent(t);
    var l := Lower(t);
    LowerTrimmed(t);
    TrimStartOfClean(l);
    TrimEndOfClean(l);
  }

  /** Lowercasing keeps a trimmed string trimmed: no letter is white space. */
  lemma LowerTrimmed(t: string)
    requires t == [] || (!IsSpace(t[0]) && !IsSpace(t[|t| - 1]))
    ensures var l := Lower(t); l == [] || (!IsSpace(l[0]) && !IsSpace(l[|l| - 1]))
  {
  }

  /** The pre-save hook: the password is hashed when it was modified, and the stored
      value is left as it is otherwise. */
  function PreSave(password: string, modified: bool, crypto: Crypto): (r: string)
    ensures !modified ==> r == password
    ensures modified ==> r == crypto.hash(password)
  {
    if modified then crypto.hash(password) else password
  }

  /** A JSON value of a serialised user. */
  datatype JsonValue = JText(text: string) | JId(id: Id)

  /** The user as a plain object, before the transform. */
  function Fields(u: User): map<string, JsonValue> {
    map["_id" := JId(u.id), "username" := JText(u.username), "email" := JText(u.email),
        "password" := JText(u.password)]
  }

  /** `toJSON` with the transform that deletes `password`: every other field is kept. */
  function ToJson(u: User): (r: map<string, JsonValue>)
    ensures "password" !in r
    ensures r.Keys == Fields(u).Keys - {"password"}
    ensures forall k :: k in r ==> r[k] == Fields(u)[k]
  {
    Fields(u) - {"password"}
  }

  /** `comparePassword`: `compare(candidate, storedHash)`. The stored hash is None when
      the query that loaded the user did not select the password field; `compare` then
      rejects its arguments and the method raises. */
  function ComparePassword(candidate: string, stored: Option<string>, crypto: Crypto): (r: Result<bool>)
    ensures stored.Some? ==> r == Ok(crypto.compare(candidate, stored.value))
    ensures stored.None? ==> r == Raise("Password comparison failed")
  {
    match stored
    case Some(h) => Ok(crypto.compare(candidate, h))
    case None => Raise("Password comparison failed")
  }
}
