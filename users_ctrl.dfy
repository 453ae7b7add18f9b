/** The users controller: registration, login, profile reads and updates, and password
    changes. Lookups by username or email compare the values after the schema's trim and
    lowercase setters, which Mongoose applies to query filters as well. */
module UsersCtrl {
  import opened Common
  import opened Seqs
  import opened UserModel
  import opened Db

  /** The `user` object of a response: id, username and email, never the password. */
  datatype PublicUser = PublicUser(id: Id, username: string, email: string)

  /** A response carrying a fresh token. */
  datatype Session = Session(token: string, user: PublicUser)

  function Public(u: User): PublicUser {
    PublicUser(u.id, u.username, u.email)
  }

  /** The `$or` lookup of `register`: some stored user has this username or this email. */
  predicate Taken(users: seq<User>, username: string, email: string) {
    exists i :: 0 <= i < |users| && (users[i].username == username || users[i].email == email)
  }

  /** Some user other than the one at `skip` has this username or this email. */
  predicate TakenByOther(users: seq<User>, skip: nat, username: string, email: string) {
    exists i :: 0 <= i < |users| && i != skip && (users[i].username == username || users[i].email == email)
  }

  /** A user whose username and email nobody holds can be added to the accounts. */
  lemma NotTakenFresh(users: seq<User>, u: User)
    requires !Taken(users, u.username, u.email)
    ensures forall i :: 0 <= i < |users| ==> users[i].username != u.username && users[i].email != u.email
  {
  }

  function IndexOfUser(users: seq<User>, id: Id): (r: nat)
    ensures r <= |users|
    ensures r < |users| ==> users[r].id == id
    ensures r == |users| <==> forall i :: 0 <= i < |users| ==> users[i].id != id
  {
    FirstWhere(users, (u: User) => u.id == id)
  }

  /** `register`. The fields are checked raw; the stored username and email are the
      values after the setters. */
  method Register(st: Store, crypto: Crypto, username: string, email: string, password: string)
    returns (r: Result<Session>)
    requires st.Valid()
    modifies st`users, st`nextId
    ensures st.Valid()
    ensures r.Err? ==> st.users == old(st.users) && st.nextId == old(st.nextId)
    ensures username == "" || email == "" || password == "" ==> r == Fail(400, "All fields are required")
    ensures (username != "" && email != "" && password != "" &&
             Taken(old(st.users), SetUsername(username), SetEmail(email))) ==> r == Fail(400, "User already exists")
    ensures r.Ok? <==>
              username != "" && email != "" && password != "" &&
              !Taken(old(st.users), SetUsername(username), SetEmail(email)) &&
              ValidationError(SetUsername(username), SetEmail(email), password).None?
    ensures r.Ok? ==>
              var u := User(old(st.nextId), SetUsername(username), SetEmail(email), crypto.hash(password));
              st.users == old(st.users) + [u] && r.value == Session(crypto.sign(u.id), Public(u))
  {
    if username == "" || email == "" || password == "" {
      return Fail(400, "All fields are required");
    }
    var name, mail := SetUsername(username), SetEmail(email);
    if Taken(st.users, name, mail) {
      return Fail(400, "User already exists");
    }
    var err := ValidationError(name, mail, password);
    if err.Some? {
      return Raise(err.value);
    }
    var u := User(st.nextId, name, mail, PreSave(password, true, crypto));
    NotTakenFresh(st.users, u);
    st.AddUser(u);
    r := Ok(Session(crypto.sign(u.id), Public(u)));
  }

  /** `login`. The same failure answers an unknown email and a wrong password. */
  function Login(users: seq<User>, crypto: Crypto, email: string, password: string): (r: Result<Session>)
    requires UniqueAccounts(users)
    ensures email == "" || password == "" ==> r == Fail(400, "Please provide email and password")
    ensures email != "" && password != "" && r.Err? ==> r == Fail(401, "Invalid credentials")
    ensures r.Ok? <==>
              email != "" && password != "" &&
              exists i :: 0 <= i < |users| && users[i].email == SetEmail(email) &&
                          crypto.compare(password, users[i].password)
    ensures r.Ok? ==>
              exists i :: 0 <= i < |users| && users[i].email == SetEmail(email) &&
                          r.value == Session(crypto.sign(users[i].id), Public(users[i]))
  {
    if email == "" || password == "" then Fail(400, "Please provide email and password")
    else
      var mail := SetEmail(email);
      var i := FirstWhere(users, (u: User) => u.email == mail);
      if i == |users| then Fail(401, "Invalid credentials")
      else
        var u := users[i];
        assert forall j :: 0 <= j < |users| && users[j].email == mail ==> j == i;
        match ComparePassword(password, Some(u.password), crypto)
        case Err(f) => Err(f)
        case Ok(isMatch) =>
          if !isMatch then Fail(401, "Invalid credentials")
          else Ok(Session(crypto.sign(u.id), Public(u)))
  }

  /** `getProfile`. */
  function GetProfile(users: seq<User>, actor: Id): (r: Result<PublicUser>)
    ensures r.Err? <==> forall i :: 0 <= i < |users| ==> users[i].id != actor
    ensures r.Err? ==> r == Fail(404, "User not found")
    ensures r.Ok? ==> exists i :: 0 <= i < |users| && users[i].id == actor && r.value == Public(users[i])
  {
    var i := IndexOfUser(users, actor);
    if i == |users| then Fail(404, "User not found") else Ok(Public(users[i]))
  }

  /** The username or email `updateProfile` assigns: a falsy field keeps the old value. */
  function OrOld(given: string, old_: string, setter: string -> string): (r: string)
    ensures given == "" ==> r == old_
    ensures given != "" ==> r == setter(given)
  {
    if given != "" then setter(given) else old_
  }

  /** The error MongoDB raises when a unique index would hold a value twice. */
  const DuplicateKey := "E11000 duplicate key error"

  /** `updateProfile`. The password is not loaded, so it is neither validated nor rehashed. */
  method UpdateProfile(st: Store, actor: Id, username: string, email: string) returns (r: Result<PublicUser>)
    requires st.Valid()
    modifies st`users
    ensures st.Valid()
    ensures r.Err? ==> st.users == old(st.users)
    ensures (forall i :: 0 <= i < |old(st.users)| ==> old(st.users)[i].id != actor) ==>
              r == Fail(404, "User not found")
    ensures var i := IndexOfUser(old(st.users), actor);
            i < |old(st.users)| ==>
              var u := old(st.users)[i];
              var name := OrOld(username, u.username, SetUsername);
              var mail := OrOld(email, u.email, SetEmail);
              var err := FirstError(UsernameError(name), EmailError(mail));
              (err.Some? ==> r == Raise(err.value)) &&
              (err.None? && TakenByOther(old(st.users), i, name, mail) ==> r == Raise(DuplicateKey)) &&
              (r.Ok? <==> err.None? && !TakenByOther(old(st.users), i, name, mail))
    ensures r.Ok? ==>
              exists i :: 0 <= i < |old(st.users)| && old(st.users)[i].id == actor &&
                var u := old(st.users)[i];
                var u' := u.(username := OrOld(username, u.username, SetUsername),
                             email := OrOld(email, u.email, SetEmail));
                st.users == old(st.users)[i := u'] && r.value == Public(u')
  {
    var i := IndexOfUser(st.users, actor);
    if i == |st.users| {
      return Fail(404, "User not found");
    }
    var u := st.users[i];
    var name := OrOld(username, u.username, SetUsername);
    var mail := OrOld(email, u.email, SetEmail);
    var err := FirstError(UsernameError(name), EmailError(mail));
    if err.Some? {
      return Raise(err.value);
    }
    if TakenByOther(st.users, i, name, mail) {
      return Raise(DuplicateKey);
    }
    var u' := u.(username := name, email := mail);
    ReplaceOk(st.users, i, u', UserId, st.nextId);
    ReplaceAccountOk(st.users, i, u');
    st.users := st.users[i := u'];
    r := Ok(Public(u'));
  }

  /** `changePassword` as written: the user is loaded without its password field, so
      `comparePassword` has no hash to compare with and raises. */
  function ChangePasswordAsWritten(users: seq<User>, crypto: Crypto, actor: Id, current: string, new_: string)
    : (r: Result<()>)
    ensures current == "" || new_ == "" ==> r == Fail(400, "Please provide current and new password")
  {
    if current == "" || new_ == "" then Fail(400, "Please provide current and new password")
    else
      var i := IndexOfUser(users, actor);
      if i == |users| then Fail(404, "User not found")
      else
        match ComparePassword(current, None, crypto)
        case Err(f) => Err(f)
        case Ok(isMatch) => if !isMatch then Fail(401, "Current password is incorrect") else Ok(())
  }

  /** As written, no request changes a password: even the right current password ends
      in the comparison failure. */
  lemma ChangePasswordNeverSucceeds(users: seq<User>, crypto: Crypto, actor: Id, current: string, new_: string)
    requires exists i :: 0 <= i < |users| && users[i].id == actor
    requires current != "" && new_ != ""
    ensures ChangePasswordAsWritten(users, crypto, actor, current, new_) == Raise("Password comparison failed")
  {
  }

  /** `changePassword` with the stored hash selected: a current password that does not
      verify fails with 401; otherwise the new password is validated and stored hashed. */
  method ChangePassword(st: Store, crypto: Crypto, actor: Id, current: string, new_: string) returns (r: Result<()>)
    requires st.Valid()
    modifies st`users
    ensures st.Valid()
    ensures r.Err? ==> st.users == old(st.users)
    ensures current == "" || new_ == "" ==> r == Fail(400, "Please provide current and new password")
    ensures current != "" && new_ != "" && (forall i :: 0 <= i < |old(st.users)| ==> old(st.users)[i].id != actor) ==>
              r == Fail(404, "User not found")
    ensures current != "" && new_ != "" ==>
              forall i :: 0 <= i < |old(st.users)| && old(st.users)[i].id == actor ==>
                (!crypto.compare(current, old(st.users)[i].password) ==> r == Fail(401, "Current password is incorrect")) &&
                (crypto.compare(current, old(st.users)[i].password) && |new_| < 6 ==> r == Raise(PasswordError(new_).value)) &&
                (crypto.compare(current, old(st.users)[i].password) && |new_| >= 6 ==> r.Ok?)
    ensures r.Ok? <==>
              current != "" && new_ != "" && |new_| >= 6 &&
              exists i :: 0 <= i < |old(st.users)| && old(st.users)[i].id == actor &&
                          crypto.compare(current, old(st.users)[i].password)
    ensures r.Ok? ==>
              exists i :: 0 <= i < |old(st.users)| && old(st.users)[i].id == actor &&
                crypto.compare(current, old(st.users)[i].password) &&
                st.users == old(st.users)[i := old(st.users)[i].(password := crypto.hash(new_))]
  {
    if current == "" || new_ == "" {
      return Fail(400, "Please provide current and new password");
    }
    var i := IndexOfUser(st.users, actor);
    if i == |st.users| {
      return Fail(404, "User not found");
    }
    var u := st.users[i];
    // With the hash loaded, the comparison answers `Ok` and never raises.
    var checked := ComparePassword(current, Some(u.password), crypto);
    if checked == Ok(false) {
      return Fail(401, "Current password is incorrect");
    }
    var err := PasswordError(new_);
    if err.Some? {
      return Raise(err.value);
    }
    var u' := u.(password := PreSave(new_, true, crypto));
    ReplaceOk(st.users, i, u', UserId, st.nextId);
    st.users := st.users[i := u'];
    r := Ok(());
  }
}
