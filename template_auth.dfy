/** The template pages' accounts, kept entirely in the browser: registering appends to
    the `users` list and opens an empty ledger; signing in looks the account up by email
    and password and writes the session under `user`. */
module TemplateAuth {
  import opened Common
  import opened Seqs
  import opened Browser

  datatype RegisterForm = RegisterForm(name: string, email: string, password: string, confirmPassword: string)

  const Mismatch := "Passwords do not match"
  const Taken := "Email already registered"
  const BadCredentials := "Invalid email or password"

  predicate EmailTaken(users: seq<TemplateUser>, email: string) {
    exists i :: 0 <= i < |users| && users[i].email == email
  }

  /** No two accounts share an email. */
  predicate UniqueEmails(users: seq<TemplateUser>) {
    forall i, j :: 0 <= i < j < |users| ==> users[i].email != users[j].email
  }

  /** The account a registration creates: its id is its email. */
  function NewUser(form: RegisterForm): TemplateUser {
    TemplateUser(form.email, form.name, form.email, form.password)
  }

  /** `handleSubmit` of the registration page, on the stored list: refused when the
      confirmation differs or the email is already registered, otherwise the list with
      the new account appended. */
  function SignUp(users: seq<TemplateUser>, form: RegisterForm): (r: Result<seq<TemplateUser>>)
    ensures form.password != form.confirmPassword ==> r == Raise(Mismatch)
    ensures form.password == form.confirmPassword && EmailTaken(users, form.email) ==> r == Raise(Taken)
    ensures r.Ok? <==> form.password == form.confirmPassword && !EmailTaken(users, form.email)
    ensures r.Ok? ==> |r.value| == |users| + 1 && r.value[..|users|] == users && r.value[|users|].id == form.email
  {
    if form.password != form.confirmPassword then Raise(Mismatch)
    else if EmailTaken(users, form.email) then Raise(Taken)
    else Ok(users + [NewUser(form)])
  }

  /** Registration keeps emails unique. */
  lemma SignUpKeepsUnique(users: seq<TemplateUser>, form: RegisterForm)
    requires UniqueEmails(users) && SignUp(users, form).Ok?
    ensures UniqueEmails(SignUp(users, form).value)
  {
    var r := SignUp(users, form).value;
    forall i, j | 0 <= i < j < |r| ensures r[i].email != r[j].email {
      if j == |users| {
        assert r[i] == users[i];
      }
    }
  }

  /** The registration page: on success the `users` list is rewritten and the new
      account's ledger set to `[]`; a refusal changes nothing. */
  method Register(ls: LocalStorage, form: RegisterForm) returns (r: Result<seq<TemplateUser>>)
    modifies ls
    ensures r == SignUp(UsersAt(old(ls.items)), form)
    ensures r.Ok? ==> ls.items == old(ls.items)["users" := UserList(r.value)][LedgerKey(form.email) := Ledger([])]
    ensures r.Err? ==> ls.items == old(ls.items)
  {
    var users := UsersAt(ls.items);
    if form.password != form.confirmPassword {
      return Raise(Mismatch);
    }
    if exists i :: 0 <= i < |users| && users[i].email == form.email {
      return Raise(Taken);
    }
    var updated := users + [NewUser(form)];
    ls.SetItem("users", UserList(updated));
    ls.SetItem(LedgerKey(form.email), Ledger([]));
    r := Ok(updated);
  }

  // ---------------------------------------------------------------------------
  // Login

  function Credentials(email: string, password: string): TemplateUser -> bool {
    (u: TemplateUser) => u.email == email && u.password == password
  }

  /** The session written for an account: its id, or its email when the id is empty. */
  function SessionOf(u: TemplateUser): SessionUser {
    SessionUser(if u.id != "" then u.id else u.email, u.email, u.name)
  }

  /** `handleSubmit` of the login page, on the stored list: the first account with this
      email and this password, or a refusal. */
  function SignIn(users: seq<TemplateUser>, email: string, password: string): (r: Result<SessionUser>)
    ensures r.Ok? <==> exists i :: 0 <= i < |users| && users[i].email == email && users[i].password == password
    ensures r.Err? ==> r == Raise(BadCredentials)
    ensures r.Ok? ==>
              r.value.email == email &&
              exists i :: 0 <= i < |users| && users[i].email == email && users[i].password == password &&
                          r.value == SessionOf(users[i])
  {
    var k := FirstWhere(users, Credentials(email, password));
    if k < |users| then Ok(SessionOf(users[k]))
    else
      assert forall i :: 0 <= i < |users| ==> !Credentials(email, password)(users[i]);
      Raise(BadCredentials)
  }

  /** The login page: on success the session is written under `user` and the account's
      ledger is set to `[]` only when there is none; a refusal changes nothing. */
  method Login(ls: LocalStorage, email: string, password: string) returns (r: Result<SessionUser>)
    modifies ls
    ensures r == SignIn(UsersAt(old(ls.items)), email, password)
    ensures r.Ok? ==>
              var signed := old(ls.items)["user" := SignedIn(r.value)];
              var key := LedgerKey(r.value.id);
              ls.items == if key in old(ls.items) then signed else signed[key := Ledger([])]
    ensures r.Err? ==> ls.items == old(ls.items)
  {
    var users := UsersAt(ls.items);
    var k := FirstWhere(users, Credentials(email, password));
    if k == |users| {
      return Raise(BadCredentials);
    }
    var session := SessionOf(users[k]);
    var key := LedgerKey(session.id);
    assert key != "user";
    var existing := key in ls.items;
    ls.SetItem("user", SignedIn(session));
    if !existing {
      ls.SetItem(key, Ledger([]));
    }
    r := Ok(session);
  }

  /** An account signs in once registered, under its email, whatever was stored before. */
  lemma RegisterThenSignIn(users: seq<TemplateUser>, form: RegisterForm)
    requires SignUp(users, form).Ok?
    ensures SignIn(SignUp(users, form).value, form.email, form.password) == Ok(SessionUser(form.email, form.email, form.name))
  {
    var r := SignUp(users, form).value;
    var k := FirstWhere(r, Credentials(form.email, form.password));
    assert Credentials(form.email, form.password)(r[|users|]);
    assert k == |users|;
  }

  /** Only the password stored for an email lets it in: with unique emails, the session
      belongs to the one account with that email. */
  lemma SignInIsTheAccount(users: seq<TemplateUser>, email: string, password: string, j: nat)
    requires UniqueEmails(users) && j < |users| && users[j].email == email
    ensures SignIn(users, email, password).Ok? <==> users[j].password == password
    ensures SignIn(users, email, password).Ok? ==> SignIn(users, email, password).value == SessionOf(users[j])
  {
  }
}
