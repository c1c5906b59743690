/** The account handlers of app.py: `register` (lines 363-382) and `login`
    (lines 385-399), over the users table. */
module Accounts {
  import opened Store
  import opened Web
  import opened Forms

  const UserColumnNames: set<string> := {"id", "username", "email", "password_hash", "is_admin"}

  lemma UserColumnSet()
    ensures ColumnSet(UserModel) == UserColumnNames
  {
    var cs := UserModel.columns;
    assert cs[0] == "id" && cs[1] == "username" && cs[2] == "email" && cs[3] == "password_hash" && cs[4] == "is_admin";
  }

  /** A stored user has a password hash and an administrator flag. */
  lemma UserColumns(id: int, row: Row)
    requires Shaped(UserModel, id, row)
    ensures "email" in row && "password_hash" in row && "is_admin" in row
  {
    UserColumnSet();
  }

  /** The row a new `User(username, email, password)` becomes once the
      database gives it its id: the password is stored only as its hash,
      and the user is an administrator only when made one. */
  function NewUser(id: int, username: string, email: string, passwordHash: string, admin: bool): (r: Row)
    ensures r.Keys == UserColumnNames && r["id"] == Int(id)
    ensures r["username"] == Str(username) && r["email"] == Str(email)
    ensures r["password_hash"] == Str(passwordHash) && r["is_admin"] == Bool(admin)
  {
    map["id" := Int(id), "username" := Str(username), "email" := Str(email),
        "password_hash" := Str(passwordHash), "is_admin" := Bool(admin)]
  }

  /** A new user row has the shape of the mapped class. */
  lemma NewUserShaped(id: int, username: string, email: string, passwordHash: string, admin: bool)
    ensures Shaped(UserModel, id, NewUser(id, username, email, passwordHash, admin))
  {
    UserColumnSet();
  }

  /** The principal a stored user becomes after `login_user`. */
  function SignedIn(id: int, row: Row): (p: Principal)
    ensures p.Member? && p.id == id
    ensures p.isAdmin <==> "is_admin" in row && row["is_admin"] == Bool(true)
  {
    Member(id, "is_admin" in row && row["is_admin"] == Bool(true))
  }

  /** `register()`. Returns the response and the current user afterwards
      (`login_user` on success). `hash` is `generate_password_hash`. */
  method Register(users: Table, p: Principal, submitted: bool, f: RegistrationFields,
                  isEmail: string -> bool, hash: string -> string, ioOk: bool)
    returns (resp: Response, who: Principal)
    requires users.Valid() && users.model == UserModel
    modifies users
    ensures users.Valid()
    ensures p.Member? ==>
      resp == Redirect(HomeView, map[]) && who == p
      && users.rows == old(users.rows) && users.nextId == old(users.nextId)
    ensures p.Anonymous? && !(submitted && RegistrationErrors(f, old(users.rows), isEmail) == {}) ==>
      && resp == Render("register.html", map[], if submitted then RegistrationErrors(f, old(users.rows), isEmail) else {})
      && who == p && users.rows == old(users.rows) && users.nextId == old(users.nextId)
    ensures p.Anonymous? && submitted && RegistrationErrors(f, old(users.rows), isEmail) == {} ==>
      var user := NewUser(old(users.nextId), f.username, f.email, hash(f.password), false);
      && users.rows == (if ioOk then old(users.rows)[old(users.nextId) := user] else old(users.rows))
      && users.nextId == (if ioOk then old(users.nextId) + 1 else old(users.nextId))
      && resp == (if ioOk then Redirect(HomeView, map[]) else ServerError)
      && who == (if ioOk then Member(old(users.nextId), false) else p)
  {
    who := p;
    if p.Member? {
      return Redirect(HomeView, map[]), who;
    }
    var errors := RegistrationErrors(f, users.rows, isEmail);
    if !(submitted && errors == {}) {
      return Render("register.html", map[], if submitted then errors else {}), who;
    }
    var id := users.nextId;
    var user := NewUser(id, f.username, f.email, hash(f.password), false);
    NewUserShaped(id, f.username, f.email, hash(f.password), false);
    AcceptedRegistrationKeepsUsersUnique(f, users.rows, isEmail, id, user);
    var ok := users.CommitInsert(user, ioOk);
    if ok {
      who := Member(id, false);
      resp := Redirect(HomeView, map[]);
    } else {
      resp := ServerError;
    }
  }

  /** `login()`. It only reads the store. `checkHash` is
      `check_password_hash(stored_hash, password)`. */
  method Login(users: Table, p: Principal, submitted: bool, f: LoginFields, checkHash: (Value, string) -> bool)
    returns (resp: Response, who: Principal)
    requires users.Valid() && users.model == UserModel
    ensures p.Member? ==> resp == Redirect(HomeView, map[]) && who == p
    ensures p.Anonymous? && !(submitted && LoginErrors(f, users.rows) == {}) ==>
      resp == Render("login.html", map[], if submitted then LoginErrors(f, users.rows) else {}) && who == p
    ensures p.Anonymous? && submitted && LoginErrors(f, users.rows) == {} ==>
      var id := Lookup(users.rows, "email", Str(f.email)).value;
      && Lookup(users.rows, "email", Str(f.email)).Some?
      && "password_hash" in users.rows[id]
      && if checkHash(users.rows[id]["password_hash"], f.password)
         then resp == Redirect(HomeView, map[]) && who == SignedIn(id, users.rows[id])
         else resp == Redirect(LoginView, map[]) && who == p
    ensures who != p ==> exists id | id in users.rows ::
      && "email" in users.rows[id] && users.rows[id]["email"] == Str(f.email) && "password_hash" in users.rows[id]
      && checkHash(users.rows[id]["password_hash"], f.password) && who == SignedIn(id, users.rows[id])
  {
    who := p;
    if p.Member? {
      return Redirect(HomeView, map[]), who;
    }
    var errors := LoginErrors(f, users.rows);
    if !(submitted && errors == {}) {
      return Render("login.html", map[], if submitted then errors else {}), who;
    }
    var found := users.FindBy("email", Str(f.email));
    // `user is None` cannot hold: the form checked that the email is registered
    assert found.Some?;
    var row := users.rows[found.value];
    UserColumns(found.value, row);
    if !checkHash(row["password_hash"], f.password) {
      return Redirect(LoginView, map[]), who;
    }
    who := SignedIn(found.value, row);
    resp := Redirect(HomeView, map[]);
  }

  /** `logout()` (app.py:401-405), behind `login_required`: `logout_user`
      ends the session, so afterwards the visitor is anonymous and owns no
      record, and is sent home. Returns the response and the current user
      afterwards; the store is not touched. */
  method Logout(p: Principal) returns (resp: Response, who: Principal)
    ensures who == Anonymous
    ensures forall row :: !IsOwner(who, row)
    ensures forall v :: LoginRequired(who, v) == Some(Redirect(v, map[]))
    ensures resp == (if p.Member? then Redirect(HomeView, map[]) else Redirect(LoginView, map[]))
  {
    var deny := LoginRequired(p, LoginView);
    if deny.Some? {
      return deny.value, p;
    }
    who := Anonymous;
    resp := Redirect(HomeView, map[]);
  }
}
