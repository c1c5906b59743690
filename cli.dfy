/** The command-line commands of cli.py: `user create` and
    `list-bp-endpoints`. What a command echoes is returned as the list of
    lines it prints. */
module Cli {
  import opened Seqs
  import opened Store
  import opened Accounts

  // ------------------------------------------------------------ user create

  /** The `--password` option's default (cli.py:36-41). */
  const DefaultPassword: string := "password123"

  const UsernameTaken: string := "A user already exists with that username. Choose another one."
  const EmailTaken: string := "A user already exists with that email. Choose another one."
  const Failure: string := "Something went wrong."

  function Saved(username: string): string
  {
    "User " + username + " has been successfully saved to the database."
  }

  /** The rest of `user create` once neither value is taken (cli.py:62-74):
      store the user, or roll back and echo the error. */
  method SaveUser(users: Table, user: Row, username: string, ioOk: bool, error: string)
    returns (echoed: seq<string>)
    requires users.Valid() && users.model == UserModel && Shaped(UserModel, users.nextId, user)
    requires Unique(UserModel, users.rows[users.nextId := user])
    modifies users
    ensures users.Valid()
    ensures users.rows == (if ioOk then old(users.rows)[old(users.nextId) := user] else old(users.rows))
    ensures |users.rows| == (if ioOk then |old(users.rows)| + 1 else |old(users.rows)|)
    ensures users.nextId == (if ioOk then old(users.nextId) + 1 else old(users.nextId))
    ensures echoed == (if ioOk then [Saved(username)] else [Failure, error])
  {
    var ok := users.CommitInsert(user, ioOk);
    if ok {
      echoed := [Saved(username)];
    } else {
      // db.session.rollback(): nothing was stored
      echoed := [Failure, error];
    }
  }

  /** `user create` (cli.py:51-74). `password` is None when the default was
      accepted at the prompt, `hash` is the hashing the `User` constructor
      applies, and `error` is the text of the exception a failed commit
      raises. */
  method CreateUser(users: Table, username: string, email: string, password: Option<string>, admin: bool,
                    hash: string -> string, ioOk: bool, error: string) returns (echoed: seq<string>)
    requires users.Valid() && users.model == UserModel
    modifies users
    ensures users.Valid()
    ensures Taken(old(users.rows), "username", Str(username)) ==>
      echoed == [UsernameTaken] && users.rows == old(users.rows) && users.nextId == old(users.nextId)
    ensures !Taken(old(users.rows), "username", Str(username)) && Taken(old(users.rows), "email", Str(email)) ==>
      echoed == [EmailTaken] && users.rows == old(users.rows) && users.nextId == old(users.nextId)
    ensures !Taken(old(users.rows), "username", Str(username)) && !Taken(old(users.rows), "email", Str(email)) ==>
      var pw := if password.Some? then password.value else DefaultPassword;
      var user := NewUser(old(users.nextId), username, email, hash(pw), admin);
      && users.rows == (if ioOk then old(users.rows)[old(users.nextId) := user] else old(users.rows))
      && |users.rows| == (if ioOk then |old(users.rows)| + 1 else |old(users.rows)|)
      && users.nextId == (if ioOk then old(users.nextId) + 1 else old(users.nextId))
      && echoed == (if ioOk then [Saved(username)] else [Failure, error])
  {
    var byName := users.FindBy("username", Str(username));
    if byName.Some? {
      assert Taken(users.rows, "username", Str(username));
      return [UsernameTaken];
    }
    assert !Taken(users.rows, "username", Str(username));
    var byEmail := users.FindBy("email", Str(email));
    if byEmail.Some? {
      assert Taken(users.rows, "email", Str(email));
      return [EmailTaken];
    }
    assert !Taken(users.rows, "email", Str(email));
    var pw := if password.Some? then password.value else DefaultPassword;
    var user := NewUser(users.nextId, username, email, hash(pw), admin);
    NewUserShaped(users.nextId, username, email, hash(pw), admin);
    assert users.nextId !in users.rows;
    assert user["username"] == Str(username) && user["email"] == Str(email);
    assert forall c | c in UserModel.unique && c in user :: !Taken(users.rows, c, user[c]) by {
      assert UserModel.unique == {"username", "email"};
    }
    InsertUntakenKeepsUnique(UserModel, users.rows, users.nextId, user);
    echoed := SaveUser(users, user, username, ioOk, error);
  }

  // ------------------------------------------------------ list-bp-endpoints

  /** `re.search(f"^{blueprint}.", endpoint)` for a blueprint name without
      regular-expression metacharacters: the endpoint starts with the name
      and has one more character, which the `.` matches unless it is a
      newline. */
  predicate MatchesBlueprint(blueprint: string, endpoint: string)
  {
    |endpoint| > |blueprint| && endpoint[..|blueprint|] == blueprint && endpoint[|blueprint|] != '\n'
  }

  /** The endpoints `list-bp-endpoints` echoes, in the order of the view
      functions table. */
  function BlueprintEndpoints(endpoints: seq<string>, blueprint: string): (r: seq<string>)
    ensures forall e :: e in r <==> e in endpoints && MatchesBlueprint(blueprint, e)
    ensures IsSubsequence(r, endpoints)
    ensures |r| <= |endpoints|
  {
    if endpoints == [] then []
    else if MatchesBlueprint(blueprint, endpoints[0]) then [endpoints[0]] + BlueprintEndpoints(endpoints[1..], blueprint)
    else BlueprintEndpoints(endpoints[1..], blueprint)
  }

  /** `list-bp-endpoints BLUEPRINT` (cli.py:15-22): one echoed line per
      matching endpoint of `current_app.view_functions`. */
  method ListBpEndpoints(endpoints: seq<string>, blueprint: string) returns (echoed: seq<string>)
    ensures echoed == BlueprintEndpoints(endpoints, blueprint)
  {
    echoed := [];
    var i := 0;
    while i < |endpoints|
      invariant 0 <= i <= |endpoints|
      invariant echoed + BlueprintEndpoints(endpoints[i..], blueprint) == BlueprintEndpoints(endpoints, blueprint)
    {
      assert endpoints[i..][1..] == endpoints[i + 1..];
      if MatchesBlueprint(blueprint, endpoints[i]) {
        echoed := echoed + [endpoints[i]];
      }
      i := i + 1;
    }
  }

  /** The `.` is a wildcard: a blueprint's name lists the endpoints of every
      blueprint whose name extends it, and never the bare name. */
  lemma PatternDotIsWildcard()
    ensures MatchesBlueprint("tour", "tour.show")
    ensures MatchesBlueprint("tour", "tours.show")
    ensures !MatchesBlueprint("tour", "tour")
  {
    assert "tour.show"[..4] == "tour";
    assert "tours.show"[..4] == "tour";
  }
}
