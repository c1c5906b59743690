/** What a request handler sees of Flask and Flask-Login: the current user
    and the response it hands back. Templates, flash messages and URL
    building are reduced to the values below. */
module Web {
  import opened Store

  /** The login manager's login view: "login" in app.py (line 47) and in
      app/__init__.py (line 37), which the admin and tour blueprints import. */
  const LoginView: string := "login"
  const HomeView: string := "home"
  /** The login endpoint the admin guard redirects to by name. */
  const AuthLoginView: string := "auth.login"

  /** `current_user`: the anonymous visitor, or a logged-in user with the
      `is_admin` flag of the users table. */
  datatype Principal = Anonymous | Member(id: int, isAdmin: bool)

  datatype Response =
    | Redirect(endpoint: string, args: map<string, Value>)            // redirect(url_for(endpoint, **args))
    | Render(template: string, data: map<string, Value>, errors: set<string>)  // a page with a form's field data
    | Listing(columns: seq<string>, instances: map<int, Row>, resourceName: string, editAllowed: bool)
    | Body(text: string)                                                // a plain response body
    | NotFound                                                          // abort(404)
    | ServerError                                                       // an exception escaped the handler

  /** Flask-Login's `login_required`: an anonymous visitor is sent to the login view. */
  function LoginRequired(p: Principal, loginView: string): (deny: Option<Response>)
    ensures deny.None? <==> p.Member?
    ensures deny.Some? ==> deny.value == Redirect(loginView, map[])
  {
    if p.Anonymous? then Some(Redirect(loginView, map[])) else None
  }

  /** `is_album_owner` / `is_tour_owner` (app.py:130-134): the record's
      `user_id` is the current user's id. */
  predicate IsOwner(p: Principal, row: Row)
  {
    p.Member? && "user_id" in row && row["user_id"] == Int(p.id)
  }

  /** The record found by slug exists and belongs to the current user. */
  ghost predicate OwnsSlug(p: Principal, rows: map<int, Row>, slug: string)
  {
    var found := Lookup(rows, "slug", Str(slug));
    found.Some? && IsOwner(p, rows[found.value])
  }
}
