# Globomantics music site: a Dafny model of its request core

This project models the state-changing core of a Flask site for albums and
tours, and proves properties of that model. Persistence is an abstract
store: each mapped class (`Album`, `Tour`, `User`) is a `Store.Table`. A
table holds a map from id to row, where a row maps column names to values.
A commit either applies every staged change or none of them.

The modules follow the program:

- `Store` (store.dfy): the mapped classes as column lists and unique
  constraints. It also holds the `setattr` binder with the title "set"
  listener that rebuilds the slug, and the `Table` object standing for
  `Model.query` and `db.session`.
- `Web` (web.dfy): the current user, the responses a handler returns,
  `login_required` and the owner check.
- `Forms` (forms.dfy): the validation rules of the album, tour,
  registration and login forms. A form's outcome is the set of fields that
  carry an error.
- `Admin` (admin.dfy): the generic admin layer:
  - the `admin_required` guard;
  - the edit-parameter filter;
  - `TableView` and `ModifyResourceView`, as classes with GET, POST and
    DELETE;
  - the registrar that adds the admin URL rules, as a `Blueprint` class
    whose rule list grows.
- `Albums` (albums.dfy): the owner-guarded album create, edit and delete
  handlers.
- `Tours` (tours.dfy): the tour create, edit, delete and show handlers.
  They appear twice in the repository, once in app.py and once in the
  `tour` blueprint. Both copies are one method each, parameterised by the
  endpoints they redirect to.
- `Accounts` (accounts.dfy): `register` and `login`.
- `Cli` (cli.dfy): `user create` and
  `list-bp-endpoints`.
- `UrlProcessors` (url_processors.dfy): the two language URL processors,
  over a mutable values dictionary and the request's `g`.

Calls into code the model cannot see are parameters:

- `slugify`, and the `token_urlsafe(3)` token;
- password hashing and checking;
- the `Email()` address check;
- the file name `save_image_upload` returns;
- whether the database accepts a commit (`ioOk`);
- `url_map.is_endpoint_expecting`.

A handler that lets an exception escape answers `ServerError`. The handlers
follow the code as written: the admin views use the guard in the order
Flask applies it, and the tour handlers use the tour form's validation with
its crash. The corrected guard and validation are defined beside them, with
lemmas relating the two (see "## Findings").

## Model

| member | source | states |
|---|---|---|
| Store.SlugFor | app.py:99-100 | `update_slug`: slugify(title), a dash and the random token (a definition; its use is stated by `SetAttr`) |
| Store.Shaped | app.py:53-114 | a stored row has exactly the mapped class's columns and holds its own id (a definition, kept by every commit through `Table.Valid`) |
| Store.Unique | app.py:110-111 | no two rows agree on a UNIQUE column (a definition, kept by every commit through `Table.Valid`) |
| Store.Taken | app.py:237 | some row holds the value in the column (a definition; `Lookup` finds a row exactly when it holds) |
| Store.SetAttr | app.py:98-103 | assigning a column stores the value; on Album and Tour, assigning "title" also sets "slug" to slugify(title) + "-" + token; no other column changes |
| Store.Lookup | app.py:237 | `filter_by(column=v).first()` finds a row exactly when some row holds v in that column, and the row it finds holds v |
| Store.InsertUntakenKeepsUnique | app.py:110-111 | adding a row whose unique values no stored row holds keeps the UNIQUE constraints |
| Store.Table.constructor | app.py:43 | an empty table is valid |
| Store.Table.Get | app/admin/views.py:91-92 | `get_model_instance` returns the row with that id, or None exactly when there is none |
| Store.Table.FindBy | app.py:237 | the lookup on a unique column returns the `Lookup` result |
| Store.Table.CommitUpdate | app.py:254-255 | the commit succeeds iff the database is up and the updated rows keep the unique constraints; on success only that row changes, on failure nothing does |
| Store.Table.CommitInsert | app.py:224-225 | on success exactly one row is added, under the next id; on failure nothing changes |
| Store.Table.CommitDelete | app.py:273-274 | on success exactly that row is gone and every other row of that table is kept (see "## Left out" on the User cascade); on failure nothing changes |
| Seqs.Lower | app/admin/views.py:40 | `.lower()` keeps the length, turns each upper-case letter into its lower-case letter and leaves every other character alone |
| Web.IsOwner | app.py:130-134 | `is_album_owner` / `is_tour_owner`: the row's user_id is the current user's id (a definition) |
| Web.OwnsSlug | app.py:237-239 | the record found by slug exists and passes the owner check (a definition, used by every owner-guarded handler's contract) |
| Web.LoginRequired | app.py:46-47 | `login_required` lets exactly the logged-in users through and sends everyone else to the login view |
| Admin.AdminGuardAsWritten | app/admin/views.py:12-20 | the guard in the order Flask applies `decorators`: only administrators pass; a logged-in non-admin goes to "auth.login"; an anonymous visitor gets a server error |
| Admin.AdminGuard | app/admin/views.py:12-20 | the intended guard: only administrators pass; the anonymous visitor is sent to the login view by `login_required`, and a logged-in non-admin to "auth.login" |
| Admin.GuardsAgreeOnMembers | app/admin/views.py:26-27 | the written and the intended guard agree on every logged-in user |
| Admin.AnonymousAdminRequestFails | app/admin/views.py:45-46 | on the anonymous visitor the written guard fails with a server error, where the intended one redirects to the login page |
| Admin.IsParameter | app/admin/views.py:99 | a name is a parameter iff it does not start with "_" and is not "submit", "csrf_token" or "meta" (a definition) |
| Admin.UpdateParameters | app/admin/views.py:94-101 | the result holds exactly the names that are not private (leading "_") and not "submit", "csrf_token" or "meta", in their original order (a subsequence of the input) |
| Admin.ParametersPassUnchanged | app/admin/views.py:96-100 | a list made only of parameters passes the filter whole |
| Admin.UpdateParametersIdempotent | app/admin/views.py:96-100 | filtering the filter's output returns it unchanged |
| Admin.UpdateParametersAppend | app/admin/views.py:96-100 | the filter distributes over concatenation |
| Admin.FilterFramed | app/admin/views.py:94-101 | fields framed by non-parameters filter down to exactly those fields |
| Admin.FormExtrasAreNotParameters | app/admin/views.py:99 | the attributes wtforms adds around the fields (meta, the private ones, submit, csrf_token) are all filtered out |
| Admin.BookkeepingIsNotParameters | app/admin/views.py:99 | wtforms' bookkeeping attributes are all filtered out |
| Admin.AlbumFieldsAreParameters | app.py:156-180 | the four album fields are all edit parameters |
| Admin.TourFieldsAreParameters | app.py:409-447 | the six tour fields are all edit parameters |
| Admin.AlbumFormParameters | app.py:199-200 | the edit parameters of the album update form are exactly title, artist, description and genre, in that order |
| Admin.TourFormParameters | app.py:458-459 | the edit parameters of the tour update form are exactly the six declared fields, in order |
| Admin.AlbumFormFits | app/admin/views.py:126 | every album edit parameter is a column of Album other than the id |
| Admin.TourFormFits | app/admin/views.py:127 | every tour edit parameter is a column of Tour other than the id |
| Admin.Assign | app/admin/views.py:75-77 | the instance after one `setattr` per parameter, in order (a definition; the lemmas below state its effect) |
| Admin.AssignKeepsColumns | app/admin/views.py:75-77 | the POST loop adds no column to an instance |
| Admin.AssignSetsParameters | app/admin/views.py:75-77 | after the POST loop every parameter holds the submitted value (a slug parameter only where no title listener can overwrite it) |
| Admin.AssignLeavesOthers | app/admin/views.py:75-77 | every column that is not a parameter keeps its value, except the slug once a title was assigned |
| Admin.AssignRegeneratesSlug | app/admin/views.py:75-77 | on Album and Tour, a POST that assigns the title rebuilds the slug from the submitted title |
| Admin.AssignCurrentValues | app/admin/views.py:59-77 | posting back the values GET prefilled changes exactly the slug on Album and Tour (rebuilt from the unchanged title), and nothing on a model without the listener |
| Admin.SetAttrCurrentValue | app/admin/views.py:77 | one `setattr` of a column's current value changes at most the slug |
| Admin.Prefill | app/admin/views.py:59-61 | the form after one copy per parameter, in order (a definition; `PrefillCopies` states its effect) |
| Admin.PrefillCopies | app/admin/views.py:59-61 | after the GET loop each parameter of the form holds the instance's value, and the other form fields are untouched |
| Admin.TableView.constructor | app/admin/views.py:29-33 | the view keeps the model, the edit flag and the model's column names |
| Admin.TableView.DispatchRequest | app/admin/views.py:26-42 | behind the guard as written (anonymous: server error; member who is not an admin: to "auth.login"), lists every instance with the columns, the lower-cased model name and the edit flag |
| Admin.ModifyResourceView.constructor | app/admin/views.py:48-53 | the view keeps the model, the form, the column names and the lower-cased resource name |
| Admin.ModifyResourceView.Get | app/admin/views.py:55-68 | behind the guard as written, prefills each parameter from the instance and leaves the other form fields; a missing instance is a server error (unless there are no parameters) |
| Admin.ModifyResourceView.Post | app/admin/views.py:70-83 | behind the guard as written; a form that passes: the instance becomes `Assign` of the submitted parameters, other rows are kept, and the response redirects to "admin.<name>_table"; a form that fails: nothing changes, and the response redirects to "admin.<name>" with the same id; a validation that raises: server error with nothing changed; missing instance: server error with nothing changed |
| Admin.ModifyResourceView.Delete | app/admin/views.py:85-92 | behind the guard as written, an existing instance is removed, every other row of that table is kept (see "## Left out" on the User cascade) and the body is ""; a missing one is a server error with nothing changed |
| Admin.AdminRules | app/admin/views.py:104-123 | two rules: "/<name>/" to "<name>_table" for GET with edit_allowed equal to having a form; "/<name>/<int:resource_id>" to "<name>" with GET and POST iff there is an edit form, and DELETE always |
| Admin.Route | app/admin/views.py:121-123 | the URL map answers the first rule with that path and method (a match exists iff some rule serves them), 404 exactly when no rule has the path, 405 otherwise |
| Admin.RegisteredInstanceRoute | app/admin/views.py:109-123 | after registration the instance path answers DELETE always, and GET/POST exactly when an edit form was given (405 otherwise) |
| Admin.Blueprint.constructor | app/admin/views.py:23 | the blueprint starts with no rules |
| Admin.Blueprint.AddUrlRule | app/admin/views.py:115-123 | appends one rule |
| Admin.Blueprint.RegisterAdminResource | app/admin/views.py:104-123 | appends exactly `AdminRules` for the model |
| Admin.Blueprint.RegisterAll | app/admin/views.py:126-128 | registers Album and Tour with their update forms and User without one, in that order |
| Forms.Blank | app.py:159-160 | `InputRequired`/`DataRequired` fail on text that is empty or only white space (a definition) |
| Forms.TextValid | app.py:157-162 | a text field passes iff it is not blank and its length is within the bounds (a definition) |
| Forms.HasAllowedExtension | app.py:193 | `FileAllowed`: the lower-cased name ends with ".jpeg", ".jpg" or ".png" (a definition) |
| Forms.ImageValid | app.py:191-195 | `FileAllowed` and `FileRequired`: a file with a non-empty name and an allowed extension (a definition) |
| Forms.AlbumErrors | app.py:156-180 | a field is in error iff it is blank or outside its bounds: title 5-80, artist 2-30, description 10-200, genre 2-20 |
| Forms.CreateAlbumErrors | app.py:183-196 | the album errors, plus the release date iff it is missing, plus the image iff no file with a .jpeg/.jpg/.png name was sent |
| Forms.LowerIdempotent | app.py:193 | lower-casing twice is lower-casing once |
| Forms.ImageCheckIgnoresCase | app.py:191-195 | the extension check does not look at letter case |
| Forms.TourValidationAsWritten | app.py:409-451 | validation crashes iff a start date is given with no end date |
| Forms.TourErrors | app.py:409-451 | the album rules on the text fields; the start date is in error iff missing or after the end date; the end date iff missing |
| Forms.AcceptedTourIsOrdered | app.py:449-451 | an accepted tour has both dates and does not end before it starts |
| Forms.TourValidationCrashes | app.py:449-451 | a named form with a start date and an empty end date crashes as written, where the intended rules report only the end date |
| Forms.TourValidationAgrees | app.py:409-451 | on every other input the written and the intended validation agree |
| Forms.RegistrationErrors | app.py:303-339 | username 5-20 and not taken; email 10-30, well formed and not taken; password 10-40 and equal to its confirmation; confirmation not blank |
| Forms.AcceptedRegistrationKeepsUsersUnique | app.py:331-339 | the user an accepted registration adds keeps usernames and emails unique |
| Forms.LoginErrors | app.py:341-360 | email 10-30 and registered; password 10-40 |
| Albums.AlbumColumnSet | app.py:53-64 | the Album columns are id, title, artist, description, genre, image, release_date, user_id, slug |
| Albums.AlbumColumns | app.py:53-64 | a stored album has every column an edit writes, and its image, release date and owner |
| Albums.AlbumEdit | app.py:249-252 | title, artist, description and genre hold the submitted text, the slug is rebuilt from the new title, and every other column (image, release_date, user_id, id) keeps its value |
| Albums.AlbumEditShaped | app.py:249-252 | an edited album keeps the Album columns and its id |
| Albums.EditFormData | app.py:259-262 | the form is prefilled with exactly the album's title, artist, description and genre |
| Albums.NewAlbum | app.py:66-73 | a new album holds the submitted fields, the image, the release date, the creator as owner and a slug from its title |
| Albums.NewAlbumShaped | app.py:66-73 | a new album has exactly the Album columns |
| Albums.AssignFields | app.py:249-252 | the four assignments, one `setattr` at a time, give `AlbumEdit` |
| Albums.SaveEdit | app.py:249-257 | the edited album is stored if the commit succeeds (the response then redirects to "show_album" with the new slug); otherwise nothing changes and the response is a server error |
| Albums.EditAlbum | app.py:232-263 | anonymous: to "login"; missing album or another user's album: to "home" with nothing changed; owner with an accepted form: `SaveEdit`; otherwise the prefilled form with its errors and nothing changed |
| Albums.DeleteAlbum | app.py:266-276 | the owner's album is gone and every other row is kept; anyone else goes to "home" with nothing changed |
| Albums.CreateAlbum | app.py:210-229 | an accepted form adds exactly one album owned by the current user under the next id and redirects to its page; if the commit fails (the database is down, or the new slug collides) it is a server error and nothing is stored; otherwise the form is shown again and nothing changes |
| Tours.TourColumnSet | app.py:76-87 | the Tour columns are id, title, artist, description, genre, start_date, end_date, user_id, slug |
| Tours.TourColumns | app.py:76-87 | a stored tour has every column an edit writes, and its owner |
| Tours.TourEdit | app/tour/views.py:69-74 | the six fields hold the submitted values, the slug is rebuilt, and user_id and id keep their values |
| Tours.TourEditShaped | app/tour/views.py:69-74 | an edited tour keeps the Tour columns and its id |
| Tours.EditFormData | app/tour/views.py:81-86 | the form is prefilled with exactly the tour's six fields |
| Tours.NewTour | app.py:89-96 | a new tour holds the submitted fields, the creator as owner and a slug from its title |
| Tours.NewTourShaped | app.py:89-96 | a new tour has exactly the Tour columns |
| Tours.AssignFields | app/tour/views.py:69-74 | the six assignments, one `setattr` at a time, give `TourEdit` |
| Tours.SaveEdit | app/tour/views.py:69-79 | the edited tour is stored if the commit succeeds, and the response redirects to the show endpoint with the new slug; otherwise nothing changes and the response is a server error |
| Tours.Edit | app/tour/views.py:50-87 | anonymous: to the login view; missing or another user's tour: to the home endpoint with nothing changed. For the owner, the form is validated as written: if it passes, `SaveEdit`; if validation raises (a start date with no end date), server error and nothing changed; otherwise the prefilled form with its errors and nothing changed |
| Tours.Delete | app/tour/views.py:91-101 | the owner's tour is gone and every other row is kept; anyone else goes to the home endpoint with nothing changed |
| Tours.Create | app/tour/views.py:25-46 | the form is validated as written: if it passes, exactly one tour owned by the current user is added under the next id, or, if the commit fails (the database is down, or the new slug collides), a server error with nothing stored; if validation raises, server error and nothing changed; otherwise the form with its errors and nothing changed |
| Tours.Show | app/tour/views.py:105-111 | a missing slug gives 404, an existing one renders that tour; the store is only read |
| Accounts.UserColumnSet | app.py:106-112 | the User columns are id, username, email, password_hash and is_admin |
| Accounts.UserColumns | app.py:106-112 | a stored user has an email, a password hash and an admin flag |
| Accounts.NewUser | app.py:116-119 | a new user stores the username, the email and only the hash of the password |
| Accounts.NewUserShaped | app.py:116-119 | a new user has exactly the User columns |
| Accounts.SignedIn | app.py:396 | the logged-in user is the stored user, an administrator iff its flag is set (a definition, used by the contracts of `Login` and `Register`) |
| Accounts.Register | app.py:363-382 | logged in: to "home"; an accepted form adds exactly that user under the next id, not an admin, and logs them in, or, if the commit fails, a server error with nothing stored and nobody logged in; otherwise the form with its errors and nothing changed |
| Accounts.Logout | app.py:401-405 | behind `login_required`, the visitor is anonymous afterwards, owns no record, is sent home, and every login-protected view now redirects to the login view; the store is not touched |
| Accounts.Login | app.py:385-399 | logged in: to "home"; an invalid form (including an unregistered email) is shown again; a wrong password redirects to "login" without logging in; a user is logged in only with a registered email and a matching password |
| Cli.CreateUser | cli.py:51-74 | a taken username is reported first, then a taken email, and nothing is stored; otherwise exactly one user is added, with password "password123" by default, admin iff asked; a failed commit echoes the error and stores nothing |
| Cli.SaveUser | cli.py:62-74 | the commit adds exactly the new user, or stores nothing and echoes "Something went wrong." and the error |
| Cli.MatchesBlueprint | cli.py:21 | `re.search(f"^{blueprint}.", endpoint)`: the endpoint starts with the name and has one more character that is not a newline (a definition) |
| Cli.BlueprintEndpoints | cli.py:20-22 | exactly the endpoints matching `^<bp>.`, in table order |
| Cli.ListBpEndpoints | cli.py:15-22 | the loop echoes `BlueprintEndpoints` |
| Cli.PatternDotIsWildcard | cli.py:21 | "tour" lists "tour.show" and also "tours.show", but never the bare "tour" |
| UrlProcessors.Preprocessed | app/url_processors.py:5-10 | "lang" is removed and becomes the language, or the values are kept and the language is the first configured one |
| UrlProcessors.WithLanguage | app/url_processors.py:12-17 | "lang" is added with the request's language exactly when the endpoint expects it and it is absent; existing keys are kept |
| UrlProcessors.LanguageRoundTrip | app/url_processors.py:5-17 | matching a URL built for an endpoint expecting a language gives back the values without "lang" and the language the URL carried |
| UrlProcessors.Processor | app/url_processors.py:5-10 | the values dictionary and `g.lang` become `Preprocessed` of the old values; with no values, `g.lang` is the first language |
| UrlProcessors.AddLanguageCode | app/url_processors.py:12-17 | the values dictionary becomes `WithLanguage` of the old one |

## Left out

- Flash messages, CSRF tokens, translations and template rendering are left out. A page is the `Render` value with the template name, the form data and the fields in error. The form data is the prefilled fields on the edit pages and empty on the create, register and login pages.
- The login `next` argument, `remember_me` and the session cookie are left out. A logged-in user is the `Principal` a handler returns.
- `save_image_upload` (app.py:293-300) writes a file and reads the clock. Its result is the `savedImage` parameter.
- `list_albums`, `show_album`, `list_tours`, the tour blueprint's `list` (app/tour/views.py:17-21), `uploads`, `home` and the 404 page are left out. They read the store or render a page and change neither the store nor the logged-in user. `show` of the tour blueprint is modelled, and so is `logout`, which ends the session (`Accounts.Logout`).
- Admin.ModifyResourceView.Delete: does not model the cascade. `User.albums` and `User.tours` are declared with `cascade="all, delete-orphan"` (app.py:113-114), so deleting a user through the admin also deletes that user's albums and tours. The model removes only the user's row. The view sees one table, and the cascade would need the album and tour tables in its frame.
- Admin.AdminRules: leaves out the HEAD and OPTIONS methods Flask adds to every rule.
- The mapped classes, the admin's update forms and the tour blueprint's forms come from app/models.py, app/album/forms.py and app/tour/forms.py. Those files are not part of this model. They are taken to be the classes of app.py.
- The administrator flag `is_admin` and `make_admin()` are not part of this model either. `is_admin` is a column of the users table. Registration stores it as false, and `user create --admin` as true.
- The wtforms attribute order of an update form is written out as constants. It is the bookkeeping attributes, then the fields in declaration order, then submit and the CSRF field. Only the edit parameters' order matters to the model.
- Seqs.Lower: lower-cases ASCII letters only, not the full Unicode `str.lower()`. Model names are ASCII.
- Forms.IsSpace: covers the ASCII white space of `str.isspace()` only.
- Forms.RegistrationErrors: the `Email()` validator is the `isEmail` parameter, not a model of email syntax.
- Cli.BlueprintEndpoints: treats the blueprint name as literal text. Regular-expression metacharacters other than the trailing `.` are not modelled.
- UrlProcessors.Processor: assumes a non-empty LANGUAGES setting (the `languages` parameter). No configuration shown defines it. With the key missing, or the list empty, the lookup in the `except` branch raises, and the model does not cover that case. The endpoint argument is not consulted, because the source does not consult it.
- Store.Table.CommitInsert: gives a new row the next value of a counter that only grows. SQLite gives an INTEGER PRIMARY KEY row max(rowid)+1, so after the highest-id row is deleted its id is used again. The model never reuses an id, and no other property depends on which id a new row gets.
- The login view of the tour blueprint (`Tours.BlueprintRoutes`): its `login_required` uses the login manager of app/__init__.py (lines 36-37), whose login view is "login", because app/tour/views.py imports `app` from there (line 9). The same holds for the admin views. app/extensions.py sets "auth.login" (line 22) only in `init_extensions`, which no file of this model calls. The model does not check that the "login" endpoint exists in that application.
- Concurrent requests and last-write-wins at the database are out of scope.
- Where the code and its description differ, the model follows the code:
  - the edit-parameter filter does not exclude "id";
  - an admin POST that assigns a title regenerates the slug;
  - an admin DELETE of a missing id is a server error;
  - an admin resource registered without an edit form, such as User, answers a GET or POST on `/admin/user/<id>` with 405 (method not allowed), not 404, because the DELETE rule has that path (`Admin.RegisteredInstanceRoute`);
  - an unregistered email at login fails form validation, so the form is shown again and there is no redirect to "login".

## Findings

| source | as written | input that shows it | evidently intended | confidence | as-written member | corrected member |
|---|---|---|---|---|---|---|
| app/admin/views.py:12-20 | `decorators = [login_required, admin_required]` makes `admin_required` the outer wrapper, so it reads `current_user.is_admin` before `login_required` runs | an anonymous visitor opening any admin page: the anonymous user has no `is_admin`, so the request fails with a server error | the anonymous visitor is sent to the login view | not executed | Admin.AdminGuardAsWritten, Admin.AnonymousAdminRequestFails | Admin.AdminGuard |
| app.py:449-451 | `validate_start_date` compares `field.data > form.end_date.data` even when the end date is None | a tour form with title "Summer tour", artist "The Band", description "Ten cities in June", genre "rock", a start date and an empty end date: comparing a date with None raises | a missing end date is reported as an error of the end date | not executed | Forms.TourValidationAsWritten, Forms.TourValidationCrashes | Forms.TourErrors |
