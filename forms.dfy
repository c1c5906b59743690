/** The form classes of app.py (lines 156-200, 303-360, 409-459) reduced to
    their validation rules. A form's outcome is the set of names of the
    fields that carry an error; the empty set means `validate()` passed.
    A text field that was not submitted holds "", a date field that was
    missing or did not parse holds None, a file field holds the uploaded
    file's name or None. */
module Forms {
  import opened Seqs
  import opened Store

  // ------------------------------------------------------------ text fields

  /** The ASCII characters Python's `str.isspace()` accepts. */
  predicate IsSpace(c: char)
  {
    c == ' ' || c == '\t' || c == '\n' || c == '\r' || c == '\U{B}' || c == '\U{C}' || '\U{1C}' <= c <= '\U{1F}'
  }

  /** `not s.strip()`: nothing but white space, the empty string included. */
  predicate Blank(s: string)
  {
    forall i | 0 <= i < |s| :: IsSpace(s[i])
  }

  /** `InputRequired`, `DataRequired` and `Length(min=lo, max=hi)` on one
      text field: something other than white space, and lo to hi characters. */
  predicate TextValid(s: string, lo: int, hi: int)
  {
    !Blank(s) && lo <= |s| <= hi
  }

  /** A field name, when the condition holds. */
  function ErrorIf(b: bool, name: string): set<string>
  {
    if b then {name} else {}
  }

  // ------------------------------------------------------------ album forms

  datatype AlbumFields = AlbumFields(title: string, artist: string, description: string, genre: string)

  /** `AlbumForm` (app.py:156-180), the fields shared by the create and update forms. */
  function AlbumErrors(f: AlbumFields): (errors: set<string>)
    ensures "title" in errors <==> !TextValid(f.title, 5, 80)
    ensures "artist" in errors <==> !TextValid(f.artist, 2, 30)
    ensures "description" in errors <==> !TextValid(f.description, 10, 200)
    ensures "genre" in errors <==> !TextValid(f.genre, 2, 20)
    ensures errors <= {"title", "artist", "description", "genre"}
  {
    ErrorIf(!TextValid(f.title, 5, 80), "title")
    + ErrorIf(!TextValid(f.artist, 2, 30), "artist")
    + ErrorIf(!TextValid(f.description, 10, 200), "description")
    + ErrorIf(!TextValid(f.genre, 2, 20), "genre")
  }

  /** `ALLOWED_IMAGE_EXTENSIONS` (app.py:39). */
  const AllowedImageExtensions: seq<string> := ["jpeg", "jpg", "png"]

  /** `FileAllowed`: the lower-cased file name ends with a dot and an allowed extension. */
  predicate HasAllowedExtension(filename: string)
  {
    exists i | 0 <= i < |AllowedImageExtensions| :: EndsWith(Lower(filename), "." + AllowedImageExtensions[i])
  }

  /** `FileAllowed` then `FileRequired` on the cover image: a file with a
      non-empty name and an allowed extension. */
  predicate ImageValid(image: Option<string>)
  {
    image.Some? && image.value != "" && HasAllowedExtension(image.value)
  }

  datatype CreateAlbumFields = CreateAlbumFields(album: AlbumFields, releaseDate: Option<int>, image: Option<string>)

  /** `CreateAlbumForm` (app.py:183-196): the album fields, a release date and a cover image. */
  function CreateAlbumErrors(f: CreateAlbumFields): (errors: set<string>)
    ensures errors - {"release_date", "image"} == AlbumErrors(f.album)
    ensures "release_date" in errors <==> f.releaseDate.None?
    ensures "image" in errors <==> !ImageValid(f.image)
  {
    AlbumErrors(f.album) + ErrorIf(f.releaseDate.None?, "release_date") + ErrorIf(!ImageValid(f.image), "image")
  }

  /** Lower-casing twice is lower-casing once. */
  lemma LowerIdempotent(s: string)
    ensures Lower(Lower(s)) == Lower(s)
  {
    assert forall i | 0 <= i < |s| :: LowerChar(LowerChar(s[i])) == LowerChar(s[i]);
  }

  /** The extension check does not look at letter case. */
  lemma ImageCheckIgnoresCase(filename: string)
    ensures HasAllowedExtension(filename) <==> HasAllowedExtension(Lower(filename))
  {
    LowerIdempotent(filename);
  }

  // ------------------------------------------------------------ tour forms

  datatype TourFields = TourFields(title: string, artist: string, description: string, genre: string,
                                   startDate: Option<int>, endDate: Option<int>)

  /** The album fields of a tour form, which carry the same rules. */
  function TourText(f: TourFields): AlbumFields
  {
    AlbumFields(f.title, f.artist, f.description, f.genre)
  }

  datatype Validation = Passed | Failed(errors: set<string>) | Crashed

  /** `TourForm.validate()` as written (app.py:409-451). The fields are
      checked in declaration order; `start_date` runs `InputRequired`,
      `DataRequired`, then the inline `validate_start_date`, which compares
      `start > end` even when the end date is None, and Python raises on
      comparing a date with None. */
  function TourValidationAsWritten(f: TourFields): (v: Validation)
    ensures v.Crashed? <==> f.startDate.Some? && f.endDate.None?
  {
    if f.startDate.Some? && f.endDate.None? then Crashed
    else
      var errors := AlbumErrors(TourText(f))
        + ErrorIf(f.startDate.None? || f.startDate.value > f.endDate.value, "start_date")
        + ErrorIf(f.endDate.None?, "end_date");
      if errors == {} then Passed else Failed(errors)
  }

  /** `TourForm.validate()` as intended: a start date after the end date is
      an error of the start date; a missing end date is only an error of the
      end date. */
  function TourErrors(f: TourFields): (errors: set<string>)
    ensures errors - {"start_date", "end_date"} == AlbumErrors(TourText(f))
    ensures "start_date" in errors <==>
      f.startDate.None? || (f.endDate.Some? && f.startDate.value > f.endDate.value)
    ensures "end_date" in errors <==> f.endDate.None?
  {
    AlbumErrors(TourText(f))
      + ErrorIf(f.startDate.None? || (f.endDate.Some? && f.startDate.value > f.endDate.value), "start_date")
      + ErrorIf(f.endDate.None?, "end_date")
  }

  /** An accepted tour never ends before it starts. */
  lemma AcceptedTourIsOrdered(f: TourFields)
    requires TourErrors(f) == {}
    ensures f.startDate.Some? && f.endDate.Some? && f.startDate.value <= f.endDate.value
  {
    assert "start_date" !in TourErrors(f) && "end_date" !in TourErrors(f);
  }

  /** A form with a start date and an empty end date crashes the validation
      as written, where the intended rules report the end date. */
  lemma TourValidationCrashes()
    ensures var f := TourFields("Summer tour", "The Band", "Ten cities in June", "rock", Some(100), None);
      TourValidationAsWritten(f) == Crashed && TourErrors(f) == {"end_date"}
  {
    var f := TourFields("Summer tour", "The Band", "Ten cities in June", "rock", Some(100), None);
    assert !Blank(f.title) by { assert !IsSpace(f.title[0]); }
    assert !Blank(f.artist) by { assert !IsSpace(f.artist[0]); }
    assert !Blank(f.description) by { assert !IsSpace(f.description[0]); }
    assert !Blank(f.genre) by { assert !IsSpace(f.genre[0]); }
    assert AlbumErrors(TourText(f)) == {};
  }

  /** Everywhere else the two agree. */
  lemma TourValidationAgrees(f: TourFields)
    requires !(f.startDate.Some? && f.endDate.None?)
    ensures TourValidationAsWritten(f) == if TourErrors(f) == {} then Passed else Failed(TourErrors(f))
  {
  }

  // ------------------------------------------------------------ accounts

  datatype RegistrationFields = RegistrationFields(username: string, email: string, password: string,
                                                   passwordConfirm: string)

  /** `RegistrationForm` (app.py:303-339) against the users table. `isEmail`
      is the `Email()` validator's address check. */
  function RegistrationErrors(f: RegistrationFields, users: map<int, Row>, isEmail: string -> bool): (errors: set<string>)
    ensures "username" in errors <==> !TextValid(f.username, 5, 20) || Taken(users, "username", Str(f.username))
    ensures "email" in errors <==>
      !TextValid(f.email, 10, 30) || !isEmail(f.email) || Taken(users, "email", Str(f.email))
    ensures "password" in errors <==> !TextValid(f.password, 10, 40) || f.password != f.passwordConfirm
    ensures "password_confirm" in errors <==> Blank(f.passwordConfirm)
    ensures errors <= {"username", "email", "password", "password_confirm"}
  {
    ErrorIf(!TextValid(f.username, 5, 20) || Taken(users, "username", Str(f.username)), "username")
    + ErrorIf(!TextValid(f.email, 10, 30) || !isEmail(f.email) || Taken(users, "email", Str(f.email)), "email")
    + ErrorIf(!TextValid(f.password, 10, 40) || f.password != f.passwordConfirm, "password")
    + ErrorIf(Blank(f.passwordConfirm), "password_confirm")
  }

  /** A user row that an accepted registration form would add keeps the
      username and email columns unique. */
  lemma AcceptedRegistrationKeepsUsersUnique(f: RegistrationFields, users: map<int, Row>, isEmail: string -> bool,
                                             id: int, row: Row)
    requires RegistrationErrors(f, users, isEmail) == {}
    requires Unique(UserModel, users) && id !in users
    requires "username" in row && row["username"] == Str(f.username)
    requires "email" in row && row["email"] == Str(f.email)
    ensures Unique(UserModel, users[id := row])
  {
    assert "username" !in RegistrationErrors(f, users, isEmail);
    assert "email" !in RegistrationErrors(f, users, isEmail);
    InsertUntakenKeepsUnique(UserModel, users, id, row);
  }

  datatype LoginFields = LoginFields(email: string, password: string, rememberMe: bool)

  /** `LoginForm` (app.py:341-360) against the users table. */
  function LoginErrors(f: LoginFields, users: map<int, Row>): (errors: set<string>)
    ensures "email" in errors <==> !TextValid(f.email, 10, 30) || !Taken(users, "email", Str(f.email))
    ensures "password" in errors <==> !TextValid(f.password, 10, 40)
    ensures errors <= {"email", "password"}
  {
    ErrorIf(!TextValid(f.email, 10, 30) || !Taken(users, "email", Str(f.email)), "email")
    + ErrorIf(!TextValid(f.password, 10, 40), "password")
  }
}
