/** The album handlers of app.py: create, edit and delete, each behind
    `login_required` and, for edit and delete, the owner check. */
module Albums {
  import opened Seqs
  import opened Store
  import opened Web
  import opened Forms

  /** The album page. */
  const ShowView: string := "show_album"

  /** The columns an album edit writes: the four form fields and the slug the
      title listener regenerates. */
  const EditedColumns: set<string> := {"title", "artist", "description", "genre", "slug"}

  /** The album columns as a set. */
  const AlbumColumnNames: set<string> :=
    {"id", "title", "artist", "description", "genre", "image", "release_date", "user_id", "slug"}

  lemma AlbumColumnSet()
    ensures ColumnSet(AlbumModel) == AlbumColumnNames
  {
    var cs := AlbumModel.columns;
    assert cs[0] == "id" && cs[1] == "title" && cs[2] == "artist" && cs[3] == "description";
    assert cs[4] == "genre" && cs[5] == "image" && cs[6] == "release_date" && cs[7] == "user_id" && cs[8] == "slug";
  }

  /** A stored album has every column of the mapped class. */
  lemma AlbumColumns(id: int, row: Row)
    requires Shaped(AlbumModel, id, row)
    ensures EditedColumns <= row.Keys
    ensures "image" in row && "release_date" in row && "user_id" in row
  {
    AlbumColumnSet();
  }

  /** The album after `album.title = ...`, `album.artist = ...`,
      `album.description = ...`, `album.genre = ...` (app.py:249-252): the
      four fields hold the submitted text, the slug is rebuilt from the new
      title, and every other column keeps its value. */
  function AlbumEdit(row: Row, f: AlbumFields, slugify: Value -> string, token: string): (r: Row)
    ensures r.Keys == row.Keys + EditedColumns
    ensures r["title"] == Str(f.title) && r["artist"] == Str(f.artist)
    ensures r["description"] == Str(f.description) && r["genre"] == Str(f.genre)
    ensures r["slug"] == SlugFor(Str(f.title), slugify, token)
    ensures forall c | c in row && c !in EditedColumns :: r[c] == row[c]
  {
    row["title" := Str(f.title)]["slug" := SlugFor(Str(f.title), slugify, token)]
       ["artist" := Str(f.artist)]["description" := Str(f.description)]["genre" := Str(f.genre)]
  }

  /** An edit keeps the shape of the row. */
  lemma AlbumEditShaped(id: int, row: Row, f: AlbumFields, slugify: Value -> string, token: string)
    requires Shaped(AlbumModel, id, row)
    ensures Shaped(AlbumModel, id, AlbumEdit(row, f, slugify, token))
  {
    var r := AlbumEdit(row, f, slugify, token);
    AlbumColumns(id, row);
    assert r.Keys == row.Keys;
    assert "id" !in EditedColumns;
    assert r["id"] == row["id"];
  }

  /** What `edit_album` puts in the form before rendering it (app.py:259-262). */
  function EditFormData(row: Row): (data: map<string, Value>)
    requires "title" in row && "artist" in row && "description" in row && "genre" in row
    ensures data.Keys == {"title", "artist", "description", "genre"}
    ensures forall k | k in data :: data[k] == row[k]
  {
    map["title" := row["title"], "artist" := row["artist"], "description" := row["description"],
        "genre" := row["genre"]]
  }

  /** `Album(title, artist, description, genre, image, release_date,
      current_user.id)` (app.py:223) once the database gives it its id: the
      constructor's title assignment fires the listener, so the slug comes
      from the title. */
  function NewAlbum(id: int, f: AlbumFields, image: string, releaseDate: int, owner: int,
                    slugify: Value -> string, token: string): (r: Row)
    ensures r.Keys == AlbumColumnNames
    ensures r["id"] == Int(id)
    ensures r["title"] == Str(f.title) && r["artist"] == Str(f.artist)
    ensures r["description"] == Str(f.description) && r["genre"] == Str(f.genre)
    ensures r["image"] == Str(image) && r["release_date"] == Date(releaseDate)
    ensures r["user_id"] == Int(owner) && r["slug"] == SlugFor(Str(f.title), slugify, token)
  {
    var r := map["id" := Int(id), "title" := Str(f.title), "artist" := Str(f.artist),
                 "description" := Str(f.description), "genre" := Str(f.genre), "image" := Str(image),
                 "release_date" := Date(releaseDate), "user_id" := Int(owner),
                 "slug" := SlugFor(Str(f.title), slugify, token)];
    r
  }

  /** A new album row has the shape of the mapped class. */
  lemma NewAlbumShaped(id: int, f: AlbumFields, image: string, releaseDate: int, owner: int,
                    slugify: Value -> string, token: string)
    ensures Shaped(AlbumModel, id, NewAlbum(id, f, image, releaseDate, owner, slugify, token))
  {
    AlbumColumnSet();
  }

  /** The four assignments of `edit_album`, one `setattr` at a time. */
  method AssignFields(row: Row, f: AlbumFields, slugify: Value -> string, token: string) returns (album: Row)
    ensures album == AlbumEdit(row, f, slugify, token)
  {
    album := SetAttr(AlbumModel, row, "title", Str(f.title), slugify, token);
    album := SetAttr(AlbumModel, album, "artist", Str(f.artist), slugify, token);
    album := SetAttr(AlbumModel, album, "description", Str(f.description), slugify, token);
    album := SetAttr(AlbumModel, album, "genre", Str(f.genre), slugify, token);
  }

  /** The accepted branch of `edit_album` (app.py:244-257): assign the four
      fields one `setattr` at a time, commit, and show the album under its
      new slug. */
  method SaveEdit(albums: Table, id: int, f: AlbumFields, ioOk: bool, slugify: Value -> string, token: string)
    returns (resp: Response)
    requires albums.Valid() && albums.model == AlbumModel && id in albums.rows
    modifies albums
    ensures albums.Valid() && albums.nextId == old(albums.nextId)
    ensures var edited := AlbumEdit(old(albums.rows)[id], f, slugify, token);
      var committed := ioOk && Unique(AlbumModel, old(albums.rows)[id := edited]);
      && albums.rows == (if committed then old(albums.rows)[id := edited] else old(albums.rows))
      && resp == (if committed then Redirect(ShowView, map["slug" := edited["slug"]]) else ServerError)
  {
    var album := AssignFields(albums.rows[id], f, slugify, token);
    AlbumEditShaped(id, albums.rows[id], f, slugify, token);
    var ok := albums.CommitUpdate(id, album, ioOk);
    resp := if ok then Redirect(ShowView, map["slug" := album["slug"]]) else ServerError;
  }

  /** `edit_album(slug)` (app.py:232-263). The form is accepted when it was
      submitted and passes `AlbumErrors`; `ioOk` says whether the database
      accepts the commit. */
  method EditAlbum(albums: Table, p: Principal, slug: string, submitted: bool, f: AlbumFields,
                   ioOk: bool, slugify: Value -> string, token: string) returns (resp: Response)
    requires albums.Valid() && albums.model == AlbumModel
    modifies albums
    ensures albums.Valid() && albums.nextId == old(albums.nextId)
    ensures p.Anonymous? ==> resp == Redirect(LoginView, map[]) && albums.rows == old(albums.rows)
    ensures p.Member? && !OwnsSlug(p, old(albums.rows), slug) ==>
      resp == Redirect(HomeView, map[]) && albums.rows == old(albums.rows)
    ensures p.Member? && OwnsSlug(p, old(albums.rows), slug) ==>
      var id := Lookup(old(albums.rows), "slug", Str(slug)).value;
      var row := old(albums.rows)[id];
      if submitted && AlbumErrors(f) == {} then
        var edited := AlbumEdit(row, f, slugify, token);
        var committed := ioOk && Unique(AlbumModel, old(albums.rows)[id := edited]);
        && albums.rows == (if committed then old(albums.rows)[id := edited] else old(albums.rows))
        && resp == (if committed then Redirect(ShowView, map["slug" := edited["slug"]]) else ServerError)
      else
        && albums.rows == old(albums.rows)
        && resp == Render("edit_album.html", EditFormData(row), if submitted then AlbumErrors(f) else {})
  {
    if p.Anonymous? {
      return Redirect(LoginView, map[]);
    }
    var found := albums.FindBy("slug", Str(slug));
    if found.None? || !IsOwner(p, albums.rows[found.value]) {
      return Redirect(HomeView, map[]);
    }
    var album := albums.rows[found.value];
    if submitted && AlbumErrors(f) == {} {
      resp := SaveEdit(albums, found.value, f, ioOk, slugify, token);
    } else {
      AlbumColumns(found.value, album);
      resp := Render("edit_album.html", EditFormData(album), if submitted then AlbumErrors(f) else {});
    }
  }

  /** `delete_album(slug)` (app.py:266-276). */
  method DeleteAlbum(albums: Table, p: Principal, slug: string, ioOk: bool) returns (resp: Response)
    requires albums.Valid() && albums.model == AlbumModel
    modifies albums
    ensures albums.Valid() && albums.nextId == old(albums.nextId)
    ensures p.Anonymous? ==> resp == Redirect(LoginView, map[]) && albums.rows == old(albums.rows)
    ensures p.Member? && !OwnsSlug(p, old(albums.rows), slug) ==>
      resp == Redirect(HomeView, map[]) && albums.rows == old(albums.rows)
    ensures p.Member? && OwnsSlug(p, old(albums.rows), slug) ==>
      var id := Lookup(old(albums.rows), "slug", Str(slug)).value;
      && albums.rows == (if ioOk then old(albums.rows) - {id} else old(albums.rows))
      && resp == (if ioOk then Redirect(HomeView, map[]) else ServerError)
  {
    if p.Anonymous? {
      return Redirect(LoginView, map[]);
    }
    var found := albums.FindBy("slug", Str(slug));
    if found.None? || !IsOwner(p, albums.rows[found.value]) {
      return Redirect(HomeView, map[]);
    }
    var ok := albums.CommitDelete(found.value, ioOk);
    resp := if ok then Redirect(HomeView, map[]) else ServerError;
  }

  /** `create_album()` (app.py:210-229). `savedImage` is the file name
      `save_image_upload` returns. */
  method CreateAlbum(albums: Table, p: Principal, submitted: bool, f: CreateAlbumFields, savedImage: string,
                     ioOk: bool, slugify: Value -> string, token: string) returns (resp: Response)
    requires albums.Valid() && albums.model == AlbumModel
    modifies albums
    ensures albums.Valid()
    ensures p.Anonymous? ==>
      resp == Redirect(LoginView, map[]) && albums.rows == old(albums.rows) && albums.nextId == old(albums.nextId)
    ensures p.Member? && !(submitted && CreateAlbumErrors(f) == {}) ==>
      && resp == Render("create_album.html", map[], if submitted then CreateAlbumErrors(f) else {})
      && albums.rows == old(albums.rows) && albums.nextId == old(albums.nextId)
    ensures p.Member? && submitted && CreateAlbumErrors(f) == {} ==>
      var album := NewAlbum(old(albums.nextId), f.album, savedImage, f.releaseDate.value, p.id, slugify, token);
      var committed := ioOk && Unique(AlbumModel, old(albums.rows)[old(albums.nextId) := album]);
      && albums.rows == (if committed then old(albums.rows)[old(albums.nextId) := album] else old(albums.rows))
      && albums.nextId == (if committed then old(albums.nextId) + 1 else old(albums.nextId))
      && resp == (if committed then Redirect(ShowView, map["slug" := album["slug"]]) else ServerError)
  {
    if p.Anonymous? {
      return Redirect(LoginView, map[]);
    }
    if !(submitted && CreateAlbumErrors(f) == {}) {
      return Render("create_album.html", map[], if submitted then CreateAlbumErrors(f) else {});
    }
    assert "release_date" !in CreateAlbumErrors(f);
    var album := NewAlbum(albums.nextId, f.album, savedImage, f.releaseDate.value, p.id, slugify, token);
    NewAlbumShaped(albums.nextId, f.album, savedImage, f.releaseDate.value, p.id, slugify, token);
    var ok := albums.CommitInsert(album, ioOk);
    resp := if ok then Redirect(ShowView, map["slug" := album["slug"]]) else ServerError;
  }
}
