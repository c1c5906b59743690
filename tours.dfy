/** The tour handlers. app.py (lines 469-550) and the tour blueprint of
    app/tour/views.py hold the same create, edit, delete and show logic and
    differ only in the endpoints they redirect to, so both are this module
    with a `Routes` argument. */
module Tours {
  import opened Seqs
  import opened Store
  import opened Web
  import opened Forms

  /** The endpoints a set of tour handlers redirects to. */
  datatype Routes = Routes(login: string, home: string, show: string)

  /** The handlers of app.py. */
  const AppRoutes: Routes := Routes(LoginView, HomeView, "show_tour")
  /** The handlers of the `tour` blueprint. */
  const BlueprintRoutes: Routes := Routes(LoginView, "main.home", "tour.show")

  /** The columns a tour edit writes: the six form fields and the slug. */
  const EditedColumns: set<string> := {"title", "artist", "description", "genre", "start_date", "end_date", "slug"}

  const TourColumnNames: set<string> :=
    {"id", "title", "artist", "description", "genre", "start_date", "end_date", "user_id", "slug"}

  lemma TourColumnSet()
    ensures ColumnSet(TourModel) == TourColumnNames
  {
    var cs := TourModel.columns;
    assert cs[0] == "id" && cs[1] == "title" && cs[2] == "artist" && cs[3] == "description";
    assert cs[4] == "genre" && cs[5] == "start_date" && cs[6] == "end_date" && cs[7] == "user_id" && cs[8] == "slug";
  }

  /** A stored tour has every column of the mapped class. */
  lemma TourColumns(id: int, row: Row)
    requires Shaped(TourModel, id, row)
    ensures EditedColumns <= row.Keys && "user_id" in row
  {
    TourColumnSet();
  }

  /** The tour after the six assignments of `edit` (app.py:510-515,
      app/tour/views.py:69-74): the six fields hold the submitted values, the
      slug is rebuilt from the new title, the owner and the id are kept. */
  function TourEdit(row: Row, f: TourFields, slugify: Value -> string, token: string): (r: Row)
    requires f.startDate.Some? && f.endDate.Some?
    ensures r.Keys == row.Keys + EditedColumns
    ensures r["title"] == Str(f.title) && r["artist"] == Str(f.artist)
    ensures r["description"] == Str(f.description) && r["genre"] == Str(f.genre)
    ensures r["start_date"] == Date(f.startDate.value) && r["end_date"] == Date(f.endDate.value)
    ensures r["slug"] == SlugFor(Str(f.title), slugify, token)
    ensures forall c | c in row && c !in EditedColumns :: r[c] == row[c]
  {
    row["title" := Str(f.title)]["slug" := SlugFor(Str(f.title), slugify, token)]
       ["artist" := Str(f.artist)]["description" := Str(f.description)]["genre" := Str(f.genre)]
       ["start_date" := Date(f.startDate.value)]["end_date" := Date(f.endDate.value)]
  }

  /** An edit keeps the shape of the row. */
  lemma TourEditShaped(id: int, row: Row, f: TourFields, slugify: Value -> string, token: string)
    requires Shaped(TourModel, id, row)
    requires f.startDate.Some? && f.endDate.Some?
    ensures Shaped(TourModel, id, TourEdit(row, f, slugify, token))
  {
    var r := TourEdit(row, f, slugify, token);
    TourColumns(id, row);
    assert r.Keys == row.Keys;
    assert "id" !in EditedColumns;
    assert r["id"] == row["id"];
  }

  /** What `edit` puts in the form before rendering it (app.py:522-527,
      app/tour/views.py:81-86). */
  function EditFormData(row: Row): (data: map<string, Value>)
    requires "title" in row && "artist" in row && "description" in row && "genre" in row
    requires "start_date" in row && "end_date" in row
    ensures data.Keys == {"title", "artist", "description", "genre", "start_date", "end_date"}
    ensures forall k | k in data :: data[k] == row[k]
  {
    map["title" := row["title"], "artist" := row["artist"], "description" := row["description"],
        "genre" := row["genre"], "start_date" := row["start_date"], "end_date" := row["end_date"]]
  }

  /** `Tour(title, artist, description, genre, start_date, end_date,
      current_user.id)` once the database gives it its id. */
  function NewTour(id: int, f: TourFields, owner: int, slugify: Value -> string, token: string): (r: Row)
    requires f.startDate.Some? && f.endDate.Some?
    ensures r.Keys == TourColumnNames && r["id"] == Int(id)
    ensures r["title"] == Str(f.title) && r["artist"] == Str(f.artist)
    ensures r["description"] == Str(f.description) && r["genre"] == Str(f.genre)
    ensures r["start_date"] == Date(f.startDate.value) && r["end_date"] == Date(f.endDate.value)
    ensures r["user_id"] == Int(owner) && r["slug"] == SlugFor(Str(f.title), slugify, token)
  {
    map["id" := Int(id), "title" := Str(f.title), "artist" := Str(f.artist),
        "description" := Str(f.description), "genre" := Str(f.genre),
        "start_date" := Date(f.startDate.value), "end_date" := Date(f.endDate.value),
        "user_id" := Int(owner), "slug" := SlugFor(Str(f.title), slugify, token)]
  }

  /** A new tour row has the shape of the mapped class. */
  lemma NewTourShaped(id: int, f: TourFields, owner: int, slugify: Value -> string, token: string)
    requires f.startDate.Some? && f.endDate.Some?
    ensures Shaped(TourModel, id, NewTour(id, f, owner, slugify, token))
  {
    TourColumnSet();
  }

  /** The six assignments of `edit`, one `setattr` at a time. */
  method AssignFields(row: Row, f: TourFields, slugify: Value -> string, token: string) returns (tour: Row)
    requires f.startDate.Some? && f.endDate.Some?
    ensures tour == TourEdit(row, f, slugify, token)
  {
    tour := SetAttr(TourModel, row, "title", Str(f.title), slugify, token);
    tour := SetAttr(TourModel, tour, "artist", Str(f.artist), slugify, token);
    tour := SetAttr(TourModel, tour, "description", Str(f.description), slugify, token);
    tour := SetAttr(TourModel, tour, "genre", Str(f.genre), slugify, token);
    tour := SetAttr(TourModel, tour, "start_date", Date(f.startDate.value), slugify, token);
    tour := SetAttr(TourModel, tour, "end_date", Date(f.endDate.value), slugify, token);
  }

  /** The accepted branch of `edit`: assign, commit, show the tour under its new slug. */
  method SaveEdit(tours: Table, id: int, f: TourFields, ioOk: bool, slugify: Value -> string, token: string,
                  r: Routes) returns (resp: Response)
    requires tours.Valid() && tours.model == TourModel && id in tours.rows
    requires f.startDate.Some? && f.endDate.Some?
    modifies tours
    ensures tours.Valid() && tours.nextId == old(tours.nextId)
    ensures var edited := TourEdit(old(tours.rows)[id], f, slugify, token);
      var committed := ioOk && Unique(TourModel, old(tours.rows)[id := edited]);
      && tours.rows == (if committed then old(tours.rows)[id := edited] else old(tours.rows))
      && resp == (if committed then Redirect(r.show, map["slug" := edited["slug"]]) else ServerError)
  {
    var tour := AssignFields(tours.rows[id], f, slugify, token);
    TourEditShaped(id, tours.rows[id], f, slugify, token);
    var ok := tours.CommitUpdate(id, tour, ioOk);
    resp := if ok then Redirect(r.show, map["slug" := tour["slug"]]) else ServerError;
  }

  /** `edit_tour(slug)` (app.py:491-528) and `edit(slug)` (app/tour/views.py:50-87).
      A submitted form is validated as written: a start date with an empty
      end date makes the validation raise. */
  method Edit(tours: Table, p: Principal, slug: string, submitted: bool, f: TourFields,
              ioOk: bool, slugify: Value -> string, token: string, r: Routes) returns (resp: Response)
    requires tours.Valid() && tours.model == TourModel
    modifies tours
    ensures tours.Valid() && tours.nextId == old(tours.nextId)
    ensures p.Anonymous? ==> resp == Redirect(r.login, map[]) && tours.rows == old(tours.rows)
    ensures p.Member? && !OwnsSlug(p, old(tours.rows), slug) ==>
      resp == Redirect(r.home, map[]) && tours.rows == old(tours.rows)
    ensures p.Member? && OwnsSlug(p, old(tours.rows), slug) ==>
      var id := Lookup(old(tours.rows), "slug", Str(slug)).value;
      var row := old(tours.rows)[id];
      var v := TourValidationAsWritten(f);
      if !submitted || v.Failed? then
        && tours.rows == old(tours.rows)
        && resp == Render("edit_tour.html", EditFormData(row), if submitted then v.errors else {})
      else if v.Crashed? then
        resp == ServerError && tours.rows == old(tours.rows)
      else
        && f.startDate.Some? && f.endDate.Some?
        && var edited := TourEdit(row, f, slugify, token);
           var committed := ioOk && Unique(TourModel, old(tours.rows)[id := edited]);
           && tours.rows == (if committed then old(tours.rows)[id := edited] else old(tours.rows))
           && resp == (if committed then Redirect(r.show, map["slug" := edited["slug"]]) else ServerError)
  {
    if p.Anonymous? {
      return Redirect(r.login, map[]);
    }
    var found := tours.FindBy("slug", Str(slug));
    if found.None? || !IsOwner(p, tours.rows[found.value]) {
      return Redirect(r.home, map[]);
    }
    var tour := tours.rows[found.value];
    TourColumns(found.value, tour);
    if !submitted {
      return Render("edit_tour.html", EditFormData(tour), {});
    }
    var v := TourValidationAsWritten(f);
    match v
    case Crashed =>
      // `start_date > None` raises TypeError
      resp := ServerError;
    case Failed(errors) =>
      resp := Render("edit_tour.html", EditFormData(tour), errors);
    case Passed =>
      TourValidationAgrees(f);
      AcceptedTourIsOrdered(f);
      resp := SaveEdit(tours, found.value, f, ioOk, slugify, token, r);
  }

  /** `delete_tour(slug)` (app.py:531-541) and `delete(slug)` (app/tour/views.py:91-101). */
  method Delete(tours: Table, p: Principal, slug: string, ioOk: bool, r: Routes) returns (resp: Response)
    requires tours.Valid() && tours.model == TourModel
    modifies tours
    ensures tours.Valid() && tours.nextId == old(tours.nextId)
    ensures p.Anonymous? ==> resp == Redirect(r.login, map[]) && tours.rows == old(tours.rows)
    ensures p.Member? && !OwnsSlug(p, old(tours.rows), slug) ==>
      resp == Redirect(r.home, map[]) && tours.rows == old(tours.rows)
    ensures p.Member? && OwnsSlug(p, old(tours.rows), slug) ==>
      var id := Lookup(old(tours.rows), "slug", Str(slug)).value;
      && tours.rows == (if ioOk then old(tours.rows) - {id} else old(tours.rows))
      && resp == (if ioOk then Redirect(r.home, map[]) else ServerError)
  {
    if p.Anonymous? {
      return Redirect(r.login, map[]);
    }
    var found := tours.FindBy("slug", Str(slug));
    if found.None? || !IsOwner(p, tours.rows[found.value]) {
      return Redirect(r.home, map[]);
    }
    var ok := tours.CommitDelete(found.value, ioOk);
    resp := if ok then Redirect(r.home, map[]) else ServerError;
  }

  /** `create_tour()` (app.py:469-488) and `create()` (app/tour/views.py:25-46),
      with the form validated as written. */
  method Create(tours: Table, p: Principal, submitted: bool, f: TourFields,
                ioOk: bool, slugify: Value -> string, token: string, r: Routes) returns (resp: Response)
    requires tours.Valid() && tours.model == TourModel
    modifies tours
    ensures tours.Valid()
    ensures p.Anonymous? ==>
      resp == Redirect(r.login, map[]) && tours.rows == old(tours.rows) && tours.nextId == old(tours.nextId)
    ensures p.Member? && (!submitted || TourValidationAsWritten(f).Failed?) ==>
      && resp == Render("create_tour.html", map[], if submitted then TourValidationAsWritten(f).errors else {})
      && tours.rows == old(tours.rows) && tours.nextId == old(tours.nextId)
    ensures p.Member? && submitted && TourValidationAsWritten(f).Crashed? ==>
      resp == ServerError && tours.rows == old(tours.rows) && tours.nextId == old(tours.nextId)
    ensures p.Member? && submitted && TourValidationAsWritten(f).Passed? ==>
      && f.startDate.Some? && f.endDate.Some?
      && var tour := NewTour(old(tours.nextId), f, p.id, slugify, token);
         var committed := ioOk && Unique(TourModel, old(tours.rows)[old(tours.nextId) := tour]);
         && tours.rows == (if committed then old(tours.rows)[old(tours.nextId) := tour] else old(tours.rows))
         && tours.nextId == (if committed then old(tours.nextId) + 1 else old(tours.nextId))
         && resp == (if committed then Redirect(r.show, map["slug" := tour["slug"]]) else ServerError)
  {
    if p.Anonymous? {
      return Redirect(r.login, map[]);
    }
    if !submitted {
      return Render("create_tour.html", map[], {});
    }
    var v := TourValidationAsWritten(f);
    if v.Crashed? {
      // `start_date > None` raises TypeError
      return ServerError;
    }
    if v.Failed? {
      return Render("create_tour.html", map[], v.errors);
    }
    TourValidationAgrees(f);
    AcceptedTourIsOrdered(f);
    var tour := NewTour(tours.nextId, f, p.id, slugify, token);
    NewTourShaped(tours.nextId, f, p.id, slugify, token);
    var ok := tours.CommitInsert(tour, ioOk);
    resp := if ok then Redirect(r.show, map["slug" := tour["slug"]]) else ServerError;
  }

  /** `show_tour(slug)` (app.py:544-550) and `show(slug)` (app/tour/views.py:105-111).
      It only reads the store. */
  method Show(tours: Table, p: Principal, slug: string, r: Routes) returns (resp: Response)
    requires tours.Valid() && tours.model == TourModel
    ensures p.Anonymous? ==> resp == Redirect(r.login, map[])
    ensures p.Member? && !Taken(tours.rows, "slug", Str(slug)) ==> resp == NotFound
    ensures p.Member? && Taken(tours.rows, "slug", Str(slug)) ==>
      resp == Render("show_tour.html", tours.rows[Lookup(tours.rows, "slug", Str(slug)).value], {})
  {
    if p.Anonymous? {
      return Redirect(r.login, map[]);
    }
    var found := tours.FindBy("slug", Str(slug));
    if found.None? {
      return NotFound;
    }
    resp := Render("show_tour.html", tours.rows[found.value], {});
  }
}
