/** The generic admin layer of app/admin/views.py: the administrator guard,
    the edit-parameter filter, the read-only table view, the edit/delete
    view and the registrar that wires a model into the admin blueprint. */
module Admin {
  import opened Seqs
  import opened Store
  import opened Web
  import opened Forms

  // ---------------------------------------------------------------- guard

  /** `decorators = [login_required, admin_required]` as Flask applies them:
      each decorator wraps the previous result, so `admin_required` is the
      outer wrapper and reads `current_user.is_admin` before
      `login_required` has looked at the visitor. Flask-Login's anonymous
      user has no `is_admin`, so the lookup raises. */
  function AdminGuardAsWritten(p: Principal): (deny: Option<Response>)
    ensures deny.None? <==> p.Member? && p.isAdmin
    ensures p.Anonymous? ==> deny == Some(ServerError)
    ensures p.Member? && !p.isAdmin ==> deny == Some(Redirect(AuthLoginView, map[]))
  {
    match p
    case Anonymous => Some(ServerError)
    case Member(_, isAdmin) =>
      if !isAdmin then Some(Redirect(AuthLoginView, map[]))
      else LoginRequired(p, LoginView)
  }

  /** The guard as intended: `login_required` first, then `admin_required`.
      Nobody but an administrator gets through: the anonymous visitor is
      sent to the login manager's login view, and a logged-in user who is
      not an administrator to "auth.login". */
  function AdminGuard(p: Principal): (deny: Option<Response>)
    ensures deny.None? <==> p.Member? && p.isAdmin
    ensures p.Anonymous? ==> deny == Some(Redirect(LoginView, map[]))
    ensures p.Member? && !p.isAdmin ==> deny == Some(Redirect(AuthLoginView, map[]))
  {
    match LoginRequired(p, LoginView)
    case Some(r) => Some(r)
    case None => if !p.isAdmin then Some(Redirect(AuthLoginView, map[])) else None
  }

  /** The two orders agree on every logged-in user ... */
  lemma GuardsAgreeOnMembers(p: Principal)
    requires p.Member?
    ensures AdminGuardAsWritten(p) == AdminGuard(p)
  {
  }

  /** ... and differ on the anonymous visitor. */
  lemma AnonymousAdminRequestFails()
    ensures AdminGuardAsWritten(Anonymous) == Some(ServerError)
    ensures AdminGuard(Anonymous) == Some(Redirect(LoginView, map[]))
  {
  }

  // ------------------------------------------------------ parameter filter

  /** Attribute names that are never edit parameters (besides those starting with '_'). */
  const Reserved: seq<string> := ["submit", "csrf_token", "meta"]

  predicate IsParameter(name: string)
  {
    name != "" && name[0] != '_' && name !in Reserved
  }

  /** Every attribute name has a first character (`parameter[0]` is read). */
  predicate NonEmptyNames(keys: seq<string>)
  {
    forall i | 0 <= i < |keys| :: keys[i] != ""
  }

  /** `get_update_parameters`: the form's attribute names, in order, without
      the private ones and the reserved ones. */
  function UpdateParameters(keys: seq<string>): (ps: seq<string>)
    requires NonEmptyNames(keys)
    ensures forall q :: q in ps <==> q in keys && IsParameter(q)
    ensures IsSubsequence(ps, keys)
  {
    if keys == [] then []
    else if IsParameter(keys[0]) then [keys[0]] + UpdateParameters(keys[1..])
    else UpdateParameters(keys[1..])
  }

  /** A list made only of parameters passes the filter whole. */
  lemma {:induction false} ParametersPassUnchanged(ps: seq<string>)
    requires forall i | 0 <= i < |ps| :: IsParameter(ps[i])
    ensures NonEmptyNames(ps) && UpdateParameters(ps) == ps
  {
    if ps != [] {
      ParametersPassUnchanged(ps[1..]);
    }
  }

  /** Filtering the filter's own output changes nothing. */
  lemma UpdateParametersIdempotent(keys: seq<string>)
    requires NonEmptyNames(keys)
    ensures NonEmptyNames(UpdateParameters(keys))
    ensures UpdateParameters(UpdateParameters(keys)) == UpdateParameters(keys)
  {
    var ps := UpdateParameters(keys);
    assert forall i | 0 <= i < |ps| :: ps[i] in ps;
    ParametersPassUnchanged(ps);
  }

  /** The instance attributes of the two edit forms in the order wtforms
      creates them: its bookkeeping attributes, then the bound fields in
      declaration order, the submit button and the CSRF field last. */
  const FormBookkeeping: seq<string> := ["meta", "_prefix", "_errors", "_fields", "_csrf"]
  const FormTrailer: seq<string> := ["submit", "csrf_token"]
  const AlbumEditFields: seq<string> := ["title", "artist", "description", "genre"]
  const TourEditFields: seq<string> := ["title", "artist", "description", "genre", "start_date", "end_date"]
  const UpdateAlbumFormKeys: seq<string> := FormBookkeeping + AlbumEditFields + FormTrailer
  const UpdateTourFormKeys: seq<string> := FormBookkeeping + TourEditFields + FormTrailer


  /** The filter distributes over concatenation. */
  lemma {:induction false} UpdateParametersAppend(a: seq<string>, b: seq<string>)
    requires NonEmptyNames(a) && NonEmptyNames(b)
    ensures NonEmptyNames(a + b)
    ensures UpdateParameters(a + b) == UpdateParameters(a) + UpdateParameters(b)
  {
    if a == [] {
      assert a + b == b;
    } else {
      assert (a + b)[0] == a[0];
      assert (a + b)[1..] == a[1..] + b;
      UpdateParametersAppend(a[1..], b);
      if IsParameter(a[0]) {
        assert UpdateParameters(a + b) == [a[0]] + (UpdateParameters(a[1..]) + UpdateParameters(b));
      }
    }
  }

  /** Attributes framed by non-parameters filter down to the framed part. */
  lemma {:induction false} FilterFramed(pre: seq<string>, fields: seq<string>, post: seq<string>)
    requires NonEmptyNames(pre) && NonEmptyNames(fields) && NonEmptyNames(post)
    requires UpdateParameters(pre) == [] && UpdateParameters(post) == []
    requires UpdateParameters(fields) == fields
    ensures NonEmptyNames(pre + fields + post)
    ensures UpdateParameters(pre + fields + post) == fields
  {
    UpdateParametersAppend(pre, fields);
    UpdateParametersAppend(pre + fields, post);
  }

  /** The attributes wtforms adds around the fields are not parameters. */
  lemma FormExtrasAreNotParameters()
    ensures NonEmptyNames(FormBookkeeping) && UpdateParameters(FormBookkeeping) == []
    ensures NonEmptyNames(FormTrailer) && UpdateParameters(FormTrailer) == []
  {
    BookkeepingIsNotParameters();
    assert !IsParameter("submit") && !IsParameter("csrf_token");
  }

  lemma BookkeepingIsNotParameters()
    ensures NonEmptyNames(FormBookkeeping) && UpdateParameters(FormBookkeeping) == []
  {
    assert !IsParameter("meta") && !IsParameter("_prefix") && !IsParameter("_errors");
    assert !IsParameter("_fields") && !IsParameter("_csrf");
  }

  /** The declared album fields are all parameters. */
  lemma AlbumFieldsAreParameters()
    ensures NonEmptyNames(AlbumEditFields) && UpdateParameters(AlbumEditFields) == AlbumEditFields
  {
    assert forall i | 0 <= i < |AlbumEditFields| :: IsParameter(AlbumEditFields[i]) by {
      assert IsParameter("title") && IsParameter("artist") && IsParameter("description") && IsParameter("genre");
    }
    ParametersPassUnchanged(AlbumEditFields);
  }

  /** The declared tour fields are all parameters. */
  lemma TourFieldsAreParameters()
    ensures NonEmptyNames(TourEditFields) && UpdateParameters(TourEditFields) == TourEditFields
  {
    assert forall i | 0 <= i < |TourEditFields| :: IsParameter(TourEditFields[i]) by {
      assert IsParameter("title") && IsParameter("artist") && IsParameter("description") && IsParameter("genre");
      assert IsParameter("start_date") && IsParameter("end_date");
    }
    ParametersPassUnchanged(TourEditFields);
  }

  /** The parameters of the album edit form are its declared fields. */
  lemma AlbumFormParameters()
    ensures NonEmptyNames(UpdateAlbumFormKeys) && UpdateParameters(UpdateAlbumFormKeys) == AlbumEditFields
  {
    FormExtrasAreNotParameters();
    AlbumFieldsAreParameters();
    FilterFramed(FormBookkeeping, AlbumEditFields, FormTrailer);
  }

  /** The parameters of the tour edit form are its declared fields. */
  lemma TourFormParameters()
    ensures NonEmptyNames(UpdateTourFormKeys) && UpdateParameters(UpdateTourFormKeys) == TourEditFields
  {
    FormExtrasAreNotParameters();
    TourFieldsAreParameters();
    FilterFramed(FormBookkeeping, TourEditFields, FormTrailer);
  }

  /** An edit form suits a model when its parameters are columns other than
      the primary key, and a model with the title listener has a slug column. */
  predicate Fits(keys: seq<string>, m: Model)
  {
    && NonEmptyNames(keys)
    && (forall q | q in UpdateParameters(keys) :: q in m.columns && q != "id")
    && (m.slugOnTitle ==> "slug" in m.columns)
  }

  /** The album edit form suits the album model, so the admin view
      registered for it can be built. */
  lemma AlbumFormFits()
    ensures Fits(UpdateAlbumFormKeys, AlbumModel)
  {
    AlbumFormParameters();
    assert "id" !in AlbumEditFields;
    assert forall q | q in AlbumEditFields :: q in AlbumModel.columns by {
      assert AlbumModel.columns[1..5] == AlbumEditFields;
    }
  }

  /** The tour edit form suits the tour model. */
  lemma TourFormFits()
    ensures Fits(UpdateTourFormKeys, TourModel)
  {
    TourFormParameters();
    assert "id" !in TourEditFields;
    assert forall q | q in TourEditFields :: q in TourModel.columns by {
      assert TourModel.columns[1..7] == TourEditFields;
    }
  }

  // ------------------------------------------------------------ the binder

  /** The instance after `setattr(instance, q, data[q])` for each parameter q
      in order (the loop of `post`). */
  function Assign(m: Model, row: Row, ps: seq<string>, data: map<string, Value>,
                  slugify: Value -> string, token: string): Row
    requires forall q | q in ps :: q in data
    decreases |ps|
  {
    if ps == [] then row
    else
      var last := ps[|ps| - 1];
      SetAttr(m, Assign(m, row, ps[..|ps| - 1], data, slugify, token), last, data[last], slugify, token)
  }

  /** Assigning columns the instance already has adds no column. */
  lemma {:induction false} AssignKeepsColumns(m: Model, row: Row, ps: seq<string>, data: map<string, Value>,
                                              slugify: Value -> string, token: string)
    requires forall q | q in ps :: q in data && q in row
    requires m.slugOnTitle && "title" in ps ==> "slug" in row
    ensures Assign(m, row, ps, data, slugify, token).Keys == row.Keys
    decreases |ps|
  {
    if ps != [] {
      AssignKeepsColumns(m, row, ps[..|ps| - 1], data, slugify, token);
    }
  }

  /** Every parameter ends up holding the submitted value (a slug parameter
      only when no title listener can overwrite it). */
  lemma {:induction false} AssignSetsParameters(m: Model, row: Row, ps: seq<string>, data: map<string, Value>,
                                                slugify: Value -> string, token: string, q: string)
    requires forall x | x in ps :: x in data
    requires q in ps && !(m.slugOnTitle && q == "slug")
    ensures q in Assign(m, row, ps, data, slugify, token)
    ensures Assign(m, row, ps, data, slugify, token)[q] == data[q]
    decreases |ps|
  {
    var init := ps[..|ps| - 1];
    if ps[|ps| - 1] != q {
      assert q in init;
      AssignSetsParameters(m, row, init, data, slugify, token, q);
    }
  }

  /** A column that is not a parameter keeps its value, unless it is the
      slug and a title was assigned. */
  lemma {:induction false} AssignLeavesOthers(m: Model, row: Row, ps: seq<string>, data: map<string, Value>,
                                              slugify: Value -> string, token: string, c: string)
    requires forall x | x in ps :: x in data
    requires c in row && c !in ps
    requires !(m.slugOnTitle && "title" in ps && c == "slug")
    ensures c in Assign(m, row, ps, data, slugify, token)
    ensures Assign(m, row, ps, data, slugify, token)[c] == row[c]
    decreases |ps|
  {
    if ps != [] {
      var init := ps[..|ps| - 1];
      assert forall x | x in init :: x in ps;
      AssignLeavesOthers(m, row, init, data, slugify, token, c);
    }
  }

  /** On a model with the title listener, assigning a title regenerates the
      slug from the submitted title. */
  lemma {:induction false} AssignRegeneratesSlug(m: Model, row: Row, ps: seq<string>, data: map<string, Value>,
                                                 slugify: Value -> string, token: string)
    requires forall x | x in ps :: x in data
    requires m.slugOnTitle && "title" in ps && "slug" !in ps
    ensures "slug" in Assign(m, row, ps, data, slugify, token)
    ensures Assign(m, row, ps, data, slugify, token)["slug"] == SlugFor(data["title"], slugify, token)
    decreases |ps|
  {
    var init := ps[..|ps| - 1];
    if ps[|ps| - 1] != "title" {
      assert "title" in init;
      assert forall x | x in init :: x in ps;
      AssignRegeneratesSlug(m, row, init, data, slugify, token);
    }
  }

  /** Submitting the values the instance already holds changes nothing but
      the slug: on a model with the title listener, assigning the unchanged
      title still rebuilds the slug. The GET prefill and its POST are
      inverse steps only where no listener fires. */
  lemma {:induction false} AssignCurrentValues(m: Model, row: Row, ps: seq<string>, data: map<string, Value>,
                                               slugify: Value -> string, token: string)
    requires forall x | x in ps :: x in data && x in row && data[x] == row[x]
    requires !(m.slugOnTitle && "slug" in ps)
    ensures Assign(m, row, ps, data, slugify, token) ==
      if m.slugOnTitle && "title" in ps then row["slug" := SlugFor(row["title"], slugify, token)] else row
    decreases |ps|
  {
    if ps != [] {
      var init := ps[..|ps| - 1];
      var last := ps[|ps| - 1];
      assert forall x | x in init :: x in ps;
      AssignCurrentValues(m, row, init, data, slugify, token);
      var slugged := m.slugOnTitle && "title" in init;
      assert last in ps;
      SetAttrCurrentValue(m, row, last, slugged, slugify, token);
      assert "title" in ps <==> "title" in init || last == "title" by {
        assert ps == init + [last];
      }
    }
  }

  /** One step of `AssignCurrentValues`: assigning a column its current
      value, to the row or to the row with its slug already rebuilt. */
  lemma SetAttrCurrentValue(m: Model, row: Row, name: string, slugged: bool,
                            slugify: Value -> string, token: string)
    requires name in row && !(m.slugOnTitle && name == "slug")
    requires slugged ==> m.slugOnTitle && "title" in row
    ensures !slugged && !(m.slugOnTitle && name == "title") ==> SetAttr(m, row, name, row[name], slugify, token) == row
    ensures slugged || (m.slugOnTitle && name == "title") ==>
      && "title" in row
      && var slug := SlugFor(row["title"], slugify, token);
         var before := if slugged then row["slug" := slug] else row;
         SetAttr(m, before, name, row[name], slugify, token) == row["slug" := slug]
  {
    if m.slugOnTitle && name == "title" {
      assert row["title" := row["title"]] == row;
    } else if slugged {
      assert row["slug" := SlugFor(row["title"], slugify, token)][name := row[name]]
          == row["slug" := SlugFor(row["title"], slugify, token)];
    } else {
      assert row[name := row[name]] == row;
    }
  }

  /** The form after `getattr(form, q).data = getattr(instance, q)` for each
      parameter q in order (the loop of `get`). */
  function Prefill(form: map<string, Value>, row: Row, ps: seq<string>): map<string, Value>
    requires forall q | q in ps :: q in row
    decreases |ps|
  {
    if ps == [] then form
    else
      var last := ps[|ps| - 1];
      Prefill(form, row, ps[..|ps| - 1])[last := row[last]]
  }

  /** Prefilling copies every parameter from the instance and leaves the
      form's other fields as they were. */
  lemma {:induction false} PrefillCopies(form: map<string, Value>, row: Row, ps: seq<string>)
    requires forall q | q in ps :: q in row
    ensures Prefill(form, row, ps).Keys == form.Keys + (set q | q in ps)
    ensures forall q | q in ps :: Prefill(form, row, ps)[q] == row[q]
    ensures forall k | k in form && k !in ps :: Prefill(form, row, ps)[k] == form[k]
    decreases |ps|
  {
    if ps != [] {
      var init := ps[..|ps| - 1];
      assert forall q | q in init :: q in ps;
      PrefillCopies(form, row, init);
      assert ps == init + [ps[|ps| - 1]];
    }
  }

  // ------------------------------------------------------------ the views

  // The views are guarded as the code is written, by `AdminGuardAsWritten`.

  /** `TableView`: every instance of the model with its column names. */
  class TableView {
    const model: Table
    const editAllowed: bool
    const columns: seq<string>

    constructor (model: Table, editAllowed: bool)
      ensures this.model == model && this.editAllowed == editAllowed
      ensures columns == model.model.columns
    {
      this.model := model;
      this.editAllowed := editAllowed;
      columns := model.model.columns;
    }

    /** `dispatch_request`, behind the guard; it reads the store and changes nothing. */
    method DispatchRequest(p: Principal) returns (resp: Response)
      ensures AdminGuardAsWritten(p).Some? ==> resp == AdminGuardAsWritten(p).value
      ensures AdminGuardAsWritten(p).None? ==>
        resp.Listing? && resp.instances == model.rows && resp.columns == columns
        && resp.resourceName == Lower(model.model.name) && resp.editAllowed == editAllowed
    {
      var deny := AdminGuardAsWritten(p);
      if deny.Some? {
        return deny.value;
      }
      resp := Listing(columns, model.rows, Lower(model.model.name), editAllowed);
    }
  }

  /** `ModifyResourceView`: GET shows an instance in the edit form, POST
      stores the submitted form, DELETE removes the instance. */
  class ModifyResourceView {
    const model: Table
    /** The edit form's attribute names, or None when the model has no edit form. */
    const editForm: Option<seq<string>>
    const columns: seq<string>
    const resourceName: string

    ghost predicate Valid()
      reads this, model
    {
      && model.Valid()
      && columns == model.model.columns
      && resourceName == Lower(model.model.name)
      && (editForm.Some? ==> Fits(editForm.value, model.model))
    }

    constructor (model: Table, editForm: Option<seq<string>>)
      requires model.Valid()
      requires editForm.Some? ==> Fits(editForm.value, model.model)
      ensures Valid() && this.model == model && this.editForm == editForm
    {
      this.model := model;
      this.editForm := editForm;
      columns := model.model.columns;
      resourceName := Lower(model.model.name);
    }

    function Parameters(): seq<string>
      reads this
      requires editForm.Some? && NonEmptyNames(editForm.value)
    {
      UpdateParameters(editForm.value)
    }

    /** `get`: copy each parameter of the instance into the form and render
        it. The store is only read. */
    method Get(p: Principal, resourceId: int, formData: map<string, Value>) returns (resp: Response)
      requires Valid() && editForm.Some?
      ensures AdminGuardAsWritten(p).Some? ==> resp == AdminGuardAsWritten(p).value
      ensures AdminGuardAsWritten(p).None? && resourceId in model.rows ==>
        && resp.Render? && resp.template == "resource_edit.html" && resp.errors == {}
        && resp.data.Keys == formData.Keys + (set q | q in Parameters())
        && (forall q | q in Parameters() :: resp.data[q] == model.rows[resourceId][q])
        && (forall k | k in formData && k !in Parameters() :: resp.data[k] == formData[k])
      ensures AdminGuardAsWritten(p).None? && resourceId !in model.rows ==>
        resp == if Parameters() == [] then Render("resource_edit.html", formData, {}) else ServerError
    {
      var deny := AdminGuardAsWritten(p);
      if deny.Some? {
        return deny.value;
      }
      var parameters := UpdateParameters(editForm.value);
      var instance := model.Get(resourceId);
      if instance.None? {
        // getattr(None, parameter) raises on the first parameter
        resp := if parameters == [] then Render("resource_edit.html", formData, {}) else ServerError;
        return;
      }
      var row := instance.value;
      var form := formData;
      var i := 0;
      while i < |parameters|
        invariant 0 <= i <= |parameters|
        invariant form == Prefill(formData, row, parameters[..i])
      {
        assert parameters[..i + 1][..i] == parameters[..i];
        form := form[parameters[i] := row[parameters[i]]];
        i := i + 1;
      }
      assert parameters[..i] == parameters;
      PrefillCopies(formData, row, parameters);
      resp := Render("resource_edit.html", form, {});
    }

    /** `post`: with a valid form, assign every parameter of the instance
        and commit, then go back to the table; with an invalid one, go back
        to the edit page and change nothing. `validation` is the outcome of
        the edit form's `validate_on_submit()`; it is `Crashed` when a
        validator raises, as the tour form's does (`TourValidationAsWritten`). */
    method Post(p: Principal, resourceId: int, formData: map<string, Value>, validation: Validation,
                ioOk: bool, slugify: Value -> string, token: string) returns (resp: Response)
      requires Valid() && editForm.Some?
      requires forall q | q in Parameters() :: q in formData
      modifies model
      ensures Valid() && model.nextId == old(model.nextId)
      ensures AdminGuardAsWritten(p).Some? ==> resp == AdminGuardAsWritten(p).value && model.rows == old(model.rows)
      ensures AdminGuardAsWritten(p).None? && resourceId !in old(model.rows) ==>
        resp == ServerError && model.rows == old(model.rows)
      ensures AdminGuardAsWritten(p).None? && resourceId in old(model.rows) && validation.Crashed? ==>
        resp == ServerError && model.rows == old(model.rows)
      ensures AdminGuardAsWritten(p).None? && resourceId in old(model.rows) && validation.Failed? ==>
        && resp == Redirect("admin." + resourceName, map["resource_id" := Int(resourceId)])
        && model.rows == old(model.rows)
      ensures AdminGuardAsWritten(p).None? && resourceId in old(model.rows) && validation.Passed? ==>
        var updated := Assign(model.model, old(model.rows)[resourceId], Parameters(), formData, slugify, token);
        var committed := ioOk && Unique(model.model, old(model.rows)[resourceId := updated]);
        && model.rows == (if committed then old(model.rows)[resourceId := updated] else old(model.rows))
        && resp == (if committed then Redirect("admin." + resourceName + "_table", map[]) else ServerError)
    {
      var deny := AdminGuardAsWritten(p);
      if deny.Some? {
        return deny.value;
      }
      var parameters := UpdateParameters(editForm.value);
      var instance := model.Get(resourceId);
      if instance.None? {
        // setattr(None, ...) or session.add(None) when valid, None.id otherwise
        return ServerError;
      }
      if validation.Crashed? {
        return ServerError;
      }
      if validation.Failed? {
        return Redirect("admin." + resourceName, map["resource_id" := Int(resourceId)]);
      }
      var row := instance.value;
      var i := 0;
      while i < |parameters|
        invariant 0 <= i <= |parameters|
        invariant row == Assign(model.model, instance.value, parameters[..i], formData, slugify, token)
      {
        assert parameters[..i + 1][..i] == parameters[..i];
        row := SetAttr(model.model, row, parameters[i], formData[parameters[i]], slugify, token);
        i := i + 1;
      }
      assert parameters[..i] == parameters;
      AssignKeepsColumns(model.model, instance.value, parameters, formData, slugify, token);
      assert "id" !in parameters;
      AssignLeavesOthers(model.model, instance.value, parameters, formData, slugify, token, "id");
      var ok := model.CommitUpdate(resourceId, row, ioOk);
      resp := if ok then Redirect("admin." + resourceName + "_table", map[]) else ServerError;
    }

    /** `delete`: remove the instance and answer with an empty body. A
        missing instance makes `session.delete(None)` raise. */
    method Delete(p: Principal, resourceId: int, ioOk: bool) returns (resp: Response)
      requires Valid()
      modifies model
      ensures Valid() && model.nextId == old(model.nextId)
      ensures AdminGuardAsWritten(p).Some? ==> resp == AdminGuardAsWritten(p).value && model.rows == old(model.rows)
      ensures AdminGuardAsWritten(p).None? && resourceId !in old(model.rows) ==>
        resp == ServerError && model.rows == old(model.rows)
      ensures AdminGuardAsWritten(p).None? && resourceId in old(model.rows) ==>
        && model.rows == (if ioOk then old(model.rows) - {resourceId} else old(model.rows))
        && resp == (if ioOk then Body("") else ServerError)
    {
      var deny := AdminGuardAsWritten(p);
      if deny.Some? {
        return deny.value;
      }
      var instance := model.Get(resourceId);
      if instance.None? {
        return ServerError;
      }
      var ok := model.CommitDelete(resourceId, ioOk);
      resp := if ok then Body("") else ServerError;
    }
  }

  // ------------------------------------------------------------ registrar

  datatype View = TableViewOf(model: Model, editAllowed: bool) | ModifyViewOf(model: Model, editForm: Option<seq<string>>)

  /** One `add_url_rule`: the rule, the endpoint name, the HTTP methods, the view. */
  datatype UrlRule = UrlRule(rule: string, endpoint: string, methods: set<string>, view: View)

  /** The two rules `register_admin_resource` adds for a model. */
  function AdminRules(m: Model, editForm: Option<seq<string>>): (rules: seq<UrlRule>)
    ensures |rules| == 2
    ensures rules[0].rule == "/" + Lower(m.name) + "/" && rules[0].endpoint == Lower(m.name) + "_table"
    ensures rules[0].methods == {"GET"} && rules[0].view == TableViewOf(m, editForm.Some?)
    ensures rules[1].rule == "/" + Lower(m.name) + "/<int:resource_id>" && rules[1].endpoint == Lower(m.name)
    ensures rules[1].view == ModifyViewOf(m, editForm)
    ensures "DELETE" in rules[1].methods && rules[1].methods <= {"GET", "POST", "DELETE"}
    ensures "GET" in rules[1].methods <==> editForm.Some?
    ensures "POST" in rules[1].methods <==> editForm.Some?
  {
    var name := Lower(m.name);
    var methods := if editForm.None? then {"DELETE"} else {"GET", "POST", "DELETE"};
    [ UrlRule("/" + name + "/", name + "_table", {"GET"}, TableViewOf(m, editForm.Some?)),
      UrlRule("/" + name + "/<int:resource_id>", name, methods, ModifyViewOf(m, editForm)) ]
  }

  datatype Dispatch = Matched(endpoint: string, view: View) | MethodNotAllowed | NoRoute

  /** The rule has that path and accepts that method. */
  predicate Serves(r: UrlRule, rule: string, verb: string)
  {
    r.rule == rule && verb in r.methods
  }

  /** How the URL map answers a request for a rule and a method: the first
      rule with that path and method, 405 when the path exists only under
      other methods, 404 when no rule has the path. */
  function Route(rules: seq<UrlRule>, rule: string, verb: string): (d: Dispatch)
    ensures d.Matched? ==> exists i | 0 <= i < |rules| ::
      && Serves(rules[i], rule, verb) && d == Matched(rules[i].endpoint, rules[i].view)
      && forall j | 0 <= j < i :: !Serves(rules[j], rule, verb)
    ensures d.Matched? <==> exists i | 0 <= i < |rules| :: Serves(rules[i], rule, verb)
    ensures d.NoRoute? <==> forall i | 0 <= i < |rules| :: rules[i].rule != rule
    decreases |rules|
  {
    if rules == [] then NoRoute
    else if rules[0].rule == rule && verb in rules[0].methods then Matched(rules[0].endpoint, rules[0].view)
    else
      match Route(rules[1..], rule, verb)
      case NoRoute => if rules[0].rule == rule then MethodNotAllowed else NoRoute
      case other => other
  }

  /** After registration the per-instance rule answers GET and POST exactly
      when an edit form was given, and always answers DELETE. */
  lemma RegisteredInstanceRoute(m: Model, editForm: Option<seq<string>>, verb: string)
    requires verb in {"GET", "POST", "DELETE"}
    ensures var rules := AdminRules(m, editForm);
      Route(rules, "/" + Lower(m.name) + "/<int:resource_id>", verb) ==
        if verb == "DELETE" || editForm.Some? then Matched(Lower(m.name), ModifyViewOf(m, editForm))
        else MethodNotAllowed
  {
    var rules := AdminRules(m, editForm);
    var path := "/" + Lower(m.name) + "/<int:resource_id>";
    assert rules[0].rule != path by {
      assert |rules[0].rule| < |path|;
    }
    assert rules[1..] == [rules[1]];
  }

  /** The admin blueprint's route table. */
  class Blueprint {
    const name: string
    var rules: seq<UrlRule>

    constructor (name: string)
      ensures this.name == name && rules == []
    {
      this.name := name;
      rules := [];
    }

    method AddUrlRule(rule: string, endpoint: string, methods: set<string>, view: View)
      modifies this
      ensures rules == old(rules) + [UrlRule(rule, endpoint, methods, view)]
    {
      rules := rules + [UrlRule(rule, endpoint, methods, view)];
    }

    /** `register_admin_resource(model, edit_form)`. */
    method RegisterAdminResource(m: Model, editForm: Option<seq<string>>)
      modifies this
      ensures rules == old(rules) + AdminRules(m, editForm)
    {
      var resourceName := Lower(m.name);
      var editAllowed := true;
      var viewMethods := {"GET", "POST", "DELETE"};
      if editForm.None? {
        editAllowed := false;
        viewMethods := {"DELETE"};
      }
      AddUrlRule("/" + resourceName + "/", resourceName + "_table", {"GET"}, TableViewOf(m, editAllowed));
      AddUrlRule("/" + resourceName + "/<int:resource_id>", resourceName, viewMethods, ModifyViewOf(m, editForm));
    }

    /** The three registrations made when the module is imported. */
    method RegisterAll()
      modifies this
      ensures rules == old(rules) + AdminRules(AlbumModel, Some(UpdateAlbumFormKeys))
                                  + AdminRules(TourModel, Some(UpdateTourFormKeys))
                                  + AdminRules(UserModel, None)
    {
      RegisterAdminResource(AlbumModel, Some(UpdateAlbumFormKeys));
      RegisterAdminResource(TourModel, Some(UpdateTourFormKeys));
      RegisterAdminResource(UserModel, None);
    }
  }
}
