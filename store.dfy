/** The persistence layer under the handlers: the mapped classes of app.py
    (lines 53-134) as column lists, one row per instance, and a `Table`
    object standing for `Model.query` together with `db.session` for one
    model. A commit either applies every staged change or none of them. */
module Store {

  datatype Option<T> = None | Some(value: T)

  /** A column value. Dates are day numbers, so `<=` is the date order. */
  datatype Value = Str(s: string) | Int(i: int) | Date(day: int) | Bool(b: bool) | Null

  /** One instance of a mapped class: column name to value. */
  type Row = map<string, Value>

  /** A mapped class: its name, its columns in mapper order, the columns with
      a UNIQUE constraint, and whether the title "set" listener is attached. */
  datatype Model = Model(name: string, columns: seq<string>, unique: set<string>, slugOnTitle: bool)

  const AlbumModel: Model := Model(
    "Album",
    ["id", "title", "artist", "description", "genre", "image", "release_date", "user_id", "slug"],
    {"slug"}, true)

  const TourModel: Model := Model(
    "Tour",
    ["id", "title", "artist", "description", "genre", "start_date", "end_date", "user_id", "slug"],
    {"slug"}, true)

  /** `is_admin` is taken to be a column of the users table: the administrator flag. */
  const UserModel: Model := Model(
    "User",
    ["id", "username", "email", "password_hash", "is_admin"],
    {"username", "email"}, false)

  function ColumnSet(m: Model): set<string>
  {
    set c | c in m.columns
  }

  /** A row as the mapper stores it: exactly the model's columns, keyed by its own id. */
  predicate Shaped(m: Model, id: int, r: Row)
  {
    r.Keys == ColumnSet(m) && "id" in r && r["id"] == Int(id)
  }

  /** No two rows agree on a UNIQUE column. */
  predicate Unique(m: Model, rows: map<int, Row>)
  {
    forall a, b, c | a in rows && b in rows && a != b && c in m.unique && c in rows[a] && c in rows[b] ::
      rows[a][c] != rows[b][c]
  }

  /** Some row holds value v in the column. */
  predicate Taken(rows: map<int, Row>, column: string, v: Value)
  {
    exists k | k in rows :: column in rows[k] && rows[k][column] == v
  }

  /** The row `filter_by(column=v).first()` finds, when the column is unique. */
  ghost function Lookup(rows: map<int, Row>, column: string, v: Value): (r: Option<int>)
    ensures r.Some? <==> Taken(rows, column, v)
    ensures r.Some? ==> r.value in rows && column in rows[r.value] && rows[r.value][column] == v
  {
    if Taken(rows, column, v) then
      var k :| k in rows && column in rows[k] && rows[k][column] == v; Some(k)
    else None
  }

  /** Adding a row whose unique columns hold values no other row holds keeps the constraint. */
  lemma InsertUntakenKeepsUnique(m: Model, rows: map<int, Row>, id: int, row: Row)
    requires Unique(m, rows) && id !in rows
    requires forall c | c in m.unique && c in row :: !Taken(rows, c, row[c])
    ensures Unique(m, rows[id := row])
  {
    var rows' := rows[id := row];
    forall a, b, c | a in rows' && b in rows' && a != b && c in m.unique && c in rows'[a] && c in rows'[b]
      ensures rows'[a][c] != rows'[b][c]
    {
      if a == id {
        assert !Taken(rows, c, row[c]);
      } else if b == id {
        assert !Taken(rows, c, row[c]);
      }
    }
  }

  /** The slug the listener builds: slugify(title), a dash, and a random token. */
  function SlugFor(title: Value, slugify: Value -> string, token: string): Value
  {
    Str(slugify(title) + "-" + token)
  }

  /** `setattr(instance, name, v)`. On a model with the title listener
      (app.py:98-103), assigning "title" also assigns a fresh slug. */
  function SetAttr(m: Model, row: Row, name: string, v: Value, slugify: Value -> string, token: string): (r: Row)
    ensures r.Keys == row.Keys + {name} + (if m.slugOnTitle && name == "title" then {"slug"} else {})
    ensures name in r && r[name] == v
    ensures m.slugOnTitle && name == "title" ==> r["slug"] == SlugFor(v, slugify, token)
    ensures m.slugOnTitle && name == "title" ==> r - {name, "slug"} == row - {name, "slug"}
    ensures !(m.slugOnTitle && name == "title") ==> r - {name} == row - {name}
  {
    var updated := row[name := v];
    if m.slugOnTitle && name == "title" then updated["slug" := SlugFor(v, slugify, token)] else updated
  }

  /** The rows of one mapped class, as the database holds them. */
  class Table {
    const model: Model
    var rows: map<int, Row>
    /** The id the next inserted row receives. */
    var nextId: int

    ghost predicate Valid()
      reads this
    {
      && 0 < nextId
      && (forall id | id in rows :: Shaped(model, id, rows[id]) && 0 < id < nextId)
      && Unique(model, rows)
    }

    constructor (model: Model)
      ensures Valid() && this.model == model && rows == map[] && nextId == 1
    {
      this.model := model;
      rows := map[];
      nextId := 1;
    }

    /** `Model.query.filter_by(id=id).first()`. */
    function Get(id: int): (r: Option<Row>)
      reads this
      ensures r.Some? <==> id in rows
      ensures r.Some? ==> r.value == rows[id]
    {
      if id in rows then Some(rows[id]) else None
    }

    /** `Model.query.filter_by(column=v).first()` on a UNIQUE column. */
    method FindBy(column: string, v: Value) returns (id: Option<int>)
      requires Valid() && column in model.unique
      ensures id == Lookup(rows, column, v)
    {
      if exists k | k in rows :: column in rows[k] && rows[k][column] == v {
        var k :| k in rows && column in rows[k] && rows[k][column] == v;
        id := Some(k);
      } else {
        id := None;
      }
    }

    /** `db.session.add(instance); db.session.commit()` for an existing row.
        The commit fails when the database is unavailable (ioOk false) or
        when the new row repeats a unique value. */
    method CommitUpdate(id: int, row: Row, ioOk: bool) returns (ok: bool)
      requires Valid() && id in rows && Shaped(model, id, row)
      modifies this
      ensures Valid() && nextId == old(nextId)
      ensures ok == (ioOk && Unique(model, old(rows)[id := row]))
      ensures rows == if ok then old(rows)[id := row] else old(rows)
    {
      ok := ioOk && Unique(model, rows[id := row]);
      if ok {
        rows := rows[id := row];
      }
    }

    /** `db.session.add(instance); db.session.commit()` for a new row, which
        receives the id `nextId`. */
    method CommitInsert(row: Row, ioOk: bool) returns (ok: bool)
      requires Valid() && Shaped(model, nextId, row)
      modifies this
      ensures Valid()
      ensures ok == (ioOk && Unique(model, old(rows)[old(nextId) := row]))
      ensures rows == if ok then old(rows)[old(nextId) := row] else old(rows)
      ensures nextId == if ok then old(nextId) + 1 else old(nextId)
      ensures ok ==> |rows| == |old(rows)| + 1
    {
      ok := ioOk && Unique(model, rows[nextId := row]);
      if ok {
        assert nextId !in rows;
        rows := rows[nextId := row];
        nextId := nextId + 1;
      }
    }

    /** `db.session.delete(instance); db.session.commit()`. */
    method CommitDelete(id: int, ioOk: bool) returns (ok: bool)
      requires Valid() && id in rows
      modifies this
      ensures Valid() && nextId == old(nextId) && ok == ioOk
      ensures rows == if ok then old(rows) - {id} else old(rows)
    {
      ok := ioOk;
      if ok {
        rows := rows - {id};
      }
    }
  }
}
