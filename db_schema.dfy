/**
 * The two SQLite tables of the application, `registry` and `seeds`: their
 * rows, the defaults filled in on insert, and the UNIQUE / PRIMARY KEY
 * constraints an insert must respect.
 */
module DbSchema {
  import opened Wrappers

  /** A `registry` row. `name` is NOT NULL but, unlike `url`, not unique. */
  datatype RegistryRow = RegistryRow(id: string, name: string, url: string, isDefault: bool, loggedIn: bool)

  /** A `seeds` row. */
  datatype SeedRow = SeedRow(id: string, name: string, applied: bool)

  /** The values an insert names; the NOT NULL columns are plain strings, the others may be left out. */
  datatype RegistryInsert = RegistryInsert(id: Option<string>, name: string, url: string,
                                           isDefault: Option<bool>, loggedIn: Option<bool>)

  datatype SeedInsert = SeedInsert(id: Option<string>, name: string, applied: Option<bool>)

  /**
   * The row an insert produces: a missing `id` gets the freshly generated
   * UUID `newId`, a missing `default` or `logged_in` is false.
   */
  function FillRegistry(ins: RegistryInsert, newId: string): (row: RegistryRow)
    ensures row.name == ins.name && row.url == ins.url
  {
    RegistryRow(ins.id.GetOr(newId), ins.name, ins.url, ins.isDefault.GetOr(false), ins.loggedIn.GetOr(false))
  }

  /** The row a `seeds` insert produces: a missing `applied` is false. */
  function FillSeed(ins: SeedInsert, newId: string): (row: SeedRow)
    ensures row.name == ins.name
  {
    SeedRow(ins.id.GetOr(newId), ins.name, ins.applied.GetOr(false))
  }

  /** Defaults: an id left out is the generated one, and both flags of `registry` start false. */
  lemma {:induction false} RegistryDefaults(name: string, url: string, newId: string)
    ensures FillRegistry(RegistryInsert(None, name, url, None, None), newId)
         == RegistryRow(newId, name, url, false, false)
  {
  }

  /** Defaults: a seed left without `applied` is not applied. */
  lemma {:induction false} SeedDefaults(name: string, newId: string)
    ensures FillSeed(SeedInsert(None, name, None), newId) == SeedRow(newId, name, false)
  {
  }

  // ---------------------------------------------------------------------------
  // Constraints
  // ---------------------------------------------------------------------------

  /** SQLite's error for a violated UNIQUE or PRIMARY KEY column, e.g. `registry.url`. */
  datatype Violation = UniqueFailed(column: string)

  /** No two rows of `t` agree on the column `col`. */
  predicate Unique<R>(t: seq<R>, col: R -> string) {
    forall i, j :: 0 <= i < j < |t| ==> col(t[i]) != col(t[j])
  }

  /** Some row of `t` has the value `v` in the column `col`. */
  predicate Taken<R>(t: seq<R>, col: R -> string, v: string) {
    exists i :: 0 <= i < |t| && col(t[i]) == v
  }

  /**
   * A multi-row INSERT into a table whose primary key `pk` and unique column
   * `uk` are constrained: rows go in one by one, each checked against the rows
   * already there; the first clash aborts the whole statement.
   */
  function InsertRows<R>(table: seq<R>, rows: seq<R>, pk: R -> string, uk: R -> string,
                         pkName: string, ukName: string): (r: Result<seq<R>, Violation>)
    ensures r.Err? ==> r.error == UniqueFailed(pkName) || r.error == UniqueFailed(ukName)
    decreases |rows|
  {
    if rows == [] then Ok(table)
    else if Taken(table, pk, pk(rows[0])) then Err(UniqueFailed(pkName))
    else if Taken(table, uk, uk(rows[0])) then Err(UniqueFailed(ukName))
    else InsertRows(table + [rows[0]], rows[1..], pk, uk, pkName, ukName)
  }

  /**
   * Against a table that satisfies its constraints, an insert succeeds exactly
   * when the table with the new rows appended still satisfies them, and then
   * appends them.
   */
  lemma {:induction false} InsertRowsKeepsUnique<R>(table: seq<R>, rows: seq<R>, pk: R -> string, uk: R -> string,
                                                   pkName: string, ukName: string)
    requires Unique(table, pk) && Unique(table, uk)
    ensures InsertRows(table, rows, pk, uk, pkName, ukName).Ok?
        <==> Unique(table + rows, pk) && Unique(table + rows, uk)
    ensures InsertRows(table, rows, pk, uk, pkName, ukName).Ok?
        ==> InsertRows(table, rows, pk, uk, pkName, ukName).value == table + rows
    decreases |rows|
  {
    if rows == [] {
      assert table + rows == table;
    } else {
      var all := table + rows;
      var row := rows[0];
      assert all[|table|] == row;
      if Taken(table, pk, pk(row)) {
        var i :| 0 <= i < |table| && pk(table[i]) == pk(row);
        assert all[i] == table[i];
      } else if Taken(table, uk, uk(row)) {
        var i :| 0 <= i < |table| && uk(table[i]) == uk(row);
        assert all[i] == table[i];
      } else {
        var next := table + [row];
        assert table + rows == next + rows[1..];
        UniqueSnoc(table, row, pk);
        UniqueSnoc(table, row, uk);
        InsertRowsKeepsUnique(next, rows[1..], pk, uk, pkName, ukName);
      }
    }
  }

  lemma {:induction false} UniqueSnoc<R>(t: seq<R>, row: R, col: R -> string)
    requires Unique(t, col) && !Taken(t, col, col(row))
    ensures Unique(t + [row], col)
  {
    var u := t + [row];
    forall i, j | 0 <= i < j < |u| ensures col(u[i]) != col(u[j]) {
      assert u[i] == t[i];
      if j < |t| { assert u[j] == t[j]; }
    }
  }

  function RegistryId(r: RegistryRow): string { r.id }
  function RegistryUrl(r: RegistryRow): string { r.url }
  function SeedId(s: SeedRow): string { s.id }
  function SeedName(s: SeedRow): string { s.name }

  /** Both tables, each satisfying its constraints. */
  datatype Tables = Tables(registry: seq<RegistryRow>, seeds: seq<SeedRow>)

  predicate Valid(t: Tables) {
    Unique(t.registry, RegistryId) && Unique(t.registry, RegistryUrl)
    && Unique(t.seeds, SeedId) && Unique(t.seeds, SeedName)
  }

  /** INSERT INTO registry: `id` is the primary key, `url` is unique. */
  function InsertRegistry(table: seq<RegistryRow>, rows: seq<RegistryRow>): Result<seq<RegistryRow>, Violation> {
    InsertRows(table, rows, RegistryId, RegistryUrl, "registry.id", "registry.url")
  }

  /** INSERT INTO seeds: `id` is the primary key, `name` is unique. */
  function InsertSeeds(table: seq<SeedRow>, rows: seq<SeedRow>): Result<seq<SeedRow>, Violation> {
    InsertRows(table, rows, SeedId, SeedName, "seeds.id", "seeds.name")
  }

  /** `registry.name` is not unique: two registries may share a name when their ids and urls differ. */
  lemma {:induction false} RegistryNamesMayRepeat(id1: string, id2: string, url1: string, url2: string, name: string)
    requires id1 != id2 && url1 != url2
    ensures InsertRegistry([], [RegistryRow(id1, name, url1, false, false), RegistryRow(id2, name, url2, false, false)])
         == Ok([RegistryRow(id1, name, url1, false, false), RegistryRow(id2, name, url2, false, false)])
  {
    var rows := [RegistryRow(id1, name, url1, false, false), RegistryRow(id2, name, url2, false, false)];
    assert [] + rows == rows;
    InsertRowsKeepsUnique([], rows, RegistryId, RegistryUrl, "registry.id", "registry.url");
  }

  /** A second registry with a url already present is refused. */
  lemma {:induction false} RegistryUrlsMayNotRepeat(table: seq<RegistryRow>, row: RegistryRow)
    requires Taken(table, RegistryUrl, row.url) && !Taken(table, RegistryId, row.id)
    ensures InsertRegistry(table, [row]) == Err(UniqueFailed("registry.url"))
  {
  }
}
