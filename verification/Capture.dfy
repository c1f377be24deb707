/**
 Whose table it is.  The program looks up the statement's name when it inspects the table, and the server
 looks it up again when it executes the statement.  In between, a table of another schema can take over an
 unqualified name; the lock on the planned table does not prevent that.
 */
module Capture {
  import opened Wrappers
  import opened Model
  import opened Db
  import opened Sql
  import opened SqlMeaning
  import opened Engine
  import opened PlanCreation
  import opened Outcome
  import opened Apply
  import opened Protocol
  import opened ProtocolInvariant
  import opened Planning
  import opened ApplyTheorems
  import opened Completeness
  import opened Reachability

  // ---------------------------------------------------------------- names

  ghost function Longest(names: set<string>): nat
    decreases |names|
  {
    if names == {} then 0
    else
      var n :| n in names;
      var rest := Longest(names - {n});
      if |n| > rest then |n| else rest
  }

  lemma {:induction false} LongestBounds(names: set<string>, name: string)
    requires name in names
    ensures |name| <= Longest(names)
    decreases |names|
  {
    var n :| n in names && Longest(names) == (var rest := Longest(names - {n}); if |n| > rest then |n| else rest);
    if name != n {
      LongestBounds(names - {n}, name);
    }
  }

  /** There is always a name that nobody has. */
  lemma NewName(names: set<string>) returns (name: string)
    ensures name !in names
  {
    name := seq(Longest(names) + 1, _ => 'x');
    if name in names {
      LongestBounds(names, name);
    }
  }

  function TableNames(db: Database): set<string> {
    set id | id in db.catalog :: id.table
  }

  function SchemaNames(db: Database): set<string> {
    set id | id in db.catalog :: id.schema
  }

  // ---------------------------------------------------------------- a second table

  function Renamed(e: TableEvidence, o: Oid, id: TableId): TableEvidence {
    e.(oid := o, schema := id.schema, table := id.table)
  }

  /** The database with a twin of a table beside it. */
  function WithTwin(db: Database, o: Oid, id: TableId, rel: Relation): Database {
    Database(db.tables[o := Relation(Renamed(rel.evidence, o, id), rel.rows)], db.catalog[id := o])
  }

  lemma TwinCatalog(db: Database, o: Oid, id: TableId, rel: Relation)
    requires CatalogOk(db) && o !in db.tables && id !in db.catalog
    ensures CatalogOk(WithTwin(db, o, id, rel))
  {
  }

  /** A twin of another name, or in a schema outside of the path, is not found. */
  lemma {:induction false} TwinNotFound(path: seq<string>, db: Database, o: Oid, id: TableId, rel: Relation, table: string)
    requires id.table != table || id.schema !in path
    ensures FirstInPath(path, WithTwin(db, o, id, rel), table) == FirstInPath(path, db, table)
  {
    if path != [] {
      assert path[0] in path && forall n | n in path[1..] :: n in path;
      TwinNotFound(path[1..], db, o, id, rel, table);
    }
  }

  /** The scene stays staged beside a twin that the statement's name does not mean. */
  lemma StagedBesideTwin(s: Server, c: Context, x: Scene, db: Database, planned: Oid, o: Oid, id: TableId)
    requires Staged(c, x, db, planned) && o !in db.tables && id !in db.catalog && x.server == s
    requires |c.analyzed.details.table| == 1 ==>
               id.table != NameOf(c.analyzed.details.table[0]) || id.schema !in s.path(x.identity)
    ensures Staged(c, Beside(s, x, WithTwin(db, o, id, x.rel)), WithTwin(db, o, id, x.rel), planned)
  {
    hide CatalogOk, TableNamed, FirstInPath;
    assert planned in db.tables && CatalogOk(db);
    TwinCatalog(db, o, id, x.rel);
    if |c.analyzed.details.table| == 1 {
      TwinNotFound(s.path(x.identity), db, o, id, x.rel, NameOf(c.analyzed.details.table[0]));
    }
  }

  // ---------------------------------------------------------------- capture by a table

  /** A foreign session locks a table that no run has locked, and then changes it. */
  lemma ForeignSteps(s: Server, w: World, o: Oid, db: Database) returns (w1: World, w2: World)
    requires !Locked(w, o) && w.foreign == map[] && CatalogOk(db)
    requires forall t | t != o ::
               (t in w.db.tables <==> t in db.tables) && (t in db.tables ==> db.tables[t] == w.db.tables[t])
    ensures Follows(s, w, w1) && Follows(s, w1, w2)
    ensures w2.db == db && w2.runs == w.runs
  {
    hide CatalogOk, Locked;
    w1 := w.(foreign := w.foreign[0 := {} + {o}]);
    assert Does(s, w, ForeignLock(0, o), w1);
    w2 := w1.(db := db, foreign := w1.foreign - {0}, log := w1.log + [Foreign(w1.foreign[0])]);
    assert ForeignPublishes(w1, 0, db, w2);
    assert Does(s, w1, ForeignCommit(0, db), w2);
  }

  /** The run sees the twin's rows in its snapshot; if the name now means the twin, so does the statement. */
  lemma AtTwin(s: Server, c: Context, x: Scene, db: Database, o: Oid, from: TableId, planned: Oid, w: World, ph: Phase,
               now: World)
    requires Along(c, x, WithTwin(db, o, from, x.rel), planned, w, ph) && ph.Executing? && ph.count == x.affected
    requires x.server == s && x.env == s.env(x.identity, WithTwin(db, o, from, x.rel)) && now.runs == w.runs
    requires o in now.db.tables && now.db.tables[o].rows == x.rel.rows
    requires Resolve(s.path(x.identity), now.db, c.analyzed.details.table) == Some(o)
    ensures AtStatement(c, x, now, o)
  {
    hide Resolve;
  }

  lemma TwinIsFree(c: Context, x: Scene, db: Database, o: Oid, from: TableId, planned: Oid, w: World, ph: Phase)
    requires Along(c, x, WithTwin(db, o, from, x.rel), planned, w, ph) && planned != o
    ensures !Locked(w, o) && w.foreign == map[] && w.db == WithTwin(db, o, from, x.rel)
  {
  }

  lemma OnlyTwinMoves(db: Database, o: Oid, from: TableId, to: TableId, rel: Relation)
    ensures var a, b := WithTwin(db, o, from, rel), WithTwin(db, o, to, rel);
      forall t | t != o :: (t in a.tables <==> t in b.tables) && (t in b.tables ==> b.tables[t] == a.tables[t])
  {
  }

  /** A foreign session renames the twin into place between the fingerprint and the execution. */
  lemma MovesIn(s: Server, c: Context, x: Scene, db: Database, o: Oid, from: TableId, to: TableId, planned: Oid,
                w: World, ph: Phase)
    returns (w1: World, w2: World)
    requires CatalogOk(db) && o !in db.tables && to !in db.catalog && planned != o
    requires Along(c, x, WithTwin(db, o, from, x.rel), planned, w, ph) && ph.Executing? && ph.count == x.affected
    requires x.server == s && x.env == s.env(x.identity, WithTwin(db, o, from, x.rel))
    requires Resolve(s.path(x.identity), WithTwin(db, o, to, x.rel), c.analyzed.details.table) == Some(o)
    ensures Follows(s, w, w1) && Follows(s, w1, w2)
    ensures AtStatement(c, x, w2, o) && w2.db == WithTwin(db, o, to, x.rel)
  {
    hide *;
    TwinCatalog(db, o, to, x.rel);
    TwinIsFree(c, x, db, o, from, planned, w, ph);
    OnlyTwinMoves(db, o, from, to, x.rel);
    w1, w2 := ForeignSteps(s, w, o, WithTwin(db, o, to, x.rel));
    TwinIs(db, o, to, x.rel);
    AtTwin(s, c, x, db, o, from, planned, w, ph, w2);
  }

  /** A name that can be captured is unqualified, and no table of that name is in the first schema. */
  lemma FirstSchemaIsFree(s: Server, c: Context, p: Planning, x: Scene, planned: Oid)
    requires Alone(s, c, p, x) && Staged(c, x, p.db, planned) && !Uncapturable(s, c)
    requires TableNamed(c.plan.preconditions.canonicalTable) == Some(IdOf(x.rel.evidence))
    ensures |c.analyzed.details.table| == 1 && s.path(x.identity) != []
    ensures TableId(s.path(x.identity)[0], NameOf(c.analyzed.details.table[0])) !in p.db.catalog
    ensures s.path(x.identity)[0] != IdOf(x.rel.evidence).schema
  {
    hide AnalyzeSql, PlanChecks, GoesThrough, Trusted, Target, Sees, TableNamed;
    PlanRecords(s, c.hash, p, c.plan);
    assert x.identity == c.plan.preconditions.database;
  }

  /**
   Capture.  For every plan with such a name there is a history, of the planned database with one more table,
   in which the run commits its change to that other table: neither locked, nor inspected, nor fingerprinted.
   */
  lemma CaptureIsReachable(s: Server, c: Context, p: Planning, x: Scene, spare: Oid, now: U64)
    returns (ws: seq<World>, e: TableEvidence)
    requires Alone(s, c, p, x) && !Uncapturable(s, c) && spare !in p.db.tables
    ensures History(s, ws)
    ensures PublishedIn(c, ws[|ws| - 1], spare, Relation(e, x.rel.rows)) && !PlannedTable(c, e)
  {
    hide *;
    var planned := PlannedIsStaged(s, c, p, x);
    FirstSchemaIsFree(s, c, p, x, planned);
    var path, table := s.path(x.identity), NameOf(c.analyzed.details.table[0]);
    var name := NewName(TableNames(p.db) + {table});
    var from, to := TableId("", name), TableId(path[0], table);
    NewNameIsFree(p.db, from, table);
    IsStaged(c, x, p.db, planned);
    AloneIsMade(s, c, p, x);
    StagedBesideTwin(s, c, x, p.db, planned, spare, from);
    var db, there := WithTwin(p.db, spare, from, x.rel), Beside(s, x, WithTwin(p.db, spare, from, x.rel));
    SameBeside(s, x, db);
    var ph;
    ws, ph := ReachesExecution(s, c, p, x, db, planned, now);
    NotEmpty(s, ws);
    InFirstSchema(path, p.db, spare, x.rel, c.analyzed.details.table);
    var w1, w2 := MovesIn(s, c, there, p.db, spare, from, to, planned, ws[|ws| - 1], ph);
    Extended(s, ws, w1);
    Extended(s, ws + [w1], w2);
    GoesThroughBeside(s, c, p, x, db);
    ws := Finishes(c, there, ws + [w1] + [w2], spare);
    TwinIs(p.db, spare, to, x.rel);
    OtherSchema(c, x, spare, to);
    e := Renamed(x.rel.evidence, spare, to);
  }

  lemma NewNameIsFree(db: Database, id: TableId, table: string)
    requires id.table !in TableNames(db) + {table}
    ensures id !in db.catalog && id.table != table
  {
  }

  lemma IsStaged(c: Context, x: Scene, db: Database, o: Oid)
    requires Staged(c, x, db, o)
    ensures CatalogOk(db) && o in db.tables && db.tables[o] == x.rel
  {
    hide CatalogOk, TableNamed, Resolve;
  }

  lemma SameBeside(s: Server, x: Scene, db: Database)
    ensures var y := Beside(s, x, db);
      y.rel == x.rel && y.server == x.server && y.identity == x.identity && y.affected == x.affected
      && y.env == s.env(x.identity, db)
  {
  }

  lemma InFirstSchema(path: seq<string>, db: Database, o: Oid, rel: Relation, name: seq<Ident>)
    requires |name| == 1 && path != []
    ensures Resolve(path, WithTwin(db, o, TableId(path[0], NameOf(name[0])), rel), name) == Some(o)
  {
  }

  lemma TwinIs(db: Database, o: Oid, id: TableId, rel: Relation)
    ensures o in WithTwin(db, o, id, rel).tables
    ensures WithTwin(db, o, id, rel).tables[o] == Relation(Renamed(rel.evidence, o, id), rel.rows)
  {
  }

  lemma OtherSchema(c: Context, x: Scene, o: Oid, id: TableId)
    requires TableNamed(c.plan.preconditions.canonicalTable) == Some(IdOf(x.rel.evidence))
    requires id.schema != IdOf(x.rel.evidence).schema
    ensures !PlannedTable(c, Renamed(x.rel.evidence, o, id))
  {
    hide TableNamed, TableSchemaSha256;
  }

  /** In this world of this history, this run has published a change under this plan. */
  ghost predicate Publishing(s: Server, c: Context, ws: seq<World>, k: nat, i: nat) {
    History(s, ws) && k < |ws| && i in ws[k].runs && ws[k].runs[i].c == c && ws[k].runs[i].effect.Some?
  }

  /** Whatever happens, a run of this plan changes only a table with the planned name and definition. */
  ghost predicate AlwaysCovered(s: Server, c: Context) {
    forall ws: seq<World>, k: nat, i: nat | Publishing(s, c, ws, k, i) ::
      PlannedTable(c, ws[k].runs[i].effect.value.evidence)
  }

  lemma CoveredWhen(s: Server, c: Context)
    requires Trusted(s) && Uncapturable(s, c)
    ensures AlwaysCovered(s, c)
  {
    hide History, Trusted, Uncapturable, PlannedTable, Changes, Admitted;
    forall ws: seq<World>, k: nat, i: nat | Publishing(s, c, ws, k, i)
      ensures PlannedTable(c, ws[k].runs[i].effect.value.evidence)
    {
      EffectHolds(s, ws, k, i);
    }
  }

  /**
   Lock coverage, exactly.  An unacknowledged plan that can be applied at all is covered against every foreign
   session exactly when its table name cannot be captured: it is qualified, or its schema is the first of the
   search path.
   */
  lemma CoveredExactlyWhen(s: Server, c: Context, p: Planning, x: Scene, spare: Oid)
    requires Alone(s, c, p, x) && spare !in p.db.tables
    ensures AlwaysCovered(s, c) <==> Uncapturable(s, c)
  {
    hide *;
    AloneIsMade(s, c, p, x);
    if Uncapturable(s, c) {
      CoveredWhen(s, c);
    } else {
      var ws, e := CaptureIsReachable(s, c, p, x, spare, 0);
      NotEmpty(s, ws);
      NotCovered(s, c, ws, spare, Relation(e, x.rel.rows));
    }
  }

  lemma NotCovered(s: Server, c: Context, ws: seq<World>, o: Oid, rel: Relation)
    requires History(s, ws) && ws != [] && PublishedIn(c, ws[|ws| - 1], o, rel) && !PlannedTable(c, rel.evidence)
    ensures !AlwaysCovered(s, c)
  {
    hide History, PlannedTable;
    var k := |ws| - 1;
    assert Publishing(s, c, ws, k, 0);
    assert !PlannedTable(c, ws[k].runs[0].effect.value.evidence);
  }

  // ---------------------------------------------------------------- capture by a schema rename

  function OldName(id: TableId, from: string, to: string): TableId {
    if id.schema == to then TableId(from, id.table) else id
  }

  /** The database after a schema rename. */
  function Moved(db: Database, from: string, to: string): Database {
    Database(
      map o | o in db.tables ::
        var e := db.tables[o].evidence;
        db.tables[o].(evidence := e.(schema := MovedName(IdOf(e), from, to).schema)),
      map id | id in (set n | n in db.catalog :: MovedName(n, from, to)) && OldName(id, from, to) in db.catalog ::
        db.catalog[OldName(id, from, to)])
  }

  lemma MovedCatalog(db: Database, from: string, to: string)
    requires CatalogOk(db) && to !in SchemaNames(db)
    ensures CatalogOk(Moved(db, from, to))
    ensures forall id | id in db.catalog :: MovedName(id, from, to) in Moved(db, from, to).catalog
                                            && Moved(db, from, to).catalog[MovedName(id, from, to)] == db.catalog[id]
    ensures forall id | id in Moved(db, from, to).catalog ::
              OldName(id, from, to) in db.catalog && (from != to ==> id.schema != from)
  {
    forall id | id in db.catalog
      ensures OldName(MovedName(id, from, to), from, to) == id && id.schema in SchemaNames(db)
    {
    }
  }

  lemma Renames(w: World, from: string, to: string) returns (next: World)
    requires CatalogOk(w.db) && to !in SchemaNames(w.db)
    ensures RenamesSchema(w, from, to, next) && next == w.(db := Moved(w.db, from, to))
  {
    MovedCatalog(w.db, from, to);
    next := w.(db := Moved(w.db, from, to));
    hide CatalogOk;
    forall id | id in w.db.catalog ensures id.schema != to {
      assert id.schema in SchemaNames(w.db);
    }
  }

  lemma LooselyExtended(s: Server, ws: seq<World>, w: World)
    requires LooseHistory(s, ws) && FollowsLoosely(s, ws[|ws| - 1], w)
    ensures LooseHistory(s, ws + [w])
  {
    hide FollowsLoosely, Initial;
    var more := ws + [w];
    forall k | 0 <= k < |more| - 1 ensures FollowsLoosely(s, more[k], more[k + 1]) {
      if k < |ws| - 1 {
        assert FollowsLoosely(s, ws[k], ws[k + 1]);
      }
    }
  }

  lemma Loosely(s: Server, ws: seq<World>)
    requires History(s, ws)
    ensures LooseHistory(s, ws)
  {
    hide Follows, Initial;
  }

  /** The path finds the twin where it found the planned table. */
  lemma {:induction false} TwinFirst(path: seq<string>, a: Database, b: Database, table: string, schema: string,
                                     planned: Oid, o: Oid)
    requires FirstInPath(path, a, table) == Some(planned)
    requires TableId(schema, table) in b.catalog && b.catalog[TableId(schema, table)] == o
    requires forall n | n in path && n != schema :: TableId(n, table) in b.catalog <==> TableId(n, table) in a.catalog
    requires forall n | n in path && TableId(n, table) in a.catalog ::
               a.catalog[TableId(n, table)] == planned ==> n == schema
    ensures FirstInPath(path, b, table) == Some(o)
  {
    assert path[0] in path && forall n | n in path[1..] :: n in path;
    if TableId(path[0], table) !in a.catalog && path[0] != schema {
      TwinFirst(path[1..], a, b, table, schema, planned, o);
    }
  }

  /** Two renames put the twin's schema in the place of the planned table's. */
  function Swapped(db: Database, o: Oid, id: TableId, rel: Relation, aside: string, schema: string): Database {
    Moved(Moved(WithTwin(db, o, id, rel), schema, aside), id.schema, schema)
  }

  /** Both renames go to a schema that does not exist. */
  lemma RenamesInTurn(db: Database, o: Oid, rel: Relation, aside: string, twin: TableId, schema: string)
    requires CatalogOk(db) && o !in db.tables && aside != twin.schema && twin.schema != schema
    requires aside !in SchemaNames(db) && twin.schema !in SchemaNames(db)
    ensures var one := WithTwin(db, o, twin, rel);
      && twin !in db.catalog && CatalogOk(one) && aside !in SchemaNames(one)
      && CatalogOk(Moved(one, schema, aside))
      && (schema != aside ==> schema !in SchemaNames(Moved(one, schema, aside)))
  {
    assert twin in db.catalog ==> twin.schema in SchemaNames(db);
    TwinCatalog(db, o, twin, rel);
    var one := WithTwin(db, o, twin, rel);
    assert aside !in SchemaNames(one);
    hide CatalogOk, WithTwin;
    MovedCatalog(one, schema, aside);
  }

  /** Where the names are after both renames. */
  lemma SwappedNames(db: Database, o: Oid, rel: Relation, aside: string, twin: TableId, schema: string)
    requires CatalogOk(db) && o !in db.tables && aside != twin.schema && twin.schema != schema && aside != schema
    requires aside !in SchemaNames(db) && twin.schema !in SchemaNames(db)
    ensures Lookup(Swapped(db, o, twin, rel, aside, schema), TableId(schema, twin.table)) == Some(o)
    ensures forall n: TableId | n.schema != aside && n.schema != twin.schema && n.schema != schema ::
              n in Swapped(db, o, twin, rel, aside, schema).catalog <==> n in db.catalog
  {
    RenamesInTurn(db, o, rel, aside, twin, schema);
    var one := WithTwin(db, o, twin, rel);
    var two := Moved(one, schema, aside);
    MovedCatalog(one, schema, aside);
    assert MovedName(twin, schema, aside) == twin;
    MovedCatalog(two, twin.schema, schema);
    assert MovedName(twin, twin.schema, schema) == TableId(schema, twin.table);
    hide CatalogOk;
    forall n: TableId | n.schema != aside && n.schema != twin.schema && n.schema != schema
      ensures n in Swapped(db, o, twin, rel, aside, schema).catalog <==> n in db.catalog
    {
      assert MovedName(n, schema, aside) == n && MovedName(n, twin.schema, schema) == n;
      assert OldName(n, schema, aside) == n && OldName(n, twin.schema, schema) == n;
    }
  }

  lemma SwappedRows(db: Database, o: Oid, rel: Relation, aside: string, twin: TableId, schema: string)
    ensures o in Swapped(db, o, twin, rel, aside, schema).tables
    ensures Swapped(db, o, twin, rel, aside, schema).tables[o].rows == rel.rows
  {
  }

  /** If the planned name now means another table, and the path's other schemas are as before, so does the statement's. */
  lemma TakesOver(path: seq<string>, db: Database, after: Database, id: TableId, planned: Oid, o: Oid, aside: string,
                  z: string, name: seq<Ident>)
    requires CatalogOk(db) && planned in db.tables && IdOf(db.tables[planned].evidence) == id
    requires Resolve(path, db, name) == Some(planned) && aside !in path && z !in path
    requires Lookup(after, id) == Some(o)
    requires forall n: TableId | n.schema != aside && n.schema != z && n.schema != id.schema ::
               n in after.catalog <==> n in db.catalog
    ensures Resolve(path, after, name) == Some(o)
  {
    if |name| == 1 {
      var table := NameOf(name[0]);
      FoundInPath(path, db, table);
      var k :| 0 <= k < |path| && Lookup(db, TableId(path[k], table)) == Some(planned);
      assert TableId(path[k], table) == id;
      TwinFirst(path, db, after, table, id.schema, planned, o);
    }
  }

  lemma OwnName(db: Database, o: Oid)
    requires CatalogOk(db) && o in db.tables
    ensures IdOf(db.tables[o].evidence).schema in SchemaNames(db)
  {
  }

  /** In the swapped database the statement's name means the twin, qualified or not. */
  lemma SwappedMeaning(path: seq<string>, db: Database, planned: Oid, o: Oid, rel: Relation, aside: string, z: string,
                       name: seq<Ident>)
    requires CatalogOk(db) && planned in db.tables && db.tables[planned] == rel && o !in db.tables
    requires Resolve(path, db, name) == Some(planned)
    requires aside != z && aside !in SchemaNames(db) && z !in SchemaNames(db) && aside !in path && z !in path
    ensures var id := IdOf(rel.evidence);
      Resolve(path, Swapped(db, o, TableId(z, id.table), rel, aside, id.schema), name) == Some(o)
  {
    hide *;
    var id := IdOf(rel.evidence);
    var twin := TableId(z, id.table);
    OwnName(db, planned);
    SwappedNames(db, o, rel, aside, twin, id.schema);
    TakesOver(path, db, Swapped(db, o, twin, rel, aside, id.schema), id, planned, o, aside, z, name);
  }

  /**
   Why histories leave schema renames out.  With them, every plan can miss its table, however it is named: two
   renames between the fingerprint and the execution put another table in its place, past the lock.
   */
  lemma RenamesCapture(s: Server, c: Context, p: Planning, x: Scene, spare: Oid, now: U64)
    returns (ws: seq<World>, rel: Relation)
    requires Alone(s, c, p, x) && spare !in p.db.tables
    ensures LooseHistory(s, ws) && PublishedIn(c, ws[|ws| - 1], spare, rel) && rel.rows == x.rel.rows
  {
    hide *;
    var planned := PlannedIsStaged(s, c, p, x);
    IsStaged(c, x, p.db, planned);
    AloneIsMade(s, c, p, x);
    var path, id := s.path(p.identity), IdOf(x.rel.evidence);
    var z := NewName(SchemaNames(p.db) + Elements(path));
    var aside := NewName(SchemaNames(p.db) + Elements(path) + {z});
    var twin := TableId(z, id.table);
    OwnName(p.db, planned);
    NotInPath(path, z, aside);
    RenamesInTurn(p.db, spare, x.rel, aside, twin, id.schema);
    SwappedRows(p.db, spare, x.rel, aside, twin, id.schema);
    AtHome(s, c, p, x);
    SwappedMeaning(path, p.db, planned, spare, x.rel, aside, z, c.analyzed.details.table);
    StagedBesideTwin(s, c, x, p.db, planned, spare, twin);
    var db := WithTwin(p.db, spare, twin, x.rel);
    var there := Beside(s, x, db);
    SameBeside(s, x, db);
    var ph;
    ws, ph := ReachesExecution(s, c, p, x, db, planned, now);
    NotEmpty(s, ws);
    var w := ws[|ws| - 1];
    TwinIsFree(c, there, p.db, spare, twin, planned, w, ph);
    var w1 := Renames(w, id.schema, aside);
    var w2 := Renames(w1, z, id.schema);
    SwappedIs(p.db, spare, twin, x.rel, aside, id.schema);
    AtTwin(s, c, there, p.db, spare, twin, planned, w, ph, w2);
    GoesThroughBeside(s, c, p, x, db);
    var w3, w4 := FinishSteps(c, there, w2, spare);
    rel := w2.db.tables[spare];
    FourMore(s, ws, w1, w2, w3, w4, id.schema, aside, z);
    ws := ws + [w1] + [w2] + [w3] + [w4];
  }

  function Elements(path: seq<string>): set<string> {
    set n | n in path
  }

  lemma NotInPath(path: seq<string>, z: string, aside: string)
    ensures z !in Elements(path) ==> z !in path
    ensures aside !in Elements(path) ==> aside !in path
  {
  }

  lemma AtHome(s: Server, c: Context, p: Planning, x: Scene)
    requires Alone(s, c, p, x)
    ensures x.identity == p.identity
  {
    hide AnalyzeSql, PlanChecks, GoesThrough, Trusted, Target, Sees;
  }

  lemma SwappedIs(db: Database, o: Oid, id: TableId, rel: Relation, aside: string, schema: string)
    ensures Swapped(db, o, id, rel, aside, schema)
         == Moved(Moved(WithTwin(db, o, id, rel), schema, aside), id.schema, schema)
  {
  }

  lemma FourMore(s: Server, ws: seq<World>, w1: World, w2: World, w3: World, w4: World, schema: string,
                 aside: string, z: string)
    requires History(s, ws) && ws != []
    requires RenamesSchema(ws[|ws| - 1], schema, aside, w1) && RenamesSchema(w1, z, schema, w2)
    requires Follows(s, w2, w3) && Follows(s, w3, w4)
    ensures LooseHistory(s, ws + [w1] + [w2] + [w3] + [w4])
  {
    hide History, Follows, RenamesSchema, LooseHistory;
    Loosely(s, ws);
    LooselyExtended(s, ws, w1);
    LooselyExtended(s, ws + [w1], w2);
    LooselyExtended(s, ws + [w1] + [w2], w3);
    LooselyExtended(s, ws + [w1] + [w2] + [w3], w4);
  }
}
