/** The relational sink's record mapping (src/greeting/repository.rs): the storage entity
    with its surrogate key, the conversions between it and the domain record, and the
    conversions of database errors into service errors. The SQL statements themselves,
    the connection pool and the migrations are not modelled; the database's replies are
    parameters. */
module Repository {
  import opened Results
  import opened Time
  import opened Service

  /** A 128-bit UUID, kept as its numeric value. */
  type Uuid = n: nat | n < 0x1_0000_0000_0000_0000_0000_0000_0000_0000

  /** `Uuid::default()`, the nil UUID. */
  const NilUuid: Uuid := 0

  /** A row of the `greeting` table: the domain record plus its primary key. */
  datatype GreetingEntity = GreetingEntity(
    id: Uuid,
    to: string,
    from: string,
    heading: string,
    message: string,
    created: NaiveDateTime)

  /** `GreetingEntity::from(Greeting)`: copies the five fields; `id` is the freshly
      generated version-7 UUID, passed in because its generation is not modelled.
      Converting back gives the greeting again, whatever id was generated. */
  function EntityFromGreeting(g: Greeting, id: Uuid): (e: GreetingEntity)
    ensures e.id == id
    ensures GreetingFromEntity(e) == g
  {
    GreetingEntity(id, g.to, g.from, g.heading, g.message, g.created)
  }

  /** `Greeting::from(GreetingEntity)`: copies the five fields and drops the key. */
  function GreetingFromEntity(e: GreetingEntity): (g: Greeting)
    ensures g.to == e.to && g.from == e.from && g.heading == e.heading
    ensures g.message == e.message && g.created == e.created
  {
    Greeting(e.to, e.from, e.heading, e.message, e.created)
  }

  /** The other round trip: an entity is determined by its greeting and its key. */
  lemma EntityRoundTrip(e: GreetingEntity)
    ensures EntityFromGreeting(GreetingFromEntity(e), e.id) == e
  {
  }

  /** `GreetingEntity::new`: the nil id, the default creation time and the four text
      fields as given; its greeting is the one `Greeting::new` builds. */
  function NewEntity(to: string, from: string, heading: string, message: string): (e: GreetingEntity)
    ensures e.id == NilUuid && e.created == DefaultNaiveDateTime
    ensures GreetingFromEntity(e) == NewGreeting(to, from, heading, message)
  {
    GreetingEntity(NilUuid, to, from, heading, message, DefaultNaiveDateTime)
  }

  /** The mapping `all` applies to the fetched rows: one greeting per row, in row order. */
  function GreetingsFromEntities(rows: seq<GreetingEntity>): (gs: seq<Greeting>)
    ensures |gs| == |rows|
    ensures forall i :: 0 <= i < |rows| ==> gs[i] == GreetingFromEntity(rows[i])
  {
    if rows == [] then [] else [GreetingFromEntity(rows[0])] + GreetingsFromEntities(rows[1..])
  }

  /** The rows `store` inserts for the greetings `gs`, with the ids generated for them. */
  function EntitiesFromGreetings(gs: seq<Greeting>, ids: seq<Uuid>): (rows: seq<GreetingEntity>)
    requires |ids| == |gs|
    ensures |rows| == |gs|
    ensures forall i :: 0 <= i < |gs| ==> rows[i] == EntityFromGreeting(gs[i], ids[i])
  {
    if gs == [] then [] else [EntityFromGreeting(gs[0], ids[0])] + EntitiesFromGreetings(gs[1..], ids[1..])
  }

  /** Reading back the rows stored for `gs`, when the database returns them in the order
      they were inserted, yields `gs` in that order, whatever ids the stores generated. */
  lemma StoredRowsReadBack(gs: seq<Greeting>, ids: seq<Uuid>)
    requires |ids| == |gs|
    ensures GreetingsFromEntities(EntitiesFromGreetings(gs, ids)) == gs
    ensures SqlAll(Ok(EntitiesFromGreetings(gs, ids))) == Ok(gs)
  {
  }

  /** The row mapping distributes over concatenation. */
  lemma GreetingsFromEntitiesAppend(a: seq<GreetingEntity>, b: seq<GreetingEntity>)
    ensures GreetingsFromEntities(a + b) == GreetingsFromEntities(a) + GreetingsFromEntities(b)
  {
  }

  /** The greetings of a row list split around one row. */
  lemma {:induction false} GreetingsAroundRow(left: seq<GreetingEntity>, x: GreetingEntity, right: seq<GreetingEntity>)
    ensures GreetingsFromEntities(left + ([x] + right)) ==
              GreetingsFromEntities(left) + ([GreetingFromEntity(x)] + GreetingsFromEntities(right))
  {
    GreetingsFromEntitiesAppend(left, [x] + right);
    GreetingsFromEntitiesAppend([x], right);
  }

  /** Taking row `j` out of `rows` takes one copy of it out of the multiset of rows, and
      one copy of its greeting out of the multiset of greetings. */
  lemma {:induction false} RemoveRow(rows: seq<GreetingEntity>, j: nat)
    requires j < |rows|
    ensures multiset(rows[..j] + rows[j + 1..]) == multiset(rows) - multiset{rows[j]}
    ensures multiset(GreetingsFromEntities(rows)) ==
              multiset(GreetingsFromEntities(rows[..j] + rows[j + 1..])) + multiset{GreetingFromEntity(rows[j])}
  {
    var left, x, right := rows[..j], rows[j], rows[j + 1..];
    assert rows == left + ([x] + right);
    GreetingsAroundRow(left, x, right);
    GreetingsFromEntitiesAppend(left, right);
  }

  /** Taking the first row off `rows`, the special case of `RemoveRow` the induction
      below steps by. */
  lemma {:induction false} RemoveFirstRow(rows: seq<GreetingEntity>)
    requires rows != []
    ensures multiset(rows[1..]) == multiset(rows) - multiset{rows[0]}
    ensures multiset(GreetingsFromEntities(rows)) ==
              multiset(GreetingsFromEntities(rows[1..])) + multiset{GreetingFromEntity(rows[0])}
  {
    assert rows == [rows[0]] + rows[1..];
  }

  /** Rows that are a permutation of each other map to greetings that are a permutation
      of each other. */
  lemma {:induction false} GreetingsFromEntitiesPermutation(a: seq<GreetingEntity>, b: seq<GreetingEntity>)
    requires multiset(a) == multiset(b)
    ensures multiset(GreetingsFromEntities(a)) == multiset(GreetingsFromEntities(b))
  {
    if a != [] {
      assert a[0] in multiset(b);
      var j :| 0 <= j < |b| && b[j] == a[0];
      RemoveFirstRow(a);
      RemoveRow(b, j);
      GreetingsFromEntitiesPermutation(a[1..], b[..j] + b[j + 1..]);
    }
  }

  /** The `SELECT` of `all` has no `ORDER BY`, so the database may return the stored rows
      in any order: `all` then yields the stored greetings, each as often as it was stored,
      in some order. */
  lemma StoredRowsReadBackAnyOrder(rows: seq<GreetingEntity>, gs: seq<Greeting>, ids: seq<Uuid>)
    requires |ids| == |gs|
    requires multiset(rows) == multiset(EntitiesFromGreetings(gs, ids))
    ensures SqlAll(Ok(rows)).Ok?
    ensures |SqlAll(Ok(rows)).value| == |gs|
    ensures multiset(SqlAll(Ok(rows)).value) == multiset(gs)
  {
    GreetingsFromEntitiesPermutation(rows, EntitiesFromGreetings(gs, ids));
    StoredRowsReadBack(gs, ids);
    assert |rows| == |multiset(rows)| == |EntitiesFromGreetings(gs, ids)|;
  }

  /** `sqlx::Error`: `RowNotFound`, which `fetch_one` reports when the statement returned
      no row, and every other error, represented by its string form. */
  datatype SqlxError = RowNotFound | OtherSqlxError(text: string)

  /** sqlx's message for `RowNotFound`. */
  const RowNotFoundText: string := "no rows returned by a query that expected to return at least one row"

  /** The string form of a `sqlx::Error`. */
  function SqlxErrorText(e: SqlxError): string
  {
    match e
    case RowNotFound => RowNotFoundText
    case OtherSqlxError(text) => text
  }

  /** `sqlx::migrate::MigrateError`, represented by its string form. */
  datatype MigrateError = MigrateError(text: string)

  /** `RepoError`, the error of opening the repository. */
  datatype RepoError = DbError(db: SqlxError) | DbMigrationError(migration: MigrateError)

  /** The string form of a `RepoError`: the derived `Display` of a one-field variant
      shows the wrapped error, so each variant reads as the error it wraps. */
  function RepoErrorText(e: RepoError): (text: string)
    ensures e.DbError? ==> text == SqlxErrorText(e.db)
    ensures e.DbMigrationError? ==> text == e.migration.text
  {
    match e
    case DbError(db) => SqlxErrorText(db)
    case DbMigrationError(m) => m.text
  }

  /** `From<Error> for RepoError` and `From<MigrateError> for RepoError`. */
  function RepoErrorFromSqlx(e: SqlxError): (r: RepoError)
    ensures r.DbError? && RepoErrorText(r) == SqlxErrorText(e)
  {
    DbError(e)
  }

  function RepoErrorFromMigrate(e: MigrateError): (r: RepoError)
    ensures r.DbMigrationError? && RepoErrorText(r) == e.text
  {
    DbMigrationError(e)
  }

  /** `From<RepoError> for ServiceError`: a `RepoError` carrying the string form. */
  function ServiceErrorFromRepo(e: RepoError): (r: ServiceError)
    ensures r == ServiceError.RepoError(RepoErrorText(e))
  {
    ServiceError.RepoError(RepoErrorText(e))
  }

  /** `From<Error> for ServiceError`: a `RepoError` carrying the string form. */
  function ServiceErrorFromSqlx(e: SqlxError): (r: ServiceError)
    ensures r.RepoError? && r.detail == SqlxErrorText(e)
  {
    ServiceError.RepoError(SqlxErrorText(e))
  }

  /** Converting a database error straight to a service error, or first to a `RepoError`,
      gives the same service error. */
  lemma ConversionPathsAgree(e: SqlxError)
    ensures ServiceErrorFromSqlx(e) == ServiceErrorFromRepo(RepoErrorFromSqlx(e))
  {
  }

  /** `all` of the relational repository, given the reply of the `SELECT`: a database
      error becomes a service error (the `?`); otherwise one greeting per row, in the
      order the database returned the rows. */
  function SqlAll(fetched: Result<seq<GreetingEntity>, SqlxError>): (r: Result<seq<Greeting>, ServiceError>)
    ensures fetched.Err? ==> r == Err(ServiceError.RepoError(SqlxErrorText(fetched.error)))
    ensures fetched.Ok? ==> r.Ok? && |r.value| == |fetched.value|
    ensures fetched.Ok? ==> forall i :: 0 <= i < |fetched.value| ==> r.value[i] == GreetingFromEntity(fetched.value[i])
  {
    match fetched
    case Err(e) => Err(ServiceErrorFromSqlx(e))
    case Ok(rows) => Ok(GreetingsFromEntities(rows))
  }

  /** The rows an `INSERT` without `RETURNING` produces, given the database's result of
      executing it: none. */
  function InsertRows(executed: Result<(), SqlxError>): (rows: Result<seq<GreetingEntity>, SqlxError>)
    ensures executed.Ok? ==> rows == Ok([])
    ensures executed.Err? ==> rows == Err(executed.error)
  {
    executed.Map(_ => [])
  }

  /** `fetch_one`: the first row the statement produced, `RowNotFound` when it produced
      none, or the statement's own error. */
  function FetchOne(rows: Result<seq<GreetingEntity>, SqlxError>): (r: Result<GreetingEntity, SqlxError>)
    ensures rows.Err? ==> r == Err(rows.error)
    ensures rows.Ok? && rows.value == [] ==> r == Err(RowNotFound)
    ensures rows.Ok? && rows.value != [] ==> r == Ok(rows.value[0])
  {
    match rows
    case Err(e) => Err(e)
    case Ok(produced) => if produced == [] then Err(RowNotFound) else Ok(produced[0])
  }

  /** `store` of the relational repository as written: the `INSERT` of the row
      `EntityFromGreeting(g, id)` is run through `fetch_one`, its error goes through `?`,
      and `Ok(())` follows. `executed` is the database's result of executing the insert. */
  function SqlStoreAsWritten(executed: Result<(), SqlxError>): (r: Result<(), ServiceError>)
    ensures executed.Err? ==> r == Err(ServiceError.RepoError(SqlxErrorText(executed.error)))
  {
    FetchOne(InsertRows(executed)).MapErr(ServiceErrorFromSqlx).Map(_ => ())
  }

  /** As written, `store` never succeeds: even when the row was inserted, `fetch_one`
      finds no returned row and the call fails with `RowNotFound`'s text. */
  lemma {:induction false} SqlStoreAsWrittenNeverSucceeds(executed: Result<(), SqlxError>)
    ensures SqlStoreAsWritten(executed).Err?
    ensures executed.Ok? ==> SqlStoreAsWritten(executed) == Err(ServiceError.RepoError(RowNotFoundText))
  {
    if executed.Ok? {
      assert InsertRows(executed) == Ok([]);
      assert FetchOne(InsertRows(executed)) == Err(RowNotFound);
    }
  }

  /** `store` of the relational repository as intended, running the `INSERT` for its
      effect (`execute`): it succeeds exactly when the insert did; a database error
      becomes a service error carrying its text. */
  function SqlStore(executed: Result<(), SqlxError>): (r: Result<(), ServiceError>)
    ensures r.Ok? <==> executed.Ok?
    ensures executed.Err? ==> r == Err(ServiceError.RepoError(SqlxErrorText(executed.error)))
    ensures executed.Err? ==> r == SqlStoreAsWritten(executed)
  {
    executed.MapErr(ServiceErrorFromSqlx)
  }
}
