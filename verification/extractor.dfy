/**
 * Assembly of a database description from the rows of two catalog queries.
 *
 * Entity rows and column rows are first normalised (identifiers lower-cased,
 * entity kind classified, null column fields defaulted), then folded into a
 * two-level map schema name -> entity name -> entity: entities first, so that
 * each column can be appended to the entity that owns it. Finally the map is
 * flattened into a list of schemas. Running a query against the database is
 * outside the model: a query's outcome is given as its rows or as an error.
 */
module Extractor {
  import opened Text
  import opened Model

  datatype Option<T> = None | Some(value: T)

  /** What running one catalog query gave: its rows, or an error. */
  datatype QueryResult<T> = Rows(rows: seq<T>) | QueryError

  /** One row of the entities query: schema, entity name, raw entity type, comment. */
  datatype EntityRow = EntityRow(schema: string, name: string, entityType: string, comment: string)

  /** One row of the columns query; the last three fields may be SQL NULL. */
  datatype ColumnRow = ColumnRow(
    schema: string,
    entityName: string,
    columnName: string,
    dataType: string,
    comment: Option<string>,
    isPrimaryKey: Option<bool>,
    isForeignKey: Option<bool>)

  // ---------------------------------------------------------------------
  // Entity kind classification
  // ---------------------------------------------------------------------

  /** processType: "view" wins over "table"; any other kind is kept, lower-cased. */
  function ProcessType(originalType: string): (r: string)
    ensures IsLower(r)
  {
    var entityType := ToLower(originalType);
    if Contains(entityType, "view") then "view"
    else if Contains(entityType, "table") then "table"
    else entityType
  }

  /** A string without the first character of `sub` cannot contain `sub`. */
  lemma {:induction false} NotContainedWithoutFirstChar(s: string, sub: string)
    requires |sub| > 0 && sub[0] !in s
    ensures !Contains(s, sub)
    decreases |s|
  {
    if |sub| <= |s| {
      assert s[0] != sub[0];
      assert s[..|sub|] != sub;
      NotContainedWithoutFirstChar(s[1..], sub);
    }
  }

  lemma KindWordsFacts()
    ensures Contains("view", "view") && Contains("table", "table")
    ensures !Contains("table", "view")
  {
    NotContainedWithoutFirstChar("table", "view");
  }

  /**
   * The three outcomes of the classification, each stated in both directions:
   * the result is "view" exactly when the lower-cased input mentions "view",
   * it is "table" exactly when it mentions "table" but not "view", and in
   * every other case it is the lower-cased input.
   */
  lemma ProcessTypeClassifies(originalType: string)
    ensures var lower := ToLower(originalType);
      && (ProcessType(originalType) == "view" <==> Contains(lower, "view"))
      && (ProcessType(originalType) == "table" <==> !Contains(lower, "view") && Contains(lower, "table"))
      && (!Contains(lower, "view") && !Contains(lower, "table") ==> ProcessType(originalType) == lower)
  {
    KindWordsFacts();
  }

  /** Classifying an already classified type changes nothing. */
  lemma ProcessTypeIdempotent(originalType: string)
    ensures ProcessType(ProcessType(originalType)) == ProcessType(originalType)
  {
    KindWordsFacts();
    var r := ProcessType(originalType);
    LowerIsFixed(r);
    LowerIsFixed("view");
    LowerIsFixed("table");
  }

  /** A lower-case type that mentions "table" at `k` and has no 'v' is classified as a table. */
  lemma TableWithoutV(lower: string, k: nat)
    requires 'v' !in lower && OccursAt(lower, "table", k)
    ensures !Contains(lower, "view") && Contains(lower, "table")
  {
    NotContainedWithoutFirstChar(lower, "view");
    ContainsIff(lower, "table");
  }

  /** "BASE TABLE" is a table. */
  lemma ProcessTypeBaseTable()
    ensures ProcessType("BASE TABLE") == "table"
  {
    assert ToLower("BASE TABLE") == "base table";
    TableWithoutV("base table", 5);
  }

  /** "FOREIGN TABLE" is a table. */
  lemma ProcessTypeForeignTable()
    ensures ProcessType("FOREIGN TABLE") == "table"
  {
    assert ToLower("FOREIGN TABLE") == "foreign table";
    TableWithoutV("foreign table", 8);
  }

  /** "VIEW" is a view. */
  lemma ProcessTypeView()
    ensures ProcessType("VIEW") == "view"
  {
    assert ToLower("VIEW") == "view";
    KindWordsFacts();
  }

  /** A kind that is neither passes through lower-cased: "SEQUENCE" gives "sequence". */
  lemma ProcessTypeOther()
    ensures ProcessType("SEQUENCE") == "sequence"
  {
    assert ToLower("SEQUENCE") == "sequence";
    NotContainedWithoutFirstChar("sequence", "view");
    NotContainedWithoutFirstChar("sequence", "table");
  }

  // ---------------------------------------------------------------------
  // Row normalisation
  // ---------------------------------------------------------------------

  /** The identifier as used for keys: lower case, equal to the raw one ignoring case. */
  lemma NormalIdentifier(raw: string)
    ensures IsLower(ToLower(raw)) && EqualIgnoringCase(ToLower(raw), raw)
  {
    ToLowerIdempotent(raw);
  }

  /** One entity row as an entity with no columns yet. */
  function NormalizeEntity(row: EntityRow): (e: Entity)
    ensures IsLower(e.schemaName) && EqualIgnoringCase(e.schemaName, row.schema)
    ensures IsLower(e.name) && EqualIgnoringCase(e.name, row.name)
    ensures e.entityType == ProcessType(row.entityType)
    ensures e.comment == row.comment && e.columns == []
  {
    NormalIdentifier(row.schema);
    NormalIdentifier(row.name);
    Entity(ToLower(row.schema), ToLower(row.name), ProcessType(row.entityType), [], row.comment)
  }

  /** One column row as a column; NULL comment and NULL flags become "" and false. */
  function NormalizeColumn(row: ColumnRow): (c: Column)
    ensures IsLower(c.schemaName) && EqualIgnoringCase(c.schemaName, row.schema)
    ensures IsLower(c.entityName) && EqualIgnoringCase(c.entityName, row.entityName)
    ensures IsLower(c.name) && EqualIgnoringCase(c.name, row.columnName)
    ensures c.dataType == row.dataType
    ensures c.comment == (if row.comment.Some? then row.comment.value else "")
    ensures c.isPrimaryKey <==> row.isPrimaryKey == Some(true)
    ensures c.isForeignKey <==> row.isForeignKey == Some(true)
  {
    NormalIdentifier(row.schema);
    NormalIdentifier(row.entityName);
    NormalIdentifier(row.columnName);
    var comment := if row.comment.Some? then row.comment.value else "";
    var isPrimaryKey := if row.isPrimaryKey.Some? then row.isPrimaryKey.value else false;
    var isForeignKey := if row.isForeignKey.Some? then row.isForeignKey.value else false;
    Column(ToLower(row.schema), ToLower(row.entityName), ToLower(row.columnName), row.dataType,
           comment, isPrimaryKey, isForeignKey)
  }

  /** An entity read back as a raw row. */
  function EntityAsRow(e: Entity): EntityRow {
    EntityRow(e.schemaName, e.name, e.entityType, e.comment)
  }

  /** A column read back as a raw row with no NULLs. */
  function ColumnAsRow(c: Column): ColumnRow {
    ColumnRow(c.schemaName, c.entityName, c.name, c.dataType, Some(c.comment), Some(c.isPrimaryKey), Some(c.isForeignKey))
  }

  /** Normalising an already normalised entity changes nothing. */
  lemma NormalizeEntityIdempotent(row: EntityRow)
    ensures NormalizeEntity(EntityAsRow(NormalizeEntity(row))) == NormalizeEntity(row)
  {
    ToLowerIdempotent(row.schema);
    ToLowerIdempotent(row.name);
    ProcessTypeIdempotent(row.entityType);
  }

  /** Normalising an already normalised column changes nothing. */
  lemma NormalizeColumnIdempotent(row: ColumnRow)
    ensures NormalizeColumn(ColumnAsRow(NormalizeColumn(row))) == NormalizeColumn(row)
  {
    ToLowerIdempotent(row.schema);
    ToLowerIdempotent(row.entityName);
    ToLowerIdempotent(row.columnName);
  }

  function NormalizeEntities(rows: seq<EntityRow>): seq<Entity> {
    seq(|rows|, i requires 0 <= i < |rows| => NormalizeEntity(rows[i]))
  }

  function NormalizeColumns(rows: seq<ColumnRow>): seq<Column> {
    seq(|rows|, i requires 0 <= i < |rows| => NormalizeColumn(rows[i]))
  }

  /** processEntityRows: one entity per row, in row order. */
  method ProcessEntityRows(rows: seq<EntityRow>) returns (entities: seq<Entity>)
    ensures |entities| == |rows|
    ensures forall i :: 0 <= i < |rows| ==> entities[i] == NormalizeEntity(rows[i])
  {
    entities := [];
    for i := 0 to |rows|
      invariant |entities| == i
      invariant forall k :: 0 <= k < i ==> entities[k] == NormalizeEntity(rows[k])
    {
      var row := rows[i];
      var entity := Entity(ToLower(row.schema), ToLower(row.name), ProcessType(row.entityType), [], row.comment);
      entities := entities + [entity];
    }
  }

  /** processColumnRows: one column per row, in row order. */
  method ProcessColumnRows(rows: seq<ColumnRow>) returns (columns: seq<Column>)
    ensures |columns| == |rows|
    ensures forall i :: 0 <= i < |rows| ==> columns[i] == NormalizeColumn(rows[i])
  {
    columns := [];
    for i := 0 to |rows|
      invariant |columns| == i
      invariant forall k :: 0 <= k < i ==> columns[k] == NormalizeColumn(rows[k])
    {
      var row := rows[i];
      var columnComment := "";
      if row.comment.Some? {
        columnComment := row.comment.value;
      }
      var isPrimaryKey := false;
      if row.isPrimaryKey.Some? {
        isPrimaryKey := row.isPrimaryKey.value;
      }
      var isForeignKey := false;
      if row.isForeignKey.Some? {
        isForeignKey := row.isForeignKey.value;
      }
      var column := Column(ToLower(row.schema), ToLower(row.entityName), ToLower(row.columnName),
                           row.dataType, columnComment, isPrimaryKey, isForeignKey);
      columns := columns + [column];
    }
  }

  /** getEntitiesList: a failed query stays a failure, otherwise its rows are normalised. */
  method GetEntitiesList(query: QueryResult<EntityRow>) returns (r: QueryResult<Entity>)
    ensures r.QueryError? <==> query.QueryError?
    ensures query.Rows? ==> r.rows == NormalizeEntities(query.rows)
  {
    if query.Rows? {
      var entities := ProcessEntityRows(query.rows);
      r := Rows(entities);
    } else {
      r := QueryError;
    }
  }

  /** getColumnsList: a failed query stays a failure, otherwise its rows are normalised. */
  method GetColumnsList(query: QueryResult<ColumnRow>) returns (r: QueryResult<Column>)
    ensures r.QueryError? <==> query.QueryError?
    ensures query.Rows? ==> r.rows == NormalizeColumns(query.rows)
  {
    if query.Rows? {
      var columns := ProcessColumnRows(query.rows);
      r := Rows(columns);
    } else {
      r := QueryError;
    }
  }

  // ---------------------------------------------------------------------
  // The two-level map and its updates, as functions
  // ---------------------------------------------------------------------

  /** schema name -> entity name -> entity */
  type SchemaMap = map<string, map<string, Entity>>

  /** Is there an entity stored under this schema and entity name? */
  predicate Has(m: SchemaMap, schema: string, name: string) {
    schema in m && name in m[schema]
  }

  /** Store one entity under its key, creating its schema bucket if needed. */
  function InsertEntity(m: SchemaMap, e: Entity): SchemaMap {
    var bucket := if e.schemaName in m then m[e.schemaName] else map[];
    m[e.schemaName := bucket[e.name := e]]
  }

  /** Store the entities one after the other. */
  function AddEntities(m: SchemaMap, es: seq<Entity>): SchemaMap
    decreases |es|
  {
    if |es| == 0 then m else InsertEntity(AddEntities(m, es[..|es| - 1]), es[|es| - 1])
  }

  /** One more entity row: the fold over a longer prefix stores one more entity. */
  lemma AddEntitiesSnoc(m: SchemaMap, es: seq<Entity>, i: int)
    requires 0 <= i < |es|
    ensures AddEntities(m, es[..i + 1]) == InsertEntity(AddEntities(m, es[..i]), es[i])
  {
    assert es[..i + 1][..i] == es[..i];
  }

  /** Append a column to the entity it names; a column whose entity is absent is dropped. */
  function AttachColumn(m: SchemaMap, c: Column): SchemaMap {
    if Has(m, c.schemaName, c.entityName) then
      var e := m[c.schemaName][c.entityName];
      m[c.schemaName := m[c.schemaName][c.entityName := e.(columns := e.columns + [c])]]
    else m
  }

  /** Attach the columns one after the other. */
  function AddColumns(m: SchemaMap, cs: seq<Column>): SchemaMap
    decreases |cs|
  {
    if |cs| == 0 then m else AttachColumn(AddColumns(m, cs[..|cs| - 1]), cs[|cs| - 1])
  }

  /** The columns of `cs` that name entity `name` of schema `schema`, in arrival order. */
  function ColumnsOf(cs: seq<Column>, schema: string, name: string): seq<Column>
    decreases |cs|
  {
    if |cs| == 0 then []
    else
      var c := cs[|cs| - 1];
      ColumnsOf(cs[..|cs| - 1], schema, name) + (if c.schemaName == schema && c.entityName == name then [c] else [])
  }

  /** ColumnsOf keeps exactly the columns with that key. */
  lemma {:induction false} ColumnsOfMembers(cs: seq<Column>, schema: string, name: string)
    ensures |ColumnsOf(cs, schema, name)| <= |cs|
    ensures forall c :: c in ColumnsOf(cs, schema, name) <==> c in cs && c.schemaName == schema && c.entityName == name
    decreases |cs|
  {
    if |cs| > 0 {
      ColumnsOfMembers(cs[..|cs| - 1], schema, name);
      assert cs == cs[..|cs| - 1] + [cs[|cs| - 1]];
    }
  }

  // ---------------------------------------------------------------------
  // Properties of the entity pass
  // ---------------------------------------------------------------------

  /** The schema buckets after the entity pass: the old ones and one per entity's schema. */
  lemma {:induction false} AddEntitiesSchemas(m: SchemaMap, es: seq<Entity>)
    ensures AddEntities(m, es).Keys == m.Keys + set e | e in es :: e.schemaName
    decreases |es|
  {
    if |es| > 0 {
      var init := es[..|es| - 1];
      AddEntitiesSchemas(m, init);
      assert es == init + [es[|es| - 1]];
      assert (set e | e in es :: e.schemaName) == (set e | e in init :: e.schemaName) + {es[|es| - 1].schemaName};
    }
  }

  /** Every entity is present after the entity pass. */
  lemma {:induction false} AddEntitiesPresent(m: SchemaMap, es: seq<Entity>)
    ensures forall e :: e in es ==> Has(AddEntities(m, es), e.schemaName, e.name)
    decreases |es|
  {
    if |es| > 0 {
      var init := es[..|es| - 1];
      AddEntitiesPresent(m, init);
      assert es == init + [es[|es| - 1]];
    }
  }

  /** The entity stored under a key is the last one with that key (last write wins). */
  lemma {:induction false} AddEntitiesLastWins(m: SchemaMap, es: seq<Entity>, j: nat)
    requires j < |es|
    requires forall k :: j < k < |es| ==> !(es[k].schemaName == es[j].schemaName && es[k].name == es[j].name)
    ensures Has(AddEntities(m, es), es[j].schemaName, es[j].name)
    ensures AddEntities(m, es)[es[j].schemaName][es[j].name] == es[j]
    decreases |es|
  {
    if j < |es| - 1 {
      AddEntitiesLastWins(m, es[..|es| - 1], j);
    }
  }

  /** An entity that no row names keeps its presence and its value. */
  lemma {:induction false} AddEntitiesUntouched(m: SchemaMap, es: seq<Entity>, schema: string, name: string)
    requires forall e :: e in es ==> !(e.schemaName == schema && e.name == name)
    ensures Has(AddEntities(m, es), schema, name) <==> Has(m, schema, name)
    ensures Has(m, schema, name) ==> AddEntities(m, es)[schema][name] == m[schema][name]
    decreases |es|
  {
    if |es| > 0 {
      assert forall e :: e in es[..|es| - 1] ==> e in es;
      AddEntitiesUntouched(m, es[..|es| - 1], schema, name);
    }
  }

  /** A schema bucket that no row names is left exactly as it was. */
  lemma {:induction false} AddEntitiesSchemaUntouched(m: SchemaMap, es: seq<Entity>, schema: string)
    requires forall e :: e in es ==> e.schemaName != schema
    ensures schema in AddEntities(m, es) <==> schema in m
    ensures schema in m ==> AddEntities(m, es)[schema] == m[schema]
    decreases |es|
  {
    if |es| > 0 {
      assert forall e :: e in es[..|es| - 1] ==> e in es;
      AddEntitiesSchemaUntouched(m, es[..|es| - 1], schema);
    }
  }

  // ---------------------------------------------------------------------
  // Properties of the column pass
  // ---------------------------------------------------------------------

  /**
   * The column pass adds no schema and no entity; each entity gets the
   * columns that name it appended in arrival order, and keeps every other field.
   */
  lemma {:induction false} AddColumnsShape(m: SchemaMap, cs: seq<Column>)
    ensures AddColumns(m, cs).Keys == m.Keys
    ensures forall s :: s in m ==> AddColumns(m, cs)[s].Keys == m[s].Keys
    ensures forall s, n :: Has(m, s, n) ==>
      AddColumns(m, cs)[s][n] == m[s][n].(columns := m[s][n].columns + ColumnsOf(cs, s, n))
    decreases |cs|
  {
    if |cs| > 0 {
      var init, c := cs[..|cs| - 1], cs[|cs| - 1];
      AddColumnsShape(m, init);
      var r' := AddColumns(m, init);
      forall s, n | Has(m, s, n)
        ensures AddColumns(m, cs)[s][n] == m[s][n].(columns := m[s][n].columns + ColumnsOf(cs, s, n))
      {
        if c.schemaName == s && c.entityName == n {
          assert m[s][n].columns + ColumnsOf(init, s, n) + [c] == m[s][n].columns + ColumnsOf(cs, s, n);
        } else {
          assert ColumnsOf(cs, s, n) == ColumnsOf(init, s, n) + [];
        }
      }
    }
  }

  /** A column whose entity is not in the map is attached nowhere. */
  lemma OrphanDropped(m: SchemaMap, cs: seq<Column>, c: Column)
    requires c in cs && !Has(m, c.schemaName, c.entityName)
    ensures forall s, n :: Has(m, s, n) ==>
      Has(AddColumns(m, cs), s, n) && (c in AddColumns(m, cs)[s][n].columns <==> c in m[s][n].columns)
  {
    AddColumnsShape(m, cs);
    forall s, n | Has(m, s, n)
      ensures Has(AddColumns(m, cs), s, n) && (c in AddColumns(m, cs)[s][n].columns <==> c in m[s][n].columns)
    {
      ColumnsOfMembers(cs, s, n);
      assert c !in ColumnsOf(cs, s, n);
    }
  }

  /** With no entity loaded, every column is dropped: columns need entities first. */
  lemma {:induction false} ColumnsWithoutEntities(cs: seq<Column>)
    ensures AddColumns(map[], cs) == map[]
    decreases |cs|
  {
    if |cs| > 0 {
      ColumnsWithoutEntities(cs[..|cs| - 1]);
    }
  }

  // ---------------------------------------------------------------------
  // The map as the extractor updates it in place
  // ---------------------------------------------------------------------

  /** The working map the extractor fills, first with entities and then with columns. */
  class DataMap {
    var entries: SchemaMap

    constructor ()
      ensures entries == map[]
    {
      entries := map[];
    }

    /** populateEntities: store every entity of a successful query; a failed query changes nothing. */
    method PopulateEntities(query: QueryResult<EntityRow>)
      modifies this
      ensures query.Rows? ==> entries == AddEntities(old(entries), NormalizeEntities(query.rows))
      ensures query.QueryError? ==> entries == old(entries)
    {
      var entities := GetEntitiesList(query);
      if entities.Rows? {
        StoreEntities(entities.rows);
      }
    }

    /** The loop of populateEntities: each entity goes into its schema's bucket, created on first use. */
    method StoreEntities(entities: seq<Entity>)
      modifies this
      ensures entries == AddEntities(old(entries), entities)
    {
      for i := 0 to |entities|
        invariant entries == AddEntities(old(entries), entities[..i])
      {
        var e := entities[i];
        AddEntitiesSnoc(old(entries), entities, i);
        ghost var before := entries;
        if e.schemaName !in entries {
          entries := entries[e.schemaName := map[]];
        }
        assert entries[e.schemaName] == if e.schemaName in before then before[e.schemaName] else map[];
        entries := entries[e.schemaName := entries[e.schemaName][e.name := e]];
      }
      assert entities[..|entities|] == entities;
    }

    /** populateColumns: attach every column of a successful query; a failed query changes nothing. */
    method PopulateColumns(query: QueryResult<ColumnRow>)
      modifies this
      ensures query.Rows? ==> entries == AddColumns(old(entries), NormalizeColumns(query.rows))
      ensures query.QueryError? ==> entries == old(entries)
    {
      var columns := GetColumnsList(query);
      if columns.Rows? {
        StoreColumns(columns.rows);
      }
    }

    /** The loop of populateColumns: a column is appended to the entity it names, if that entity is stored. */
    method StoreColumns(columns: seq<Column>)
      modifies this
      ensures entries == AddColumns(old(entries), columns)
    {
      for i := 0 to |columns|
        invariant entries == AddColumns(old(entries), columns[..i])
      {
        var c := columns[i];
        assert columns[..i + 1][..i] == columns[..i];
        if c.schemaName in entries && c.entityName in entries[c.schemaName] {
          var entity := entries[c.schemaName][c.entityName];
          entity := entity.(columns := entity.columns + [c]);
          entries := entries[c.schemaName := entries[c.schemaName][c.entityName := entity]];
        }
      }
      assert columns[..|columns|] == columns;
    }
  }

  // ---------------------------------------------------------------------
  // Flattening the map into a list of schemas
  // ---------------------------------------------------------------------

  /** `keys` lists every key of `m` exactly once, in some order. */
  ghost predicate IsKeyOrder<V>(m: map<string, V>, keys: seq<string>) {
    && (forall i, j :: 0 <= i < j < |keys| ==> keys[i] != keys[j])
    && (forall k :: k in m <==> k in keys)
  }

  /** `es` holds the values of `bucket`, taken in the key order `order`. */
  ghost predicate Lists(bucket: map<string, Entity>, es: seq<Entity>, order: seq<string>) {
    && IsKeyOrder(bucket, order)
    && |es| == |order| == |bucket|
    && forall i :: 0 <= i < |es| ==> es[i] == bucket[order[i]]
  }

  /** The names of the schemas, in order. */
  function SchemaNames(schemas: seq<Schema>): seq<string> {
    seq(|schemas|, i requires 0 <= i < |schemas| => schemas[i].name)
  }

  /** `schemas` has one schema per bucket of `m`, each holding exactly that bucket's entities. */
  ghost predicate Flattens(m: SchemaMap, schemas: seq<Schema>, orders: seq<seq<string>>) {
    && IsKeyOrder(m, SchemaNames(schemas))
    && |orders| == |schemas|
    && forall i :: 0 <= i < |schemas| ==>
         schemas[i].name in m && Lists(m[schemas[i].name], schemas[i].entities, orders[i])
  }

  ghost function PickKey(m: SchemaMap): string
    requires |m| > 0
  {
    assert m.Keys != {};
    var k :| k in m; k
  }

  /** The number of entities in the map, over all buckets, independent of any order. */
  ghost function EntryCount(m: SchemaMap): nat
    decreases |m|
  {
    if |m| == 0 then 0
    else
      var k := PickKey(m);
      assert (m - {k}).Keys == m.Keys - {k};
      |m[k]| + EntryCount(m - {k})
  }

  lemma {:induction false} EntryCountRemove(m: SchemaMap, s: string)
    requires s in m
    ensures EntryCount(m) == |m[s]| + EntryCount(m - {s})
    decreases |m|
  {
    var t := PickKey(m);
    assert EntryCount(m) == |m[t]| + EntryCount(m - {t});
    if t != s {
      var mt, ms := m - {t}, m - {s};
      assert mt.Keys == m.Keys - {t} && s in mt && mt[s] == m[s];
      assert ms.Keys == m.Keys - {s} && t in ms && ms[t] == m[t];
      var both := mt - {s};
      assert both == ms - {t};
      EntryCountRemove(mt, s);
      EntryCountRemove(ms, t);
      assert EntryCount(mt) == |m[s]| + EntryCount(both);
      assert EntryCount(ms) == |m[t]| + EntryCount(both);
    }
  }

  /** Dropping the last key of a key order gives a key order of the map without that key. */
  lemma KeyOrderDropLast<V>(m: map<string, V>, keys: seq<string>)
    requires IsKeyOrder(m, keys) && |keys| > 0
    ensures keys[|keys| - 1] in m
    ensures keys[|keys| - 1] !in keys[..|keys| - 1]
    ensures IsKeyOrder(m - {keys[|keys| - 1]}, keys[..|keys| - 1])
  {
    var init, last := keys[..|keys| - 1], keys[|keys| - 1];
    assert keys == init + [last];
    assert last in keys;
    forall i | 0 <= i < |init| ensures init[i] != last {
      assert init[i] == keys[i];
    }
    forall i, j | 0 <= i < j < |init| ensures init[i] != init[j] {
      assert init[i] == keys[i] && init[j] == keys[j];
    }
    forall k ensures k in m - {last} <==> k in init {
      assert k in keys <==> k in init || k == last;
    }
  }

  /** A key order is as long as the map is large. */
  lemma {:induction false} KeyOrderLength<V>(m: map<string, V>, keys: seq<string>)
    requires IsKeyOrder(m, keys)
    ensures |keys| == |m|
    decreases |keys|
  {
    if |keys| == 0 {
      assert m.Keys == {};
    } else {
      var init, last := keys[..|keys| - 1], keys[|keys| - 1];
      KeyOrderDropLast(m, keys);
      var m' := m - {last};
      assert |m'| == |m| - 1;
      KeyOrderLength(m', init);
    }
  }

  /** Sum of the bucket sizes of the listed keys. */
  function SumSizes(m: SchemaMap, keys: seq<string>): nat
    requires forall k :: k in keys ==> k in m
    decreases |keys|
  {
    if |keys| == 0 then 0 else SumSizes(m, keys[..|keys| - 1]) + |m[keys[|keys| - 1]]|
  }

  lemma {:induction false} SumSizesFrame(m: SchemaMap, m': SchemaMap, keys: seq<string>)
    requires forall k :: k in keys ==> k in m && k in m' && m[k] == m'[k]
    ensures SumSizes(m, keys) == SumSizes(m', keys)
    decreases |keys|
  {
    if |keys| > 0 {
      SumSizesFrame(m, m', keys[..|keys| - 1]);
    }
  }

  /** Summing the buckets in any key order counts every entry of the map. */
  lemma {:induction false} SumSizesIsEntryCount(m: SchemaMap, keys: seq<string>)
    requires IsKeyOrder(m, keys)
    ensures SumSizes(m, keys) == EntryCount(m)
    decreases |keys|
  {
    if |keys| == 0 {
      assert m.Keys == {};
    } else {
      var init, last := keys[..|keys| - 1], keys[|keys| - 1];
      KeyOrderDropLast(m, keys);
      var m' := m - {last};
      SumSizesIsEntryCount(m', init);
      SumSizesFrame(m, m', init);
      EntryCountRemove(m, last);
    }
  }

  lemma {:induction false} TotalEntitiesIsSumSizes(m: SchemaMap, schemas: seq<Schema>)
    requires forall i :: 0 <= i < |schemas| ==> schemas[i].name in m && |schemas[i].entities| == |m[schemas[i].name]|
    ensures TotalEntities(schemas) == SumSizes(m, SchemaNames(schemas))
    decreases |schemas|
  {
    if |schemas| > 0 {
      var init := schemas[..|schemas| - 1];
      TotalEntitiesIsSumSizes(m, init);
      assert SchemaNames(schemas)[..|schemas| - 1] == SchemaNames(init);
    }
  }

  /** A flattened map holds, over all its schemas, exactly as many entities as the map has entries. */
  lemma FlattenedEntityCount(m: SchemaMap, schemas: seq<Schema>, orders: seq<seq<string>>)
    requires Flattens(m, schemas, orders)
    ensures |schemas| == |m|
    ensures TotalEntities(schemas) == EntryCount(m)
  {
    TotalEntitiesIsSumSizes(m, schemas);
    SumSizesIsEntryCount(m, SchemaNames(schemas));
    KeyOrderLength(m, SchemaNames(schemas));
  }

  /** The inner loop of buildSchemeList: every entity of one bucket, in the map's order. */
  method CollectEntities(entityMap: map<string, Entity>) returns (entities: seq<Entity>, ghost order: seq<string>)
    ensures |entities| == |entityMap|
    ensures Lists(entityMap, entities, order)
  {
    entities, order := [], [];
    var remaining := entityMap.Keys;
    while remaining != {}
      invariant remaining <= entityMap.Keys
      invariant |order| + |remaining| == |entityMap|
      invariant |entities| == |order|
      invariant forall i :: 0 <= i < |order| ==>
        order[i] in entityMap && order[i] !in remaining && entities[i] == entityMap[order[i]]
      invariant forall i, j :: 0 <= i < j < |order| ==> order[i] != order[j]
      invariant forall k :: k in entityMap ==> k in remaining || k in order
      decreases remaining
    {
      var key :| key in remaining;
      entities := entities + [entityMap[key]];
      order := order + [key];
      remaining := remaining - {key};
    }
  }

  /**
   * The state of buildSchemeList's outer loop: the schemas built so far are
   * the buckets of the keys already taken, each listed exactly once, and the
   * keys not yet taken are exactly `remaining`.
   */
  ghost predicate FlattenedSoFar(m: SchemaMap, schemas: seq<Schema>, orders: seq<seq<string>>, remaining: set<string>) {
    && remaining <= m.Keys
    && |orders| == |schemas|
    && (forall i, j :: 0 <= i < j < |schemas| ==> schemas[i].name != schemas[j].name)
    && (forall i :: 0 <= i < |schemas| ==>
          schemas[i].name in m && schemas[i].name !in remaining &&
          Lists(m[schemas[i].name], schemas[i].entities, orders[i]))
    && (forall k :: k in m ==> k in remaining || k in SchemaNames(schemas))
  }

  /** Taking one more key keeps the loop state. */
  lemma FlattenedStep(m: SchemaMap, schemas: seq<Schema>, orders: seq<seq<string>>, remaining: set<string>,
                      key: string, entities: seq<Entity>, order: seq<string>)
    requires FlattenedSoFar(m, schemas, orders, remaining)
    requires key in remaining && Lists(m[key], entities, order)
    ensures FlattenedSoFar(m, schemas + [Schema(key, entities)], orders + [order], remaining - {key})
  {
    var schemas', orders' := schemas + [Schema(key, entities)], orders + [order];
    assert SchemaNames(schemas') == SchemaNames(schemas) + [key];
    forall i | 0 <= i < |schemas|
      ensures schemas'[i] == schemas[i] && orders'[i] == orders[i]
    {
    }
  }

  /** When no key is left, the loop state is a flattening of the whole map. */
  lemma FlattenedDone(m: SchemaMap, schemas: seq<Schema>, orders: seq<seq<string>>)
    requires FlattenedSoFar(m, schemas, orders, {})
    ensures Flattens(m, schemas, orders)
  {
    var names := SchemaNames(schemas);
    forall i, j | 0 <= i < j < |names| ensures names[i] != names[j] {
      assert names[i] == schemas[i].name && names[j] == schemas[j].name;
    }
    forall k | k in names ensures k in m {
      var i :| 0 <= i < |names| && names[i] == k;
      assert schemas[i].name == k;
    }
  }

  /** buildSchemeList: one schema per bucket of the map; the order is the map's. */
  method BuildSchemeList(dataMap: SchemaMap) returns (schemas: seq<Schema>, ghost orders: seq<seq<string>>)
    ensures |schemas| == |dataMap|
    ensures Flattens(dataMap, schemas, orders)
    ensures TotalEntities(schemas) == EntryCount(dataMap)
  {
    schemas, orders := [], [];
    var remaining := dataMap.Keys;
    while remaining != {}
      invariant FlattenedSoFar(dataMap, schemas, orders, remaining)
      decreases remaining
    {
      var schemaKey :| schemaKey in remaining;
      var entityMap := dataMap[schemaKey];
      var entities, order := CollectEntities(entityMap);
      FlattenedStep(dataMap, schemas, orders, remaining, schemaKey, entities, order);
      schemas := schemas + [Schema(schemaKey, entities)];
      orders := orders + [order];
      remaining := remaining - {schemaKey};
    }
    FlattenedDone(dataMap, schemas, orders);
    FlattenedEntityCount(dataMap, schemas, orders);
  }

  // ---------------------------------------------------------------------
  // The whole extraction
  // ---------------------------------------------------------------------

  /** The map after loading the entities query and then the columns query into an empty map. */
  function Assemble(entitiesQuery: QueryResult<EntityRow>, columnsQuery: QueryResult<ColumnRow>): SchemaMap {
    var withEntities := if entitiesQuery.Rows? then AddEntities(map[], NormalizeEntities(entitiesQuery.rows)) else map[];
    if columnsQuery.Rows? then AddColumns(withEntities, NormalizeColumns(columnsQuery.rows)) else withEntities
  }

  /** ExtractDescription: entities first, then columns, then flatten. */
  method ExtractDescription(entitiesQuery: QueryResult<EntityRow>, columnsQuery: QueryResult<ColumnRow>)
    returns (d: DatabaseDescription, ghost orders: seq<seq<string>>)
    ensures Flattens(Assemble(entitiesQuery, columnsQuery), d.schemas, orders)
    ensures TotalEntities(d.schemas) == EntryCount(Assemble(entitiesQuery, columnsQuery))
  {
    var dataMap := new DataMap();
    dataMap.PopulateEntities(entitiesQuery);
    dataMap.PopulateColumns(columnsQuery);
    var schemas;
    schemas, orders := BuildSchemeList(dataMap.entries);
    d := DatabaseDescription(schemas);
  }

  /** The keys of the entities the entity rows describe. */
  function EntityKeys(rows: seq<EntityRow>): set<(string, string)> {
    set e | e in NormalizeEntities(rows) :: (e.schemaName, e.name)
  }

  /**
   * Every entity sits under its own key and every column it holds names it:
   * the attachment invariant.
   */
  ghost predicate WellKeyed(m: SchemaMap) {
    forall s, n :: Has(m, s, n) ==>
      && m[s][n].schemaName == s && m[s][n].name == n
      && forall c :: c in m[s][n].columns ==> c.schemaName == s && c.entityName == n
  }

  /** Storing one column-less entity under its own key keeps the invariant. */
  lemma InsertEntityWellKeyed(m: SchemaMap, e: Entity)
    requires WellKeyed(m) && e.columns == []
    ensures WellKeyed(InsertEntity(m, e))
  {
    var m' := InsertEntity(m, e);
    forall s, n | Has(m', s, n)
      ensures m'[s][n].schemaName == s && m'[s][n].name == n
      ensures forall c :: c in m'[s][n].columns ==> c.schemaName == s && c.entityName == n
    {
      if s == e.schemaName && n == e.name {
        assert m'[s][n] == e;
      } else {
        assert Has(m, s, n) && m'[s][n] == m[s][n];
      }
    }
  }

  lemma {:induction false} AddEntitiesWellKeyed(m: SchemaMap, es: seq<Entity>)
    requires WellKeyed(m)
    requires forall e :: e in es ==> e.columns == []
    ensures WellKeyed(AddEntities(m, es))
    decreases |es|
  {
    if |es| > 0 {
      var init, last := es[..|es| - 1], es[|es| - 1];
      assert forall e :: e in init ==> e in es;
      AddEntitiesWellKeyed(m, init);
      InsertEntityWellKeyed(AddEntities(m, init), last);
    }
  }

  lemma AddColumnsWellKeyed(m: SchemaMap, cs: seq<Column>)
    requires WellKeyed(m)
    ensures WellKeyed(AddColumns(m, cs))
  {
    AddColumnsShape(m, cs);
    forall s, n | Has(m, s, n)
      ensures forall c :: c in ColumnsOf(cs, s, n) ==> c.schemaName == s && c.entityName == n
    {
      ColumnsOfMembers(cs, s, n);
    }
  }

  /** The assembled map keeps the attachment invariant. */
  lemma AssembleWellKeyed(entitiesQuery: QueryResult<EntityRow>, columnsQuery: QueryResult<ColumnRow>)
    ensures WellKeyed(Assemble(entitiesQuery, columnsQuery))
  {
    var empty: SchemaMap := map[];
    if entitiesQuery.Rows? {
      AddEntitiesWellKeyed(empty, NormalizeEntities(entitiesQuery.rows));
      if columnsQuery.Rows? {
        AddColumnsWellKeyed(AddEntities(empty, NormalizeEntities(entitiesQuery.rows)), NormalizeColumns(columnsQuery.rows));
      }
    } else if columnsQuery.Rows? {
      ColumnsWithoutEntities(NormalizeColumns(columnsQuery.rows));
    }
  }

  /**
   * The assembled map has a schema bucket exactly for the schemas of the
   * entity rows, and an entity exactly for the keys of the entity rows.
   */
  lemma AssembledKeys(rows: seq<EntityRow>, columnsQuery: QueryResult<ColumnRow>)
    ensures Assemble(Rows(rows), columnsQuery).Keys == set e | e in NormalizeEntities(rows) :: e.schemaName
    ensures forall s, n :: Has(Assemble(Rows(rows), columnsQuery), s, n) <==> (s, n) in EntityKeys(rows)
  {
    var empty: SchemaMap := map[];
    var es := NormalizeEntities(rows);
    var withEntities := AddEntities(empty, es);
    AddEntitiesPresent(empty, es);
    AddEntitiesSchemas(empty, es);
    if columnsQuery.Rows? {
      AddColumnsShape(withEntities, NormalizeColumns(columnsQuery.rows));
    }
    forall s, n ensures Has(Assemble(Rows(rows), columnsQuery), s, n) <==> (s, n) in EntityKeys(rows) {
      if (s, n) !in EntityKeys(rows) {
        AddEntitiesUntouched(empty, es, s, n);
      }
    }
  }

  /**
   * The entity stored for the last entity row with a given key is that row,
   * normalised, holding the columns that name it in arrival order (none if
   * the columns query failed).
   */
  lemma AssembledEntity(rows: seq<EntityRow>, columnsQuery: QueryResult<ColumnRow>, j: nat)
    requires j < |rows|
    requires forall k :: j < k < |rows| ==>
      !(NormalizeEntity(rows[k]).schemaName == NormalizeEntity(rows[j]).schemaName &&
        NormalizeEntity(rows[k]).name == NormalizeEntity(rows[j]).name)
    ensures var e := NormalizeEntity(rows[j]);
      var m := Assemble(Rows(rows), columnsQuery);
      && Has(m, e.schemaName, e.name)
      && m[e.schemaName][e.name] == e.(columns :=
           if columnsQuery.Rows? then ColumnsOf(NormalizeColumns(columnsQuery.rows), e.schemaName, e.name) else [])
  {
    var empty: SchemaMap := map[];
    var es := NormalizeEntities(rows);
    AddEntitiesLastWins(empty, es, j);
    if columnsQuery.Rows? {
      AddColumnsShape(AddEntities(empty, es), NormalizeColumns(columnsQuery.rows));
    }
  }

  /** When the columns query fails, every entity is still there, with no columns. */
  lemma ColumnsQueryFailed(rows: seq<EntityRow>)
    ensures forall s, n :: Has(Assemble(Rows(rows), QueryError), s, n) <==> (s, n) in EntityKeys(rows)
    ensures forall s, n :: Has(Assemble(Rows(rows), QueryError), s, n) ==>
      Assemble(Rows(rows), QueryError)[s][n].columns == []
  {
    AssembledKeys(rows, QueryError);
    var empty: SchemaMap := map[];
    forall s, n | Has(Assemble(Rows(rows), QueryError), s, n)
      ensures Assemble(Rows(rows), QueryError)[s][n].columns == []
    {
      AddEntitiesWellKeyed(empty, NormalizeEntities(rows));
      AddEntitiesColumnsEmpty(empty, NormalizeEntities(rows), s, n);
    }
  }

  lemma {:induction false} AddEntitiesColumnsEmpty(m: SchemaMap, es: seq<Entity>, s: string, n: string)
    requires forall s', n' :: Has(m, s', n') ==> m[s'][n'].columns == []
    requires forall e :: e in es ==> e.columns == []
    requires Has(AddEntities(m, es), s, n)
    ensures AddEntities(m, es)[s][n].columns == []
    decreases |es|
  {
    if |es| > 0 {
      var init, e := es[..|es| - 1], es[|es| - 1];
      assert forall x :: x in init ==> x in es;
      if !(e.schemaName == s && e.name == n) {
        AddEntitiesColumnsEmpty(m, init, s, n);
      }
    }
  }

  /** When the entities query fails, the map stays empty: every column is dropped. */
  lemma EntitiesQueryFailed(columnsQuery: QueryResult<ColumnRow>)
    ensures Assemble(QueryError, columnsQuery) == map[]
  {
    if columnsQuery.Rows? {
      ColumnsWithoutEntities(NormalizeColumns(columnsQuery.rows));
    }
  }

  /** A column row whose entity no entity row names ends up in no entity. */
  lemma AssembledOrphan(rows: seq<EntityRow>, columnRows: seq<ColumnRow>, i: nat)
    requires i < |columnRows|
    requires (NormalizeColumn(columnRows[i]).schemaName, NormalizeColumn(columnRows[i]).entityName) !in EntityKeys(rows)
    ensures forall s, n :: Has(Assemble(Rows(rows), Rows(columnRows)), s, n) ==>
      NormalizeColumn(columnRows[i]) !in Assemble(Rows(rows), Rows(columnRows))[s][n].columns
  {
    var empty: SchemaMap := map[];
    var es := NormalizeEntities(rows);
    var c := NormalizeColumn(columnRows[i]);
    var cs := NormalizeColumns(columnRows);
    assert cs[i] == c;
    AddEntitiesUntouched(empty, es, c.schemaName, c.entityName);
    OrphanDropped(AddEntities(empty, es), cs, c);
    AddColumnsShape(AddEntities(empty, es), cs);
    forall s, n | Has(AddEntities(empty, es), s, n)
      ensures AddEntities(empty, es)[s][n].columns == []
    {
      AddEntitiesColumnsEmpty(empty, es, s, n);
    }
  }

  /**
   * A column row attaches to an entity row that differs from it only in the
   * case of the schema and entity names.
   */
  /**
   * A column row attaches to the entity of every entity row whose schema and
   * name differ from its own only in case, wherever both rows sit in their
   * streams.
   */
  lemma AttachIgnoringCase(rows: seq<EntityRow>, columnRows: seq<ColumnRow>, j: nat, i: nat)
    requires j < |rows| && i < |columnRows|
    requires EqualIgnoringCase(rows[j].schema, columnRows[i].schema)
    requires EqualIgnoringCase(rows[j].name, columnRows[i].entityName)
    ensures var s, n := ToLower(rows[j].schema), ToLower(rows[j].name);
      var m := Assemble(Rows(rows), Rows(columnRows));
      && Has(m, s, n)
      && NormalizeColumn(columnRows[i]) in m[s][n].columns
  {
    var empty: SchemaMap := map[];
    var es, cs := NormalizeEntities(rows), NormalizeColumns(columnRows);
    var e, c := es[j], cs[i];
    AddEntitiesPresent(empty, es);
    assert e in es && Has(AddEntities(empty, es), e.schemaName, e.name);
    AddColumnsShape(AddEntities(empty, es), cs);
    ColumnsOfMembers(cs, e.schemaName, e.name);
    assert c in cs && c in ColumnsOf(cs, e.schemaName, e.name);
  }

  /** "PUBLIC"."USERS"."Id" attaches, as the only column, to the entity row ("Public", "Users"). */
  lemma AttachIgnoringCaseExample()
    ensures var m := Assemble(
        Rows([EntityRow("Public", "Users", "BASE TABLE", "")]),
        Rows([ColumnRow("PUBLIC", "USERS", "Id", "integer", None, Some(true), None)]));
      && Has(m, "public", "users")
      && m["public"]["users"].columns == [Column("public", "users", "id", "integer", "", true, false)]
  {
    var er := EntityRow("Public", "Users", "BASE TABLE", "");
    var cr := ColumnRow("PUBLIC", "USERS", "Id", "integer", None, Some(true), None);
    assert ToLower("Public") == "public" == ToLower("PUBLIC");
    assert ToLower("Users") == "users" == ToLower("USERS");
    assert ToLower("Id") == "id";
    AssembledEntity([er], Rows([cr]), 0);
    var c := NormalizeColumn(cr);
    assert c == Column("public", "users", "id", "integer", "", true, false);
    assert NormalizeColumns([cr]) == [c];
    assert ColumnsOf([c], "public", "users") == ColumnsOf([], "public", "users") + [c];
  }

  // The rows of a one-table catalog: the table "orders" and its two columns.
  const OrdersRows := [EntityRow("public", "orders", "BASE TABLE", "")]
  const OrdersColumnRows := [
    ColumnRow("public", "orders", "id", "integer", None, Some(true), Some(false)),
    ColumnRow("public", "orders", "total", "numeric", None, Some(false), Some(false))]
  const OrdersId := Column("public", "orders", "id", "integer", "", true, false)
  const OrdersTotal := Column("public", "orders", "total", "numeric", "", false, false)
  const OrdersTable := Entity("public", "orders", "table", [OrdersId, OrdersTotal], "")

  lemma OrdersColumns()
    ensures ColumnsOf(NormalizeColumns(OrdersColumnRows), "public", "orders") == [OrdersId, OrdersTotal]
  {
    LowerIsFixed("public");
    LowerIsFixed("orders");
    LowerIsFixed("id");
    LowerIsFixed("total");
    var cs := NormalizeColumns(OrdersColumnRows);
    assert cs == [OrdersId, OrdersTotal];
    assert cs[..1] == [OrdersId];
    assert ColumnsOf([OrdersId], "public", "orders") == [OrdersId];
  }

  lemma OrdersEntity()
    ensures NormalizeEntities(OrdersRows) == [OrdersTable.(columns := [])]
  {
    LowerIsFixed("public");
    LowerIsFixed("orders");
    ProcessTypeBaseTable();
  }

  /** The map assembled from one table row and its two column rows. */
  lemma OrdersMap()
    ensures Assemble(Rows(OrdersRows), Rows(OrdersColumnRows)) == map["public" := map["orders" := OrdersTable]]
  {
    var m := Assemble(Rows(OrdersRows), Rows(OrdersColumnRows));
    OrdersColumns();
    OrdersEntity();
    AssembledEntity(OrdersRows, Rows(OrdersColumnRows), 0);
    assert Has(m, "public", "orders") && m["public"]["orders"] == OrdersTable;
    AssembledKeys(OrdersRows, Rows(OrdersColumnRows));
    assert EntityKeys(OrdersRows) == {("public", "orders")};
    assert m.Keys == {"public"};
    forall n | n in m["public"] ensures n == "orders" {
      assert Has(m, "public", n);
    }
    assert m["public"] == map["orders" := OrdersTable];
  }

  /** A map with one schema holding one entity flattens to exactly that. */
  lemma FlattensSingleton(m: SchemaMap, schemas: seq<Schema>, orders: seq<seq<string>>, s: string, n: string, e: Entity)
    requires m == map[s := map[n := e]]
    requires Flattens(m, schemas, orders)
    ensures schemas == [Schema(s, [e])]
  {
    SingleKeyOrder(m, SchemaNames(schemas), s);
    assert |schemas| == 1 && schemas[0].name == s;
    assert Lists(m[s], schemas[0].entities, orders[0]);
    SingleKeyOrder(m[s], orders[0], n);
    assert schemas[0].entities == [e];
  }

  /**
   * One table with two columns: whatever order the map is flattened in, the
   * description is the schema "public" with the table "orders" and its
   * columns "id" (primary key) and "total", in that order.
   */
  lemma OrdersScenario(schemas: seq<Schema>, orders: seq<seq<string>>)
    requires Flattens(Assemble(Rows(OrdersRows), Rows(OrdersColumnRows)), schemas, orders)
    ensures schemas == [Schema("public", [Entity("public", "orders", "table",
      [Column("public", "orders", "id", "integer", "", true, false),
       Column("public", "orders", "total", "numeric", "", false, false)], "")])]
  {
    OrdersMap();
    FlattensSingleton(Assemble(Rows(OrdersRows), Rows(OrdersColumnRows)), schemas, orders, "public", "orders", OrdersTable);
  }

  /** The only order of a one-key map is that key. */
  lemma SingleKeyOrder<V>(m: map<string, V>, keys: seq<string>, k: string)
    requires m.Keys == {k} && IsKeyOrder(m, keys)
    ensures keys == [k]
  {
    KeyOrderLength(m, keys);
    assert |m| == |m.Keys| == 1;
    assert keys[0] in m;
  }
}
