/**
 * The description tree produced by the extractor: a database description
 * holds schemas, a schema holds entities (tables and views), an entity holds
 * columns. Also the two helpers defined on it: filtering a schema's entities
 * by type, and the indented text listing of a whole description.
 */
module Model {
  import opened Text

  /**
   * A column. The primary- and foreign-key flags are part of the record the
   * extractor builds for every column row.
   */
  datatype Column = Column(
    schemaName: string,
    entityName: string,
    name: string,
    dataType: string,
    comment: string,
    isPrimaryKey: bool,
    isForeignKey: bool)

  /** A table, view or other catalog object, with its columns in arrival order. */
  datatype Entity = Entity(
    schemaName: string,
    name: string,
    entityType: string,
    columns: seq<Column>,
    comment: string)

  /** A namespace and the entities that belong to it. */
  datatype Schema = Schema(name: string, entities: seq<Entity>)

  /** The root of the description: the list of schemas. */
  datatype DatabaseDescription = DatabaseDescription(schemas: seq<Schema>)

  // ---------------------------------------------------------------------
  // Filtering entities by type
  // ---------------------------------------------------------------------

  /** Does the entity's type equal `entityType`, ignoring case? */
  predicate HasType(e: Entity, entityType: string) {
    EqualIgnoringCase(entityType, e.entityType)
  }

  /** The entities of `es` whose type is `entityType` (ignoring case), in their order. */
  function FilterByType(es: seq<Entity>, entityType: string): seq<Entity>
    decreases |es|
  {
    if |es| == 0 then []
    else (if HasType(es[0], entityType) then [es[0]] else []) + FilterByType(es[1..], entityType)
  }

  /** Filtering a concatenation filters each part and keeps them in order. */
  lemma {:induction false} FilterAppend(a: seq<Entity>, b: seq<Entity>, entityType: string)
    ensures FilterByType(a + b, entityType) == FilterByType(a, entityType) + FilterByType(b, entityType)
    decreases |a|
  {
    if |a| == 0 {
      assert a + b == b;
    } else {
      assert (a + b)[0] == a[0];
      assert (a + b)[1..] == a[1..] + b;
      FilterAppend(a[1..], b, entityType);
      var head := if HasType(a[0], entityType) then [a[0]] else [];
      Concat3(head, FilterByType(a[1..], entityType), FilterByType(b, entityType));
    }
  }

  /** Only entities of the requested type are returned, and none is invented. */
  lemma {:induction false} FilterSound(es: seq<Entity>, entityType: string)
    ensures |FilterByType(es, entityType)| <= |es|
    ensures forall e :: e in FilterByType(es, entityType) ==> e in es && HasType(e, entityType)
    decreases |es|
  {
    if |es| > 0 {
      FilterSound(es[1..], entityType);
    }
  }

  /** Every entity of the requested type is returned. */
  lemma {:induction false} FilterComplete(es: seq<Entity>, entityType: string)
    ensures forall e :: e in es && HasType(e, entityType) ==> e in FilterByType(es, entityType)
    decreases |es|
  {
    if |es| > 0 {
      FilterComplete(es[1..], entityType);
      assert es == [es[0]] + es[1..];
    }
  }

  /** The case of the requested type does not matter. */
  lemma {:induction false} FilterIgnoresCase(es: seq<Entity>, t1: string, t2: string)
    requires EqualIgnoringCase(t1, t2)
    ensures FilterByType(es, t1) == FilterByType(es, t2)
    decreases |es|
  {
    if |es| > 0 {
      FilterIgnoresCase(es[1..], t1, t2);
    }
  }

  /** Schema.GetEntitiesByType: scans the entities and keeps those of the requested type. */
  method GetEntitiesByType(s: Schema, entityType: string) returns (filtered: seq<Entity>)
    ensures filtered == FilterByType(s.entities, entityType)
  {
    filtered := [];
    for i := 0 to |s.entities|
      invariant filtered == FilterByType(s.entities[..i], entityType)
    {
      var e := s.entities[i];
      FilterAppend(s.entities[..i], [e], entityType);
      assert s.entities[..i + 1] == s.entities[..i] + [e];
      if ToLower(entityType) == ToLower(e.entityType) {
        filtered := filtered + [e];
      }
    }
    assert s.entities[..|s.entities|] == s.entities;
  }

  // ---------------------------------------------------------------------
  // Text listing of a description
  // ---------------------------------------------------------------------

  /** A column's line, indented by two tabs. */
  function ColumnLine(c: Column): string {
    "\t\t" + c.name + "\n"
  }

  /** An entity's own line, indented by one tab. */
  function EntityLine(e: Entity): string {
    "\t" + e.name + "\n"
  }

  /** A schema's own line, not indented. */
  function SchemaLine(s: Schema): string {
    s.name + "\n"
  }

  function ColumnLines(cs: seq<Column>): string
    decreases |cs|
  {
    if |cs| == 0 then "" else ColumnLines(cs[..|cs| - 1]) + ColumnLine(cs[|cs| - 1])
  }

  /** The entity's own line followed by its column lines. */
  function EntityBlock(e: Entity): string {
    EntityLine(e) + ColumnLines(e.columns)
  }

  function EntityLines(es: seq<Entity>): string
    decreases |es|
  {
    if |es| == 0 then "" else EntityLines(es[..|es| - 1]) + EntityBlock(es[|es| - 1])
  }

  /** The schema's own line followed by its entities' blocks. */
  function SchemaBlock(s: Schema): string {
    SchemaLine(s) + EntityLines(s.entities)
  }

  /** The listing of a sequence of schemas, in order. */
  function Listing(ss: seq<Schema>): string
    decreases |ss|
  {
    if |ss| == 0 then "" else Listing(ss[..|ss| - 1]) + SchemaBlock(ss[|ss| - 1])
  }

  /** DatabaseDescription.String: three nested loops write into a growing buffer. */
  method DescriptionString(d: DatabaseDescription) returns (r: string)
    ensures r == Listing(d.schemas)
    ensures |d.schemas| == 0 ==> r == ""
  {
    var sb := "";
    for i := 0 to |d.schemas|
      invariant sb == Listing(d.schemas[..i])
    {
      var schema := d.schemas[i];
      ghost var done := sb;
      sb := sb + (schema.name + "\n");
      for j := 0 to |schema.entities|
        invariant sb == (done + SchemaLine(schema)) + EntityLines(schema.entities[..j])
      {
        var entity := schema.entities[j];
        ghost var doneEntities := sb;
        sb := sb + ("\t" + entity.name + "\n");
        for k := 0 to |entity.columns|
          invariant sb == (doneEntities + EntityLine(entity)) + ColumnLines(entity.columns[..k])
        {
          var column := entity.columns[k];
          assert entity.columns[..k + 1][..k] == entity.columns[..k];
          Concat3(doneEntities + EntityLine(entity), ColumnLines(entity.columns[..k]), ColumnLine(column));
          sb := sb + ("\t\t" + column.name + "\n");
        }
        assert entity.columns[..|entity.columns|] == entity.columns;
        Concat3(doneEntities, EntityLine(entity), ColumnLines(entity.columns));
        assert schema.entities[..j + 1][..j] == schema.entities[..j];
        Concat3(done + SchemaLine(schema), EntityLines(schema.entities[..j]), EntityBlock(entity));
      }
      assert schema.entities[..|schema.entities|] == schema.entities;
      Concat3(done, SchemaLine(schema), EntityLines(schema.entities));
      assert d.schemas[..i + 1][..i] == d.schemas[..i];
    }
    assert d.schemas[..|d.schemas|] == d.schemas;
    r := sb;
  }

  lemma Concat3<T>(x: seq<T>, y: seq<T>, z: seq<T>)
    ensures (x + y) + z == x + (y + z)
  {
  }

  /** The listing of a concatenation is the concatenation of the listings. */
  lemma {:induction false} ListingAppend(a: seq<Schema>, b: seq<Schema>)
    ensures Listing(a + b) == Listing(a) + Listing(b)
    decreases |b|
  {
    if |b| == 0 {
      assert a + b == a;
    } else {
      var b', last := b[..|b| - 1], b[|b| - 1];
      assert (a + b)[..|a + b| - 1] == a + b';
      assert (a + b)[|a + b| - 1] == last;
      ListingAppend(a, b');
      calc {
        Listing(a + b);
        Listing(a + b') + SchemaBlock(last);
        (Listing(a) + Listing(b')) + SchemaBlock(last);
        { Concat3(Listing(a), Listing(b'), SchemaBlock(last)); }
        Listing(a) + (Listing(b') + SchemaBlock(last));
      }
    }
  }

  /** The listing is the listings of the single-schema descriptions, one after the other. */
  lemma {:induction false} ListingPerSchema(ss: seq<Schema>)
    ensures Listing(ss) == if |ss| == 0 then "" else Listing([ss[0]]) + Listing(ss[1..])
  {
    if |ss| > 0 {
      assert ss == [ss[0]] + ss[1..];
      ListingAppend([ss[0]], ss[1..]);
    }
  }

  // ---------------------------------------------------------------------
  // Counting
  // ---------------------------------------------------------------------

  /** Number of entities over all schemas. */
  function TotalEntities(ss: seq<Schema>): nat
    decreases |ss|
  {
    if |ss| == 0 then 0 else TotalEntities(ss[..|ss| - 1]) + |ss[|ss| - 1].entities|
  }

  function EntityColumnCount(es: seq<Entity>): nat
    decreases |es|
  {
    if |es| == 0 then 0 else EntityColumnCount(es[..|es| - 1]) + |es[|es| - 1].columns|
  }

  /** Number of columns over all entities of all schemas. */
  function TotalColumns(ss: seq<Schema>): nat
    decreases |ss|
  {
    if |ss| == 0 then 0 else TotalColumns(ss[..|ss| - 1]) + EntityColumnCount(ss[|ss| - 1].entities)
  }

  /** Number of line breaks in a string. */
  function Newlines(s: string): nat {
    multiset(s)['\n']
  }

  lemma NewlinesAppend(a: string, b: string)
    ensures Newlines(a + b) == Newlines(a) + Newlines(b)
  {
    assert multiset(a + b) == multiset(a) + multiset(b);
  }

  lemma NameLine(prefix: string, name: string)
    requires '\n' !in prefix && '\n' !in name
    ensures Newlines(prefix + name + "\n") == 1
  {
    assert multiset(prefix + name + "\n") == multiset(prefix) + multiset(name) + multiset("\n");
    assert multiset(prefix)['\n'] == 0 && multiset(name)['\n'] == 0;
  }

  predicate ColumnNamesOneLine(cs: seq<Column>) {
    forall c :: c in cs ==> '\n' !in c.name
  }

  predicate EntityNamesOneLine(es: seq<Entity>) {
    forall e :: e in es ==> '\n' !in e.name && ColumnNamesOneLine(e.columns)
  }

  /** No name anywhere in the tree contains a line break. */
  predicate NoNewlineInNames(ss: seq<Schema>) {
    forall s :: s in ss ==> '\n' !in s.name && EntityNamesOneLine(s.entities)
  }

  lemma {:induction false} ColumnLineCount(cs: seq<Column>)
    requires ColumnNamesOneLine(cs)
    ensures Newlines(ColumnLines(cs)) == |cs|
    decreases |cs|
  {
    if |cs| > 0 {
      var c := cs[|cs| - 1];
      ColumnLineCount(cs[..|cs| - 1]);
      NameLine("\t\t", c.name);
      NewlinesAppend(ColumnLines(cs[..|cs| - 1]), ColumnLine(c));
    }
  }

  lemma {:induction false} EntityLineCount(es: seq<Entity>)
    requires EntityNamesOneLine(es)
    ensures Newlines(EntityLines(es)) == |es| + EntityColumnCount(es)
    decreases |es|
  {
    if |es| > 0 {
      var e := es[|es| - 1];
      EntityLineCount(es[..|es| - 1]);
      ColumnLineCount(e.columns);
      NameLine("\t", e.name);
      NewlinesAppend(EntityLine(e), ColumnLines(e.columns));
      NewlinesAppend(EntityLines(es[..|es| - 1]), EntityBlock(e));
    }
  }

  /** With no line break inside a name, the listing has one line per schema, entity and column. */
  lemma {:induction false} ListingLineCount(ss: seq<Schema>)
    requires NoNewlineInNames(ss)
    ensures Newlines(Listing(ss)) == |ss| + TotalEntities(ss) + TotalColumns(ss)
    decreases |ss|
  {
    if |ss| > 0 {
      var init, s := ss[..|ss| - 1], ss[|ss| - 1];
      assert NoNewlineInNames(init) by {
        forall x | x in init ensures x in ss { }
      }
      assert s in ss;
      ListingLineCount(init);
      EntityLineCount(s.entities);
      NewlinesAppend(s.name, "\n");
      assert multiset(s.name)['\n'] == 0;
      NewlinesAppend(SchemaLine(s), EntityLines(s.entities));
      NewlinesAppend(Listing(init), SchemaBlock(s));
      assert Listing(ss) == Listing(init) + SchemaBlock(s);
      assert TotalEntities(ss) == TotalEntities(init) + |s.entities|;
      assert TotalColumns(ss) == TotalColumns(init) + EntityColumnCount(s.entities);
    }
  }
}
