# db-descriptor: catalog assembly, modelled in Dafny

db-descriptor reads the catalog of a relational database (Postgres for now)
and produces a description of it: a list of schemas, each holding its
entities (tables and views), each entity holding its columns. This project
models the part of the program that builds that description from the rows
of two catalog queries, plus three helpers around it.

- `text.dfy`, module `Text`: the string functions the code relies on.
  `strings.ToLower` is modelled on ASCII letters. `strings.Contains` is a
  left-to-right substring search, proved equal to "occurs at some index".
  `strings.Join` is also here.
- `model.dfy`, module `Model`: the `Column`, `Entity`, `Schema` and
  `DatabaseDescription` records. It also holds `Schema.GetEntitiesByType`
  (a loop that keeps the entities of one type, ignoring case) and
  `DatabaseDescription.String` (three nested loops writing the tab-indented
  listing). Each loop is a method proved against a recursive specification
  function. The lemmas are about those functions.
- `connector.dfy`, module `Connector`: `getFormattedSchemaList`, which quotes
  every schema name and joins them with commas.
- `extractor.dfy`, module `Extractor`: the assembly pipeline.
  - Row normalisation: `processType`, and the per-row bodies of
    `processEntityRows` and `processColumnRows`.
  - The working map schema name -> entity name -> entity. It is a class
    `DataMap` whose `PopulateEntities` and `PopulateColumns` update it in
    place. Each is proved against a fold (`AddEntities`, `AddColumns`).
  - `buildSchemeList`, which flattens the map.
  - `ExtractDescription`, which runs these steps in their fixed order:
    entities, then columns, then flattening.

A query is not run. Its outcome is an input: `Rows(rows)` or `QueryError`.
A column row's nullable fields are `Option` values. Go's map iteration order
is unspecified, so `BuildSchemeList` takes keys in an arbitrary order (`:|`).
Its contract holds for every order: each map key gives exactly one schema,
and each schema lists exactly its bucket's entities. A ghost key order
witnesses this.

Points where the model records what the code does rather than what its
types or names suggest:
- `Column` carries `isPrimaryKey` and `isForeignKey`. The extractor sets
  both fields (internal/extractor/db_description_extractor.go:182-183),
  although the `Column` struct in pkg/model/column.go:9-15 does not declare
  them.
- An entity's type is a free string. Besides "view" and "table", any other
  catalog kind is kept, lower-cased.
- An entity row's comment is a plain string, not a nullable one. The code
  scans it into a `string` (db_description_extractor.go:115-117).
- An entity does not deduplicate its columns. The code appends one column
  per row (db_description_extractor.go:75), so two identical column rows
  give two copies. `AddColumnsShape` and `AssembledEntity` state exactly
  which columns an entity gets: those naming it, in arrival order.

## Model

| member | source | states |
|---|---|---|
| `Text.ToLower` | internal/extractor/db_description_extractor.go:157-159 | strings.ToLower on ASCII letters: the result has the input's length and no upper-case letter |
| `Text.Contains` | internal/extractor/db_description_extractor.go:207-209 | strings.Contains as a left-to-right scan; `ContainsIff` ties it to "occurs at some index" |
| `Text.Join` | pkg/connector/utils.go:12 | strings.Join: "" for no parts, one part as itself, otherwise the parts with the separator between neighbours; `JoinLength` and `JoinSnoc` state its shape |
| `Text.ToLowerIdempotent` | internal/extractor/db_description_extractor.go:122-123 | lower-casing twice is lower-casing once, so keys built from lower-cased identifiers are stable |
| `Text.ContainsIff` | internal/extractor/db_description_extractor.go:207-209 | the substring search succeeds exactly when the substring occurs at some index |
| `Text.JoinLength` | pkg/connector/utils.go:12 | a join of n ≥ 1 parts is as long as the parts plus n - 1 separators |
| `Model.FilterByType` | pkg/model/schema.go:19-25 | the entities whose type equals the argument once both are lower-cased, in their order; the partner of `GetEntitiesByType`, with `FilterSound`, `FilterComplete`, `FilterAppend` and `FilterIgnoresCase` |
| `Model.GetEntitiesByType` | pkg/model/schema.go:18-26 | the loop returns exactly the filter of the schema's entities by type, ignoring case |
| `Model.FilterAppend` | pkg/model/schema.go:19-25 | filtering keeps relative order: the filter of a concatenation is the concatenation of the filters |
| `Model.FilterSound` | pkg/model/schema.go:20-24 | every returned entity comes from the schema and has the requested type ignoring case; the result is no longer than the input |
| `Model.FilterComplete` | pkg/model/schema.go:20-24 | every entity of the requested type (ignoring case) is returned |
| `Model.FilterIgnoresCase` | pkg/model/schema.go:21 | two type arguments that differ only in case ("VIEW", "view") give the same result |
| `Model.Listing` | pkg/model/database_description.go:22-30 | each schema's name line, then per entity a tab-indented name line, then per column a two-tab name line; the partner of `DescriptionString`, with `ListingAppend`, `ListingPerSchema` and `ListingLineCount` |
| `Model.DescriptionString` | pkg/model/database_description.go:19-33 | the three nested loops build exactly the listing of the schemas; no schemas give the empty string |
| `Model.ListingAppend` | pkg/model/database_description.go:22-30 | the listing of two schema lists one after the other is the two listings one after the other |
| `Model.ListingPerSchema` | pkg/model/database_description.go:22-30 | the listing is the first schema's own listing followed by the rest's, so output order follows list order |
| `Model.ListingLineCount` | pkg/model/database_description.go:22-30 | with no line break inside a name, the listing has one line per schema, per entity and per column |
| `Connector.QuoteAll` | pkg/connector/utils.go:8-11 | every name wrapped in single quotes, in order, nothing escaped |
| `Connector.FormattedSchemaList` | pkg/connector/utils.go:7-12 | the quoted names joined by commas; the partner of `GetFormattedSchemaList`, with `FormattedSingle`, `FormattedSnoc`, `FormattedLength` and `FormattingIsNotInjective` |
| `Connector.GetFormattedSchemaList` | pkg/connector/utils.go:6-13 | the loop and join give the quoted names joined by commas in input order; an empty list gives "" |
| `Connector.FormattedSingle` | pkg/connector/utils.go:9-12 | one name comes back wrapped in single quotes and nothing else |
| `Connector.FormattedSnoc` | pkg/connector/utils.go:8-12 | one more name adds a comma and that quoted name at the end |
| `Connector.FormattedLength` | pkg/connector/utils.go:9-12 | the output length is the name lengths plus two quotes per name plus n - 1 commas: nothing is escaped or dropped |
| `Connector.FormattingIsNotInjective` | pkg/connector/utils.go:9 | since embedded quotes are not escaped, the one name `a','b` and the two names `a`, `b` format identically |
| `Extractor.ProcessType` | internal/extractor/db_description_extractor.go:205-213 | the classified type is always lower case |
| `Extractor.ProcessTypeClassifies` | internal/extractor/db_description_extractor.go:205-213 | "view" exactly when the lower-cased input contains "view" (even with "table"); "table" exactly when it contains "table" but not "view"; otherwise the lower-cased input |
| `Extractor.ProcessTypeIdempotent` | internal/extractor/db_description_extractor.go:205-213 | classifying an already classified type changes nothing |
| `Extractor.ProcessTypeBaseTable` | internal/extractor/db_description_extractor.go:209-210 | "BASE TABLE" is classified as "table" |
| `Extractor.ProcessTypeForeignTable` | internal/extractor/db_description_extractor.go:209-210 | "FOREIGN TABLE" is classified as "table" |
| `Extractor.ProcessTypeView` | internal/extractor/db_description_extractor.go:207-208 | "VIEW" is classified as "view" |
| `Extractor.ProcessTypeOther` | internal/extractor/db_description_extractor.go:206-212 | "SEQUENCE" passes through as "sequence" |
| `Extractor.NormalizeEntity` | internal/extractor/db_description_extractor.go:122-131 | schema and name are lower case and equal to the row's ignoring case; the type is the classified one; the comment is kept verbatim; the column list is empty |
| `Extractor.NormalizeColumn` | internal/extractor/db_description_extractor.go:157-183 | schema, entity and column names are lower case and equal to the row's ignoring case; the data type is verbatim; a NULL comment becomes ""; each key flag is true exactly when the row says true, so NULL becomes false |
| `Extractor.NormalizeEntityIdempotent` | internal/extractor/db_description_extractor.go:122-131 | normalising an already normalised entity row gives the same entity |
| `Extractor.NormalizeColumnIdempotent` | internal/extractor/db_description_extractor.go:157-183 | normalising an already normalised column row gives the same column |
| `Extractor.ProcessEntityRows` | internal/extractor/db_description_extractor.go:109-137 | one entity per row, each the normalised row, in row order |
| `Extractor.ProcessColumnRows` | internal/extractor/db_description_extractor.go:140-189 | one column per row, each the normalised row, in row order |
| `Extractor.GetEntitiesList` | internal/extractor/db_description_extractor.go:83-90 | a failed query stays a failure; otherwise the result is the normalised rows |
| `Extractor.GetColumnsList` | internal/extractor/db_description_extractor.go:93-100 | a failed query stays a failure; otherwise the result is the normalised rows |
| `Extractor.InsertEntity` | internal/extractor/db_description_extractor.go:56-62 | one step of populateEntities: create the schema's bucket if missing, then store the entity under its name, replacing any entity with that key |
| `Extractor.AddEntities` | internal/extractor/db_description_extractor.go:55-63 | the entities stored one after the other; the fold `StoreEntities` is proved equal to, with `AddEntitiesSchemas`, `AddEntitiesPresent`, `AddEntitiesLastWins` and `AddEntitiesUntouched` |
| `Extractor.AttachColumn` | internal/extractor/db_description_extractor.go:73-76 | one step of populateColumns: append the column to the entity it names if that entity is stored, otherwise change nothing |
| `Extractor.AddColumns` | internal/extractor/db_description_extractor.go:71-78 | the columns attached one after the other; the fold `StoreColumns` is proved equal to, with `AddColumnsShape` and `OrphanDropped` |
| `Extractor.ColumnsOf` | internal/extractor/db_description_extractor.go:73-75 | the arriving columns that name one entity, in arrival order; `ColumnsOfMembers` states its members |
| `Extractor.DataMap.constructor` | internal/extractor/db_description_extractor.go:39 | the working map starts empty |
| `Extractor.DataMap.PopulateEntities` | internal/extractor/db_description_extractor.go:52-65 | after a successful query the map is the old map with every entity stored in turn; after a failed query it is unchanged |
| `Extractor.DataMap.StoreEntities` | internal/extractor/db_description_extractor.go:55-63 | the loop leaves the map equal to the old map with each entity stored in turn, its schema bucket created on first use and a later entity replacing an earlier one with the same key |
| `Extractor.DataMap.PopulateColumns` | internal/extractor/db_description_extractor.go:68-80 | after a successful query the map is the old map with every column attached in turn; after a failed query it is unchanged |
| `Extractor.DataMap.StoreColumns` | internal/extractor/db_description_extractor.go:71-78 | the loop leaves the map equal to the old map with each column appended to the entity it names, and a column with no stored entity skipped |
| `Extractor.ColumnsOfMembers` | internal/extractor/db_description_extractor.go:73-76 | the columns an entity receives are exactly the arriving columns that name it |
| `Extractor.AddEntitiesSchemas` | internal/extractor/db_description_extractor.go:56-61 | the schema buckets afterwards are the old ones plus one for each entity's schema |
| `Extractor.AddEntitiesPresent` | internal/extractor/db_description_extractor.go:55-63 | every input entity's key is present afterwards |
| `Extractor.AddEntitiesLastWins` | internal/extractor/db_description_extractor.go:62 | the entity stored under a key is the last input entity with that key |
| `Extractor.AddEntitiesUntouched` | internal/extractor/db_description_extractor.go:53-64 | an entity key that no input names keeps its presence and its value |
| `Extractor.AddEntitiesSchemaUntouched` | internal/extractor/db_description_extractor.go:56-62 | a schema bucket that no input names is left exactly as it was |
| `Extractor.AddColumnsShape` | internal/extractor/db_description_extractor.go:69-79 | the column pass adds no schema and no entity key; each entity gets the columns that name it appended in arrival order, and its other fields stay the same |
| `Extractor.OrphanDropped` | internal/extractor/db_description_extractor.go:73-77 | a column whose entity is absent is attached to no entity |
| `Extractor.ColumnsWithoutEntities` | internal/extractor/db_description_extractor.go:41-43 | columns loaded into an empty map are all dropped, which is why entities are loaded first |
| `Extractor.KeyOrderLength` | internal/extractor/db_description_extractor.go:194 | a list that names every key of a map exactly once is as long as the map is large |
| `Extractor.SumSizesIsEntryCount` | internal/extractor/db_description_extractor.go:194-198 | summing the bucket sizes in any key order counts every entry of the map |
| `Extractor.FlattenedEntityCount` | internal/extractor/db_description_extractor.go:191-203 | a flattened map has one schema per key and, over all schemas, as many entities as the map has entries |
| `Extractor.CollectEntities` | internal/extractor/db_description_extractor.go:195-198 | the inner loop lists each entity of the bucket exactly once, in some key order |
| `Extractor.FlattenedStep` | internal/extractor/db_description_extractor.go:194-201 | turning one more untaken bucket into a schema keeps the schemas built so far distinct, each listing exactly its own bucket |
| `Extractor.FlattenedDone` | internal/extractor/db_description_extractor.go:191-203 | once every key is taken, the schemas built are a flattening of the whole map |
| `Extractor.BuildSchemeList` | internal/extractor/db_description_extractor.go:191-203 | one schema per map key, named by it and holding exactly that bucket's entities in some order; total entity count equals the number of map entries |
| `Extractor.Assemble` | internal/extractor/db_description_extractor.go:39-43 | an empty map, loaded with the entity rows if that query succeeded, then with the column rows if that query succeeded; the partner of `ExtractDescription`, with the `Assembled*` lemmas |
| `Extractor.ExtractDescription` | internal/extractor/db_description_extractor.go:31-49 | the description flattens the map built by loading entities, then columns, into an empty map |
| `Extractor.AddEntitiesWellKeyed` | internal/extractor/db_description_extractor.go:62 | storing column-less entities under their own keys keeps every entity under its own key |
| `Extractor.AddColumnsWellKeyed` | internal/extractor/db_description_extractor.go:73-76 | the column pass only attaches a column to the entity it names |
| `Extractor.AssembleWellKeyed` | internal/extractor/db_description_extractor.go:41-43 | in the assembled map, every entity sits under its own key and every attached column names that entity |
| `Extractor.AssembledKeys` | internal/extractor/db_description_extractor.go:41-43 | the assembled map has a bucket exactly for the entity rows' schemas and an entity exactly for their keys |
| `Extractor.AssembledEntity` | internal/extractor/db_description_extractor.go:41-43 | the stored entity is the last entity row with its key, normalised, with the columns naming it in arrival order (none if the column query failed) |
| `Extractor.ColumnsQueryFailed` | internal/extractor/db_description_extractor.go:69-70 | if the columns query fails, the entities present are exactly those of the entity rows, and each has no columns |
| `Extractor.EntitiesQueryFailed` | internal/extractor/db_description_extractor.go:53-54 | if the entities query fails, the map stays empty and every column is dropped |
| `Extractor.AssembledOrphan` | internal/extractor/db_description_extractor.go:72-77 | a column row whose entity no entity row names ends up in no entity |
| `Extractor.AttachIgnoringCase` | internal/extractor/db_description_extractor.go:157-158 | for any entity and column streams, a column row attaches to the entity of every entity row whose schema and name differ from its own only in case |
| `Extractor.AttachIgnoringCaseExample` | internal/extractor/db_description_extractor.go:122-123 | "PUBLIC"."USERS"."Id" attaches, as column "id" and the only one, to the entity row ("Public", "Users") |
| `Extractor.OrdersMap` | internal/extractor/db_description_extractor.go:41-43 | one BASE TABLE row and two column rows give one bucket holding the table with both columns |
| `Extractor.FlattensSingleton` | internal/extractor/db_description_extractor.go:191-203 | a map with one schema holding one entity flattens to exactly that schema with that entity |
| `Extractor.OrdersScenario` | internal/extractor/db_description_extractor.go:31-49 | for that input the description is schema "public" with table "orders" and columns "id" (primary key) then "total", whatever the map order |

## Left out

- Database access is not modelled: the connection, `db.Ping`, `db.Query`,
  iterating and scanning `sql.Rows`, and `db.Close`. These are driver I/O.
  Query outcomes and rows are inputs instead.
- `validateConnection`'s `log.Fatal` and the `panic` on a scan error are not
  modelled. They end the process. The model assumes every row scanned.
- The log lines written by `ExtractDescription` are not modelled.
- The Postgres query texts and their `[SCHEMAS]` substitution are not
  modelled. Their meaning lives in the database engine. Only the schema-list
  formatter they use is modelled.
- Relations are not modelled. `pkg/model/relation.go` is only a struct, and
  `ExtractDescription` never runs the relations query.
- `Entity.String` is not modelled. Its output depends on how Go's `fmt`
  formats `%+v` of a slice.
- Also not modelled: CLI flag parsing, JSON output and file writing, and
  `getDBConnector`'s choice of connector.
- `Text.ToLower`: only ASCII letters are lower-cased. Go's `strings.ToLower`
  also lower-cases non-ASCII letters.
- `Extractor.DataMap.PopulateEntities`: the inner Go maps are references.
  The model treats them as values. Each bucket is reachable only through its
  schema key, so no aliasing is lost.
- `Extractor.BuildSchemeList`: no particular order of schemas or entities is
  promised. The Go map's iteration order is unspecified.
- `Model.GetEntitiesByType`: the nil-versus-empty-slice distinction of Go is
  not modelled. Both are the empty sequence.
