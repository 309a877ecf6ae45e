# SELECT binder of MiniOB, modelled in Dafny

This project models the SELECT-statement binder of the MiniOB query engine:
`SelectStmt::create` and its helper `wildcard_fields` in
`miniobtest-test2/src/observer/sql/stmt/select_stmt.cpp`. The binder takes a
parsed SELECT (a FROM list of relation names, a projection list of
attributes, and WHERE conditions) and a database handle. It then does one of
two things. It either returns a bound statement, or it returns the first
error code it meets. A bound statement holds the table list, the
`(table, field, aggregation)` list, the filter and the aggregate flag.

Modules, one per concern:

- `Wrappers` (`wrappers.dfy`): `Option` and `Result`.
- `Common` (`common.dfy`): the return codes `RC` and `IsBlank` (`common::is_blank`).
- `Catalog` (`catalog.dfy`): a table is its name, its field names in
  declaration order and its number of leading system fields. The database is
  a map from name to table. `FindTable` stands for `Db::find_table`.
  `FieldByName` stands for `TableMeta::field(name)` and gives the first field
  with that name. `field(i)` is indexing into the field list.
- `ParseDefs` (`parse_defs.dfy`): `AggregationType`, `RelAttrSqlNode`, `SelectSqlNode`.
- `SelectSpec` (`select_spec.dfy`): what binding computes, as functions.
  `Wildcard` and `WildcardAll` give the wildcard expansions. `Expansion`
  expands one attribute. `Step` is one turn of the projection loop (shape
  check, flag update, mixing check, expansion). `Visit` is the loop from the
  last attribute to the first. `FromClause` resolves the FROM list.
  `DefaultTable` picks the default table, and `Bind` is the whole bind.
  `Expansions` is the reference projection order: each attribute's
  expansion, from the last attribute to the first.
- `SelectBinder` (`select_binder.dfy`): the binder written imperatively, as
  the source runs it. It has the FROM loop that pushes tables and inserts
  into the name map, the reverse loop over attributes with its two flags, and
  the loops that push wildcard fields. Each method is proved equal to its
  function in `SelectSpec`.
- `SelectProperties` (`select_properties.dfy`): the properties the binder
  promises, proved about those functions.

The filter binder `FilterStmt::create` is not part of this model. It is the
parameter `filterCreate` of `Bind` and `Create`, a function from the
database, the default table, the name map and the conditions to a code and a
filter. The condition type `C` and the filter type `F` are type parameters.
A null `db` is `None`.

Two behaviours are modelled as the code has them:

- The attributes are visited from the last to the first
  (`select_stmt.cpp:83`), and each one's fields are appended in that order.
  So the projection comes out in reverse of the order of
  `select_sql.attributes`. `VisitSound`,
  `VisitComplete` and `BindSuccess` state this through `Expansions`.
- The name map is filled with `std::unordered_map::insert`
  (`select_stmt.cpp:77`). An insert never overwrites, so a repeated FROM name
  keeps its first table (`FromClauseFirstWins`). A map in which the last
  insertion wins would be identical, because every insertion for a name
  stores the catalog's one entry for that name (`FromClauseLookup`).

Binding is deterministic. `Create` is proved equal to the function `Bind`,
so two binds of the same database and the same SELECT give equal results.

## Model

| member | source | states |
|---|---|---|
| `SelectBinder.WildcardFields` | miniobtest-test2/src/observer/sql/stmt/select_stmt.cpp:33-46 | appends exactly `Wildcard(table, aggr)` to the list; what was already in the list is kept as it was |
| `SelectProperties.WildcardContents` | miniobtest-test2/src/observer/sql/stmt/select_stmt.cpp:33-46 | with `count(*)`, one entry for field 0; otherwise `|fields| - sysFieldNum` entries (none if that is negative), for indices `sysFieldNum ..` in increasing order, each tagged with the given aggregation |
| `SelectProperties.FieldRangeContents` | miniobtest-test2/src/observer/sql/stmt/select_stmt.cpp:42-45 | the index loop lists each field from `lo` to the last exactly once, in order |
| `SelectBinder.WildcardFieldsAll` | miniobtest-test2/src/observer/sql/stmt/select_stmt.cpp:118 | the loop over all tables appends every table's wildcard expansion, in table-list order |
| `SelectProperties.WildcardAllFields` | miniobtest-test2/src/observer/sql/stmt/select_stmt.cpp:118 | every field a wildcard over the tables yields comes from one of those tables and carries the requested aggregation; it is field 0 for `count(*)` and a user field otherwise |
| `SelectProperties.WildcardAllCountAll` | miniobtest-test2/src/observer/sql/stmt/select_stmt.cpp:37-41 | `count(*)` over the FROM list gives one placeholder per table, in table order |
| `SelectBinder.CollectTables` | miniobtest-test2/src/observer/sql/stmt/select_stmt.cpp:56-78 | the FROM loop returns exactly `FromClause`: the first missing name stops it; otherwise every table is pushed in order and a name is inserted only if absent |
| `SelectSpec.FromClause` | miniobtest-test2/src/observer/sql/stmt/select_stmt.cpp:59-78 | fails only with SCHEMA_TABLE_NOT_EXIST; on success there is one table per FROM name |
| `SelectProperties.FromClauseMissing` | miniobtest-test2/src/observer/sql/stmt/select_stmt.cpp:69-74 | FROM resolution fails if and only if some FROM name is not in the catalog |
| `SelectProperties.FromClauseTables` | miniobtest-test2/src/observer/sql/stmt/select_stmt.cpp:69-76 | on success table `i` is the catalog entry for FROM name `i`, so repeated names give repeated tables |
| `SelectProperties.FromClauseLookup` | miniobtest-test2/src/observer/sql/stmt/select_stmt.cpp:77 | the name map holds exactly the FROM names; each maps to its catalog entry, which is one of the tables |
| `SelectProperties.FromClauseFirstWins` | miniobtest-test2/src/observer/sql/stmt/select_stmt.cpp:77 | at the first occurrence `i` of a name in FROM, the name is in the lookup and maps to table `i`; later occurrences leave that entry unchanged |
| `SelectSpec.Expansion` | miniobtest-test2/src/observer/sql/stmt/select_stmt.cpp:110-185 | expanding one attribute fails only with INVALID_ARGUMENT or SCHEMA_FIELD_MISSING |
| `SelectProperties.ExpansionCases` | miniobtest-test2/src/observer/sql/stmt/select_stmt.cpp:110-185 | bare `*` and `*.*` expand every table, and only with `count(*)` or no aggregation; other tags give INVALID_ARGUMENT. `*.x` gives SCHEMA_FIELD_MISSING. `t.*` and `t.f` with `t` not in FROM give SCHEMA_FIELD_MISSING. `t.*` expands only `t`. `t.f` succeeds if and only if `f` is a field of `t`, and then gives one entry for the first field so named; otherwise it gives SCHEMA_FIELD_MISSING. Unqualified `f` succeeds if and only if there is exactly one table and `f` is among its fields; otherwise (no single table, or no such field) it gives SCHEMA_FIELD_MISSING |
| `SelectProperties.ExpansionFields` | miniobtest-test2/src/observer/sql/stmt/select_stmt.cpp:159-184 | when every table has a field, each field an attribute expands to is in one of the FROM tables, its index is in range, and it carries the attribute's aggregation |
| `SelectProperties.ExpansionsFields` | miniobtest-test2/src/observer/sql/stmt/select_stmt.cpp:83-186 | the same holds of the whole projection |
| `SelectBinder.ExpandAttribute` | miniobtest-test2/src/observer/sql/stmt/select_stmt.cpp:110-185 | the branch tree for one attribute appends exactly that attribute's expansion, or returns its error |
| `SelectSpec.Step` | miniobtest-test2/src/observer/sql/stmt/select_stmt.cpp:85-185 | one loop turn never fails with SUCCESS and never accepts a state in which both flags are set |
| `SelectSpec.Visit` | miniobtest-test2/src/observer/sql/stmt/select_stmt.cpp:83-186 | the reverse loop never fails with SUCCESS and never shortens the field list |
| `SelectBinder.CollectQueryFields` | miniobtest-test2/src/observer/sql/stmt/select_stmt.cpp:80-186 | the reverse loop over the attributes, with its two flags and early returns, computes exactly `Visit` from the empty state |
| `SelectProperties.VisitSound` | miniobtest-test2/src/observer/sql/stmt/select_stmt.cpp:83-186 | an accepted projection has only well-shaped attributes and does not mix kinds. Its aggregate flag is set exactly when some attribute is aggregated, and its plain flag exactly when some attribute is plain. Its fields are each attribute's expansion, from the last attribute to the first |
| `SelectProperties.VisitComplete` | miniobtest-test2/src/observer/sql/stmt/select_stmt.cpp:83-186 | a well-shaped, unmixed projection whose attributes all expand is accepted, with exactly those fields and flags |
| `SelectProperties.VisitSplit` | miniobtest-test2/src/observer/sql/stmt/select_stmt.cpp:83 | visiting `p + s` visits the later part `s` first, then `p` from the state `s` left |
| `SelectProperties.FirstFailure` | miniobtest-test2/src/observer/sql/stmt/select_stmt.cpp:83-186 | for a projection `p + [a] + s`: if the attributes `s` after `a` are accepted and `a` then fails with `rc`, the loop returns `rc`, whatever `p` holds |
| `SelectProperties.InvalidShapeRejected` | miniobtest-test2/src/observer/sql/stmt/select_stmt.cpp:87-100 | an attribute with `ValidAgg` false that is reached without an earlier failure gives NESTED_AGGREGATION for COMPOSITE, AGGREGATION_UNMATCHED for MULATTRS and INVALID_ARGUMENT for any other tag |
| `SelectProperties.MixingRejected` | miniobtest-test2/src/observer/sql/stmt/select_stmt.cpp:101-109 | the first attribute, in visiting order, that joins an aggregated and a plain attribute gives AGGREGATION_UNMATCHED, provided nothing failed before it |
| `SelectProperties.MixedRejected` | miniobtest-test2/src/observer/sql/stmt/select_stmt.cpp:101-109 | a well-shaped projection whose attributes all expand, but which has both aggregated and plain attributes, gives AGGREGATION_UNMATCHED whichever kind comes first |
| `SelectProperties.ExpansionRejected` | miniobtest-test2/src/observer/sql/stmt/select_stmt.cpp:110-185 | a well-shaped, non-mixing attribute that cannot be expanded, reached without an earlier failure, makes the loop return that attribute's expansion error |
| `SelectProperties.BindDefaultTable` | miniobtest-test2/src/observer/sql/stmt/select_stmt.cpp:190-206 | in a successful bind the filter binder was called with the catalog entry of the one FROM name as default table when FROM names exactly one relation, and with no default table otherwise; it succeeded, and the statement holds the filter it built |
| `SelectSpec.Bind` | miniobtest-test2/src/observer/sql/stmt/select_stmt.cpp:48-216 | a null `db` gives INVALID_ARGUMENT and no statement; a statement is produced exactly when the code is SUCCESS |
| `SelectBinder.Create` | miniobtest-test2/src/observer/sql/stmt/select_stmt.cpp:48-216 | `SelectStmt::create` returns exactly `Bind`'s code and statement; a null `db` gives INVALID_ARGUMENT and no statement; there is a statement exactly when the code is SUCCESS |
| `SelectProperties.BindSuccess` | miniobtest-test2/src/observer/sql/stmt/select_stmt.cpp:48-216 | a successful bind resolved every FROM name: the tables are the catalog entries in FROM order. The projection is well-shaped and unmixed, and `is_aggr_` is true exactly when some attribute is aggregated. The fields are each attribute's expansion, last attribute first, and are all valid when every catalog table has a field. The filter is the one built for the default table and the name map |
| `SelectProperties.BindComplete` | miniobtest-test2/src/observer/sql/stmt/select_stmt.cpp:48-216 | if every FROM name is in the catalog, the projection is well-shaped, unmixed and expands, and the filter binder succeeds, then the bind succeeds with exactly that statement |
| `SelectProperties.BindTableNotExist` | miniobtest-test2/src/observer/sql/stmt/select_stmt.cpp:69-74 | a FROM name missing from the catalog makes the bind return SCHEMA_TABLE_NOT_EXIST with no statement, whatever the attributes are |
| `SelectProperties.BindFilterFailure` | miniobtest-test2/src/observer/sql/stmt/select_stmt.cpp:196-206 | a failure code from the filter binder is returned unchanged, with no statement |

## Left out

- `FilterStmt::create` (lines 196-201) is not part of this model. It is the
  parameter `filterCreate`. The model only states what the binder passes to
  it and that a failure code from it is propagated.
- Ownership is not modelled. This covers the destructor's `delete filter_stmt_`
  (lines 24-31) and the `new SelectStmt()` and `swap` transfer
  (lines 208-214). The statement is built as a value.
- The parser that fills `select_sql.attributes` is not part of this model.
  The projection order is stated relative to that list, not to the order
  in which the attributes appear in the SQL text.
- Logging (`LOG_WARN`, `LOG_INFO`) is left out. It only writes output.
- The `nullptr == table_name` check (lines 63-67) is left out. `c_str()` is
  never null, so that branch cannot be reached.
- The catalog internals are not part of this model. `Db::find_table` is a
  map lookup. `TableMeta::field(name)` is taken to return the first field
  with that name. `TableMeta::field(i)` is indexing.
- A table is modelled by its metadata value, not by a pointer. Two distinct
  catalog tables with identical metadata cannot be told apart.
- `field(0)` on a table with no fields is undefined behaviour in C++. The
  model still returns index 0. Field validity is stated under
  `WellFormed(db)`, which says every table has at least one field.
- `common::is_blank` and `strcmp` are not shown. `IsBlank` means "every
  character is C white space", and `strcmp` is string equality. Strings with
  an embedded NUL character are not modelled.
- The source holds field and attribute counts in `int` (lines 36, 42
  and 83). The model uses
  unbounded integers, so lists longer than 2^31 - 1 elements are not
  modelled.
- The list of aggregation tags comes from a header that is not part of this
  model. `Count`, `Sum`, `Avg`, `Max` and `Min` stand for the aggregate
  functions. The binder only tests for `NOTAGG`, `F_COUNT_ALL`, `COMPOSITE`
  and `MULATTRS`.
- The source's `RC` enumeration has more codes than the binder produces
  itself. `OtherFailure(code)` stands for any other code the filter binder
  may return.
- SelectSpec.Visit: its contract says only that the field list never gets
  shorter. That the old fields are kept unchanged in front is proved for
  each step (`WildcardFields`, `ExpandAttribute`) and for the whole loop
  through `VisitSound`, not in `Visit`'s own contract.
