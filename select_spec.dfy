/** What binding a SELECT computes, as functions: the FROM list resolved
    against the catalog, each projected attribute expanded into bound fields,
    the aggregation flags, and the assembled statement. */
module SelectSpec {
  import opened Wrappers
  import opened Common
  import opened Catalog
  import opened ParseDefs

  /** A bound field: a table, the index of one of its fields, and the
      aggregation applied to it. */
  datatype Field = Field(table: Table, fieldIndex: nat, aggrType: AggregationType)

  /** The resolved FROM list: the tables in FROM order and the name lookup. */
  datatype FromList = FromList(tables: seq<Table>, tableMap: map<string, Table>)

  /** The state of the projection loop: the two flags and the fields so far. */
  datatype BindState = BindState(isAgg: bool, isCommon: bool, queryFields: seq<Field>)

  /** The bound statement; `F` is the filter built by the filter binder. */
  datatype SelectStmt<F> = SelectStmt(
    tables: seq<Table>,
    queryFields: seq<Field>,
    filterStmt: F,
    isAggr: bool)

  /** What the filter binder returns: a code and, on success, the filter. */
  datatype FilterResult<F> = FilterResult(rc: RC, filterStmt: F)

  /** The filter binder: catalog, default table, name lookup, conditions. */
  type FilterCreate<!C, F> = (Db, Option<Table>, map<string, Table>, seq<C>) -> FilterResult<F>

  /** What binding returns: a code and, exactly on success, a statement. */
  datatype Outcome<F> = Outcome(rc: RC, stmt: Option<SelectStmt<F>>)

  const Init := BindState(false, false, [])

  // ---------------------------------------------------------------------
  // Wildcard expansion

  /** The fields of `t` from index `lo` to the last, tagged with `aggr`. */
  function FieldRange(t: Table, lo: nat, aggr: AggregationType): seq<Field>
    decreases |t.fields| - lo
  {
    if lo < |t.fields| then [Field(t, lo, aggr)] + FieldRange(t, lo + 1, aggr) else []
  }

  /** What `wildcard_fields` appends for one table: one placeholder over the
      first field for `count(*)`, otherwise every user field in order. */
  function Wildcard(t: Table, aggr: AggregationType): seq<Field>
  {
    if aggr == CountAll then [Field(t, 0, aggr)] else FieldRange(t, t.sysFieldNum, aggr)
  }

  /** The expansion of a wildcard over every table, in table-list order. */
  function WildcardAll(tables: seq<Table>, aggr: AggregationType): seq<Field>
  {
    if |tables| == 0 then [] else Wildcard(tables[0], aggr) + WildcardAll(tables[1..], aggr)
  }

  // ---------------------------------------------------------------------
  // One projected attribute

  /** The aggregation tags a wildcard may carry. */
  predicate IsWildcardAggr(a: AggregationType)
  {
    a == CountAll || a == NotAgg
  }

  /** Bare `*`: no qualifier and attribute "*". */
  predicate IsBareStar(attr: RelAttrSqlNode)
  {
    IsBlank(attr.relationName) && attr.attributeName == "*"
  }

  /** A qualifier naming a table (neither blank nor "*"). */
  predicate IsTableQualified(attr: RelAttrSqlNode)
  {
    !IsBlank(attr.relationName) && attr.relationName != "*"
  }

  /** The code for an attribute the parser marked as badly shaped. */
  function ShapeError(a: AggregationType): (rc: RC)
    ensures rc != Success
  {
    if a == Composite then NestedAggregation
    else if a == MulAttrs then AggregationUnmatched
    else InvalidArgument
  }

  /** The bound fields one attribute stands for, or why it cannot be bound. */
  function Expansion(attr: RelAttrSqlNode, tables: seq<Table>, tableMap: map<string, Table>)
    : (r: Result<seq<Field>, RC>)
    ensures r.Err? ==> r.error == InvalidArgument || r.error == SchemaFieldMissing
  {
    assert !IsBlank("*") by { assert !IsSpace("*"[0]); }
    var aggr := attr.aggrType;
    if IsBareStar(attr) then
      if !IsWildcardAggr(aggr) then Err(InvalidArgument) else Ok(WildcardAll(tables, aggr))
    else if !IsBlank(attr.relationName) then
      if attr.relationName == "*" then
        if attr.attributeName != "*" then Err(SchemaFieldMissing)
        else if !IsWildcardAggr(aggr) then Err(InvalidArgument)
        else Ok(WildcardAll(tables, aggr))
      else if attr.relationName !in tableMap then Err(SchemaFieldMissing)
      else
        var table := tableMap[attr.relationName];
        if attr.attributeName == "*" then
          if !IsWildcardAggr(aggr) then Err(InvalidArgument) else Ok(Wildcard(table, aggr))
        else
          match FieldByName(table, attr.attributeName)
          case None => Err(SchemaFieldMissing)
          case Some(i) => Ok([Field(table, i, aggr)])
    else if |tables| != 1 then Err(SchemaFieldMissing)
    else
      match FieldByName(tables[0], attr.attributeName)
      case None => Err(SchemaFieldMissing)
      case Some(i) => Ok([Field(tables[0], i, aggr)])
  }

  /** One turn of the projection loop: the shape check, the flag update and
      the mixing check, then the attribute's expansion. */
  function Step(st: BindState, attr: RelAttrSqlNode, tables: seq<Table>, tableMap: map<string, Table>)
    : (r: Result<BindState, RC>)
    ensures r.Err? ==> r.error != Success
    ensures r.Ok? ==> !(r.value.isAgg && r.value.isCommon)
  {
    if !attr.validAgg then Err(ShapeError(attr.aggrType))
    else
      var isAgg := st.isAgg || attr.aggrType != NotAgg;
      var isCommon := st.isCommon || attr.aggrType == NotAgg;
      if isAgg && isCommon then Err(AggregationUnmatched)
      else match Expansion(attr, tables, tableMap)
        case Err(rc) => Err(rc)
        case Ok(fs) => Ok(BindState(isAgg, isCommon, st.queryFields + fs))
  }

  /** The projection loop from state `st`: the attributes are visited from
      the last to the first, and the first failure stops the loop. */
  function Visit(attrs: seq<RelAttrSqlNode>, tables: seq<Table>, tableMap: map<string, Table>, st: BindState)
    : (r: Result<BindState, RC>)
    ensures r.Err? ==> r.error != Success
    ensures r.Ok? ==> |r.value.queryFields| >= |st.queryFields|
    decreases |attrs|
  {
    if |attrs| == 0 then Ok(st)
    else match Step(st, attrs[|attrs| - 1], tables, tableMap)
      case Err(rc) => Err(rc)
      case Ok(st') => Visit(attrs[..|attrs| - 1], tables, tableMap, st')
  }

  /** Reference order of the projection: each attribute's expansion, taken
      from the last attribute to the first. */
  function Expansions(attrs: seq<RelAttrSqlNode>, tables: seq<Table>, tableMap: map<string, Table>)
    : Result<seq<Field>, RC>
  {
    if |attrs| == 0 then Ok([])
    else match Expansion(attrs[|attrs| - 1], tables, tableMap)
      case Err(rc) => Err(rc)
      case Ok(fs) =>
        match Expansions(attrs[..|attrs| - 1], tables, tableMap)
        case Err(rc) => Err(rc)
        case Ok(rest) => Ok(fs + rest)
  }

  /** A bound field names a table of the FROM list and one of its fields. */
  ghost predicate ValidField(f: Field, tables: seq<Table>)
  {
    f.table in tables && f.fieldIndex < |f.table.fields|
  }

  /** Some attribute is aggregated. */
  ghost predicate HasAgg(attrs: seq<RelAttrSqlNode>)
  {
    exists i :: 0 <= i < |attrs| && attrs[i].aggrType != NotAgg
  }

  /** Some attribute is plain. */
  ghost predicate HasPlain(attrs: seq<RelAttrSqlNode>)
  {
    exists i :: 0 <= i < |attrs| && attrs[i].aggrType == NotAgg
  }

  /** The parser marked every attribute's aggregation as well-shaped. */
  ghost predicate AllValidShape(attrs: seq<RelAttrSqlNode>)
  {
    forall i :: 0 <= i < |attrs| ==> attrs[i].validAgg
  }

  // ---------------------------------------------------------------------
  // The FROM list

  /** The FROM list resolved in order; a repeated name keeps the table of its
      first insertion in the lookup. */
  function FromClause(db: Db, relations: seq<string>): (r: Result<FromList, RC>)
    ensures r.Err? ==> r.error == SchemaTableNotExist
    ensures r.Ok? ==> |r.value.tables| == |relations|
  {
    if |relations| == 0 then Ok(FromList([], map[]))
    else match FromClause(db, relations[..|relations| - 1])
      case Err(rc) => Err(rc)
      case Ok(from) =>
        var name := relations[|relations| - 1];
        match FindTable(db, name)
        case None => Err(SchemaTableNotExist)
        case Some(t) =>
          Ok(FromList(from.tables + [t],
                      if name in from.tableMap then from.tableMap else from.tableMap[name := t]))
  }

  /** The table unqualified names refer to: the only one, if there is one. */
  function DefaultTable(tables: seq<Table>): Option<Table>
  {
    if |tables| == 1 then Some(tables[0]) else None
  }

  // ---------------------------------------------------------------------
  // The whole bind

  /** `SelectStmt::create`: resolve FROM, bind the projection, call the
      filter binder, assemble. The first failure is the result. */
  function Bind<C, F>(db: Option<Db>, sql: SelectSqlNode<C>, filterCreate: FilterCreate<C, F>): (r: Outcome<F>)
    ensures db.None? ==> r == Outcome(InvalidArgument, None)
    ensures r.rc == Success <==> r.stmt.Some?
  {
    if db.None? then Outcome(InvalidArgument, None)
    else match FromClause(db.value, sql.relations)
      case Err(rc) => Outcome(rc, None)
      case Ok(from) =>
        match Visit(sql.attributes, from.tables, from.tableMap, Init)
        case Err(rc) => Outcome(rc, None)
        case Ok(st) =>
          var filter := filterCreate(db.value, DefaultTable(from.tables), from.tableMap, sql.conditions);
          if filter.rc != Success then Outcome(filter.rc, None)
          else Outcome(Success, Some(SelectStmt(from.tables, st.queryFields, filter.filterStmt, st.isAgg)))
  }
}
