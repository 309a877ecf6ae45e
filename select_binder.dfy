/** The binder as the system runs it: loops that push onto the table and
    field lists and return at the first error, each proved equal to the
    functions of SelectSpec. */
module SelectBinder {
  import opened Wrappers
  import opened Common
  import opened Catalog
  import opened ParseDefs
  import opened SelectSpec
  import SelectProperties

  /** `wildcard_fields`: appends the expansion of `table` to `fieldMetas`. */
  method WildcardFields(table: Table, fieldMetas: seq<Field>, aggrType: AggregationType)
    returns (fieldMetas': seq<Field>)
    ensures fieldMetas' == fieldMetas + Wildcard(table, aggrType)
  {
    SelectProperties.WildcardContents(table, aggrType);
    var fieldNum := |table.fields|;
    fieldMetas' := fieldMetas;
    if aggrType == CountAll {
      fieldMetas' := fieldMetas' + [Field(table, 0, aggrType)];
      return;
    }
    var i := table.sysFieldNum;
    while i < fieldNum
      invariant table.sysFieldNum <= i
      invariant i <= fieldNum || i == table.sysFieldNum
      invariant |fieldMetas'| == |fieldMetas| + (i - table.sysFieldNum)
      invariant fieldMetas'[..|fieldMetas|] == fieldMetas
      invariant forall k :: |fieldMetas| <= k < |fieldMetas'| ==>
        fieldMetas'[k] == Field(table, table.sysFieldNum + (k - |fieldMetas|), aggrType)
    {
      fieldMetas' := fieldMetas' + [Field(table, i, aggrType)];
      i := i + 1;
    }
    assert fieldMetas' == fieldMetas + Wildcard(table, aggrType);
  }

  /** The FROM loop of `SelectStmt::create`: look each name up, push the
      table, and insert it into the lookup unless the name is already there. */
  method CollectTables(db: Db, relations: seq<string>) returns (r: Result<FromList, RC>)
    ensures r == FromClause(db, relations)
  {
    var tables: seq<Table> := [];
    var tableMap: map<string, Table> := map[];
    for i := 0 to |relations|
      invariant FromClause(db, relations[..i]) == Ok(FromList(tables, tableMap))
    {
      var tableName := relations[i];
      var table := FindTable(db, tableName);
      if table.None? {
        assert relations[..i + 1][..i] == relations[..i];
        SelectProperties.FromClausePrefixError(db, relations, i + 1);
        return Err(SchemaTableNotExist);
      }
      assert relations[..i + 1][..i] == relations[..i];
      tables := tables + [table.value];
      if tableName !in tableMap {
        tableMap := tableMap[tableName := table.value];
      }
    }
    assert relations[..|relations|] == relations;
    r := Ok(FromList(tables, tableMap));
  }

  /** The `for (Table* table : tables)` loop: expands a wildcard over every
      table of the FROM list, in order. */
  method WildcardFieldsAll(tables: seq<Table>, queryFields: seq<Field>, aggrType: AggregationType)
    returns (queryFields': seq<Field>)
    ensures queryFields' == queryFields + WildcardAll(tables, aggrType)
  {
    queryFields' := queryFields;
    var j := 0;
    while j < |tables|
      invariant 0 <= j <= |tables|
      invariant queryFields' + WildcardAll(tables[j..], aggrType) == queryFields + WildcardAll(tables, aggrType)
    {
      ghost var before := queryFields';
      queryFields' := WildcardFields(tables[j], queryFields', aggrType);
      SelectProperties.WildcardAllStep(tables, j, aggrType, before, queryFields');
      j := j + 1;
    }
    assert WildcardAll(tables[j..], aggrType) == [];
  }

  /** The branch tree of the projection loop for one attribute that passed
      the shape and mixing checks: bare `*`, `*.*`, `*.x`, `t.*`, `t.f` and
      unqualified `f`. Appends the attribute's fields to `queryFields`. */
  method ExpandAttribute(relationAttr: RelAttrSqlNode, tables: seq<Table>, tableMap: map<string, Table>,
                         queryFields: seq<Field>)
    returns (r: Result<seq<Field>, RC>)
    ensures r == match Expansion(relationAttr, tables, tableMap)
                 case Err(rc) => Err(rc)
                 case Ok(fs) => Ok(queryFields + fs)
  {
    var aggrType := relationAttr.aggrType;
    if IsBlank(relationAttr.relationName) && relationAttr.attributeName == "*" {
      if aggrType != CountAll && aggrType != NotAgg {
        return Err(InvalidArgument);
      }
      var fields := WildcardFieldsAll(tables, queryFields, aggrType);
      return Ok(fields);
    } else if !IsBlank(relationAttr.relationName) {
      var tableName := relationAttr.relationName;
      var fieldName := relationAttr.attributeName;
      if tableName == "*" {
        if fieldName != "*" {
          return Err(SchemaFieldMissing);
        }
        if aggrType != CountAll && aggrType != NotAgg {
          return Err(InvalidArgument);
        }
        var fields := WildcardFieldsAll(tables, queryFields, aggrType);
        return Ok(fields);
      }
      if tableName !in tableMap {
        return Err(SchemaFieldMissing);
      }
      var table := tableMap[tableName];
      if fieldName == "*" {
        if aggrType != CountAll && aggrType != NotAgg {
          return Err(InvalidArgument);
        }
        var fields := WildcardFields(table, queryFields, aggrType);
        return Ok(fields);
      }
      var fieldMeta := FieldByName(table, fieldName);
      if fieldMeta.None? {
        return Err(SchemaFieldMissing);
      }
      return Ok(queryFields + [Field(table, fieldMeta.value, aggrType)]);
    } else {
      if |tables| != 1 {
        return Err(SchemaFieldMissing);
      }
      var table := tables[0];
      var fieldMeta := FieldByName(table, relationAttr.attributeName);
      if fieldMeta.None? {
        return Err(SchemaFieldMissing);
      }
      return Ok(queryFields + [Field(table, fieldMeta.value, aggrType)]);
    }
  }

  /** The projection loop of `SelectStmt::create`, from the last attribute
      to the first. */
  method CollectQueryFields(attributes: seq<RelAttrSqlNode>, tables: seq<Table>, tableMap: map<string, Table>)
    returns (r: Result<BindState, RC>)
    ensures r == Visit(attributes, tables, tableMap, Init)
  {
    var queryFields: seq<Field> := [];
    var isAgg, isCommon := false, false;
    var i := |attributes| - 1;
    assert attributes[..i + 1] == attributes;
    while i >= 0
      invariant -1 <= i < |attributes|
      invariant Visit(attributes[..i + 1], tables, tableMap, BindState(isAgg, isCommon, queryFields))
             == Visit(attributes, tables, tableMap, Init)
      decreases i
    {
      ghost var st := BindState(isAgg, isCommon, queryFields);
      SelectProperties.VisitUnfold(attributes, tables, tableMap, i, st);
      var relationAttr := attributes[i];
      var aggrType := relationAttr.aggrType;
      if !relationAttr.validAgg {
        if aggrType == Composite {
          return Err(NestedAggregation);
        } else if aggrType == MulAttrs {
          return Err(AggregationUnmatched);
        }
        return Err(InvalidArgument);
      }
      if aggrType != NotAgg {
        isAgg := true;
      } else {
        isCommon := true;
      }
      if isAgg && isCommon {
        return Err(AggregationUnmatched);
      }
      var expanded := ExpandAttribute(relationAttr, tables, tableMap, queryFields);
      if expanded.Err? {
        return Err(expanded.error);
      }
      queryFields := expanded.value;
      i := i - 1;
    }
    assert attributes[..0] == [];
    r := Ok(BindState(isAgg, isCommon, queryFields));
  }

  /** `SelectStmt::create`: bind a parsed SELECT against the catalog, or
      return the first error code met. */
  method Create<C, F>(db: Option<Db>, selectSql: SelectSqlNode<C>, filterCreate: FilterCreate<C, F>)
    returns (rc: RC, stmt: Option<SelectStmt<F>>)
    ensures Outcome(rc, stmt) == Bind(db, selectSql, filterCreate)
    ensures db.None? ==> rc == InvalidArgument && stmt.None?
    ensures rc == Success <==> stmt.Some?
  {
    if db.None? {
      return InvalidArgument, None;
    }
    var from := CollectTables(db.value, selectSql.relations);
    if from.Err? {
      return from.error, None;
    }
    var tables, tableMap := from.value.tables, from.value.tableMap;
    var projection := CollectQueryFields(selectSql.attributes, tables, tableMap);
    if projection.Err? {
      return projection.error, None;
    }
    var defaultTable: Option<Table> := None;
    if |tables| == 1 {
      defaultTable := Some(tables[0]);
    }
    var filter := filterCreate(db.value, defaultTable, tableMap, selectSql.conditions);
    if filter.rc != Success {
      return filter.rc, None;
    }
    rc := Success;
    stmt := Some(SelectStmt(tables, projection.value.queryFields, filter.filterStmt, projection.value.isAgg));
  }
}
