/** What the binder promises, proved about the functions of SelectSpec. */
module SelectProperties {
  import opened Wrappers
  import opened Common
  import opened Catalog
  import opened ParseDefs
  import opened SelectSpec

  /** A failure while resolving a prefix of the FROM list is the result for
      the whole list. */
  lemma {:induction false} FromClausePrefixError(db: Db, relations: seq<string>, k: nat)
    requires k <= |relations|
    requires FromClause(db, relations[..k]).Err?
    ensures FromClause(db, relations) == FromClause(db, relations[..k])
    decreases |relations| - k
  {
    if k < |relations| {
      var n := |relations[..k + 1]|;
      assert relations[..k + 1][..n - 1] == relations[..k];
      FromClausePrefixError(db, relations, k + 1);
    } else {
      assert relations[..k] == relations;
    }
  }

  // ---------------------------------------------------------------------
  // The FROM list

  /** Resolving the FROM list fails exactly when some name is not in the
      catalog. */
  lemma {:induction false} FromClauseMissing(db: Db, relations: seq<string>)
    ensures FromClause(db, relations).Err? <==> exists i :: 0 <= i < |relations| && relations[i] !in db
  {
    if |relations| > 0 {
      var k := |relations| - 1;
      var prefix := relations[..k];
      FromClauseMissing(db, prefix);
      if FromClause(db, prefix).Err? {
        var i :| 0 <= i < |prefix| && prefix[i] !in db;
        assert relations[i] !in db;
      } else if relations[k] in db {
        forall i | 0 <= i < |relations| ensures relations[i] in db {
          if i < k { assert prefix[i] == relations[i]; }
        }
      }
    }
  }

  /** On success the tables are the catalog's entries for the FROM names, in
      FROM order, repeats included. */
  lemma {:induction false} FromClauseTables(db: Db, relations: seq<string>)
    requires FromClause(db, relations).Ok?
    ensures var from := FromClause(db, relations).value;
      forall i :: 0 <= i < |relations| ==> relations[i] in db && from.tables[i] == db[relations[i]]
  {
    if |relations| > 0 {
      var k := |relations| - 1;
      var prefix := relations[..k];
      FromClauseTables(db, prefix);
      var from := FromClause(db, prefix).value;
      assert FromClause(db, relations).value.tables == from.tables + [db[relations[k]]];
      forall i | 0 <= i < k ensures relations[i] == prefix[i] { }
    }
  }

  /** On success the lookup holds exactly the FROM names, each mapped to its
      catalog entry, which is one of the tables. */
  lemma {:induction false} FromClauseLookup(db: Db, relations: seq<string>)
    requires FromClause(db, relations).Ok?
    ensures var from := FromClause(db, relations).value;
      && (forall n :: n in from.tableMap <==> n in relations)
      && (forall n :: n in from.tableMap ==> n in db && from.tableMap[n] == db[n] && from.tableMap[n] in from.tables)
  {
    if |relations| > 0 {
      var k := |relations| - 1;
      var prefix := relations[..k];
      FromClauseLookup(db, prefix);
      var from := FromClause(db, prefix).value;
      var r := FromClause(db, relations).value;
      assert r.tables == from.tables + [db[relations[k]]];
      assert relations == prefix + [relations[k]];
      forall n ensures n in r.tableMap <==> n in relations {
        assert n in relations <==> n in prefix || n == relations[k];
      }
      forall n | n in r.tableMap
        ensures n in db && r.tableMap[n] == db[n] && r.tableMap[n] in r.tables
      {
        if n in from.tableMap {
          assert from.tableMap[n] in r.tables;
        } else {
          assert r.tables[k] == db[n];
        }
      }
    }
  }

  /** The first occurrence of a name in FROM puts its own table into the
      lookup; later occurrences do not overwrite it (an insertion never
      overwrites). */
  lemma FromClauseFirstWins(db: Db, relations: seq<string>, i: nat)
    requires FromClause(db, relations).Ok?
    requires i < |relations| && relations[i] !in relations[..i]
    ensures relations[i] in FromClause(db, relations).value.tableMap
    ensures FromClause(db, relations).value.tableMap[relations[i]] == FromClause(db, relations).value.tables[i]
  {
    FromClauseTables(db, relations);
    FromClauseLookup(db, relations);
  }

  // ---------------------------------------------------------------------
  // Wildcards

  /** The fields from index `lo` on are listed once each, in increasing
      order. */
  lemma {:induction false} FieldRangeContents(t: Table, lo: nat, aggr: AggregationType)
    ensures |FieldRange(t, lo, aggr)| == if lo <= |t.fields| then |t.fields| - lo else 0
    ensures forall k :: 0 <= k < |FieldRange(t, lo, aggr)| ==> FieldRange(t, lo, aggr)[k] == Field(t, lo + k, aggr)
    decreases |t.fields| - lo
  {
    if lo < |t.fields| {
      FieldRangeContents(t, lo + 1, aggr);
    }
  }

  /** `wildcard_fields` appends exactly one entry, for field 0, with
      `count(*)`, and otherwise one entry per user field, from index
      `sysFieldNum` up, each tagged with the given aggregation. */
  lemma WildcardContents(t: Table, aggr: AggregationType)
    ensures aggr == CountAll ==> Wildcard(t, aggr) == [Field(t, 0, CountAll)]
    ensures aggr != CountAll ==>
      && |Wildcard(t, aggr)| == (if t.sysFieldNum <= |t.fields| then |t.fields| - t.sysFieldNum else 0)
      && forall k :: 0 <= k < |Wildcard(t, aggr)| ==> Wildcard(t, aggr)[k] == Field(t, t.sysFieldNum + k, aggr)
  {
    FieldRangeContents(t, t.sysFieldNum, aggr);
  }

  /** Every field a wildcard expands to comes from one of the tables, carries
      the requested aggregation, and is the placeholder field 0 for
      `count(*)` or a user field otherwise. */
  lemma {:induction false} WildcardAllFields(tables: seq<Table>, aggr: AggregationType)
    ensures forall f :: f in WildcardAll(tables, aggr) ==>
      && f.table in tables && f.aggrType == aggr
      && if aggr == CountAll then f.fieldIndex == 0
         else f.table.sysFieldNum <= f.fieldIndex < |f.table.fields|
  {
    if |tables| > 0 {
      WildcardContents(tables[0], aggr);
      WildcardAllFields(tables[1..], aggr);
      forall f | f in WildcardAll(tables[1..], aggr) ensures f.table in tables {
        assert f.table in tables[1..];
      }
    }
  }

  /** `count(*)` over the FROM list gives one placeholder per table, in
      table order. */
  lemma {:induction false} WildcardAllCountAll(tables: seq<Table>)
    ensures |WildcardAll(tables, CountAll)| == |tables|
    ensures forall k :: 0 <= k < |tables| ==> WildcardAll(tables, CountAll)[k] == Field(tables[k], 0, CountAll)
  {
    if |tables| > 0 {
      WildcardAllCountAll(tables[1..]);
      assert WildcardAll(tables, CountAll) == [Field(tables[0], 0, CountAll)] + WildcardAll(tables[1..], CountAll);
    }
  }

  /** One turn of the loop over the FROM tables keeps "fields so far, then
      the expansion of the tables still to visit" unchanged. */
  lemma WildcardAllStep(tables: seq<Table>, j: nat, aggr: AggregationType, acc: seq<Field>, next: seq<Field>)
    requires j < |tables|
    requires next == acc + Wildcard(tables[j], aggr)
    ensures next + WildcardAll(tables[j + 1..], aggr) == acc + WildcardAll(tables[j..], aggr)
  {
    var w, rest := Wildcard(tables[j], aggr), WildcardAll(tables[j + 1..], aggr);
    assert tables[j..][0] == tables[j] && tables[j..][1..] == tables[j + 1..];
    assert WildcardAll(tables[j..], aggr) == w + rest;
    assert (acc + w) + rest == acc + (w + rest);
  }

  // ---------------------------------------------------------------------
  // Attribute expansion

  /** The branch tree for one attribute: what each of bare `*`, `*.*`,
      `*.x`, `t.*`, `t.f` and unqualified `f` expands to, and when it fails. */
  lemma ExpansionCases(attr: RelAttrSqlNode, tables: seq<Table>, tableMap: map<string, Table>)
    // bare `*` and `*.*`: every table, and only with count(*) or no aggregation
    ensures IsBareStar(attr) || (attr.relationName == "*" && attr.attributeName == "*") ==>
      Expansion(attr, tables, tableMap)
      == if IsWildcardAggr(attr.aggrType) then Ok(WildcardAll(tables, attr.aggrType)) else Err(InvalidArgument)
    // `*.x`
    ensures attr.relationName == "*" && attr.attributeName != "*" ==>
      Expansion(attr, tables, tableMap) == Err(SchemaFieldMissing)
    // `t.*` and `t.f`: t must be in the FROM list
    ensures IsTableQualified(attr) && attr.relationName !in tableMap ==>
      Expansion(attr, tables, tableMap) == Err(SchemaFieldMissing)
    ensures IsTableQualified(attr) && attr.relationName in tableMap && attr.attributeName == "*" ==>
      Expansion(attr, tables, tableMap)
      == if IsWildcardAggr(attr.aggrType) then Ok(Wildcard(tableMap[attr.relationName], attr.aggrType))
         else Err(InvalidArgument)
    ensures IsTableQualified(attr) && attr.relationName in tableMap && attr.attributeName != "*" ==>
      var t, r := tableMap[attr.relationName], Expansion(attr, tables, tableMap);
      && (r.Ok? <==> attr.attributeName in t.fields)
      && (r.Err? ==> r.error == SchemaFieldMissing)
      && (r.Ok? ==> |r.value| == 1 && r.value[0].table == t && r.value[0].aggrType == attr.aggrType
                    && FirstFieldNamed(t, r.value[0].fieldIndex, attr.attributeName))
    // unqualified `f`: only with exactly one table
    ensures IsBlank(attr.relationName) && attr.attributeName != "*" ==>
      var r := Expansion(attr, tables, tableMap);
      && (r.Ok? <==> |tables| == 1 && attr.attributeName in tables[0].fields)
      && (r.Err? ==> r.error == SchemaFieldMissing)
      && (r.Ok? ==> |r.value| == 1 && r.value[0].table == tables[0] && r.value[0].aggrType == attr.aggrType
                    && FirstFieldNamed(tables[0], r.value[0].fieldIndex, attr.attributeName))
  {
    assert !IsBlank("*") by { assert !IsSpace("*"[0]); }
  }

  /** When every table has a field and the lookup only holds FROM tables,
      every field an attribute expands to is valid and carries the
      attribute's aggregation. */
  lemma ExpansionFields(attr: RelAttrSqlNode, tables: seq<Table>, tableMap: map<string, Table>)
    requires forall t :: t in tables ==> 0 < |t.fields|
    requires forall n :: n in tableMap ==> tableMap[n] in tables
    ensures Expansion(attr, tables, tableMap).Ok? ==>
      forall f :: f in Expansion(attr, tables, tableMap).value ==>
        ValidField(f, tables) && f.aggrType == attr.aggrType
  {
    var r := Expansion(attr, tables, tableMap);
    if r.Ok? {
      if IsBareStar(attr) || attr.relationName == "*" {
        WildcardAllFields(tables, attr.aggrType);
      } else if !IsBlank(attr.relationName) && attr.attributeName == "*" {
        var t := tableMap[attr.relationName];
        assert r.value == Wildcard(t, attr.aggrType);
        assert t in tables;
        WildcardContents(t, attr.aggrType);
      }
    }
  }

  /** The same holds of the whole projection. */
  lemma {:induction false} ExpansionsFields(attrs: seq<RelAttrSqlNode>, tables: seq<Table>, tableMap: map<string, Table>)
    requires forall t :: t in tables ==> 0 < |t.fields|
    requires forall n :: n in tableMap ==> tableMap[n] in tables
    ensures Expansions(attrs, tables, tableMap).Ok? ==>
      forall f :: f in Expansions(attrs, tables, tableMap).value ==> ValidField(f, tables)
  {
    if |attrs| > 0 {
      ExpansionFields(attrs[|attrs| - 1], tables, tableMap);
      ExpansionsFields(attrs[..|attrs| - 1], tables, tableMap);
    }
  }

  // ---------------------------------------------------------------------
  // The projection loop

  /** The flags and shape check of a list, in terms of its last element. */
  lemma FlagsSnoc(attrs: seq<RelAttrSqlNode>)
    requires |attrs| > 0
    ensures var n := |attrs| - 1;
      && (HasAgg(attrs) <==> HasAgg(attrs[..n]) || attrs[n].aggrType != NotAgg)
      && (HasPlain(attrs) <==> HasPlain(attrs[..n]) || attrs[n].aggrType == NotAgg)
      && (AllValidShape(attrs) <==> AllValidShape(attrs[..n]) && attrs[n].validAgg)
  {
    var n := |attrs| - 1;
    if HasAgg(attrs) {
      var i :| 0 <= i < |attrs| && attrs[i].aggrType != NotAgg;
      if i < n { assert attrs[..n][i] == attrs[i]; }
    }
    if HasPlain(attrs) {
      var i :| 0 <= i < |attrs| && attrs[i].aggrType == NotAgg;
      if i < n { assert attrs[..n][i] == attrs[i]; }
    }
    if AllValidShape(attrs[..n]) && attrs[n].validAgg {
      forall i | 0 <= i < |attrs| ensures attrs[i].validAgg {
        if i < n { assert attrs[..n][i] == attrs[i]; }
      }
    }
  }

  /** The flags and shape check of a suffix, in terms of its first element. */
  lemma FlagsCons(attrs: seq<RelAttrSqlNode>, c: nat)
    requires c < |attrs|
    ensures HasAgg(attrs[c..]) <==> attrs[c].aggrType != NotAgg || HasAgg(attrs[c + 1..])
    ensures HasPlain(attrs[c..]) <==> attrs[c].aggrType == NotAgg || HasPlain(attrs[c + 1..])
    ensures AllValidShape(attrs[c..]) <==> attrs[c].validAgg && AllValidShape(attrs[c + 1..])
  {
    var s, t := attrs[c..], attrs[c + 1..];
    assert forall i :: 0 <= i < |t| ==> t[i] == s[i + 1];
    assert s[0] == attrs[c];
    if HasAgg(s) {
      var i :| 0 <= i < |s| && s[i].aggrType != NotAgg;
      if i > 0 { assert t[i - 1] == s[i]; }
    }
    if HasPlain(s) {
      var i :| 0 <= i < |s| && s[i].aggrType == NotAgg;
      if i > 0 { assert t[i - 1] == s[i]; }
    }
    if attrs[c].validAgg && AllValidShape(t) {
      forall i | 0 <= i < |s| ensures s[i].validAgg {
        if i > 0 { assert t[i - 1] == s[i]; }
      }
    }
  }

  /** Whatever the projection loop accepts is well-shaped, unmixed, flagged
      by what it contains, and yields each attribute's expansion from the
      last attribute to the first. */
  lemma {:induction false} VisitSound(attrs: seq<RelAttrSqlNode>, tables: seq<Table>, tableMap: map<string, Table>, st: BindState)
    requires Visit(attrs, tables, tableMap, st).Ok?
    ensures var st' := Visit(attrs, tables, tableMap, st).value;
      && AllValidShape(attrs)
      && st'.isAgg == (st.isAgg || HasAgg(attrs))
      && st'.isCommon == (st.isCommon || HasPlain(attrs))
      && (|attrs| > 0 ==> !(st'.isAgg && st'.isCommon))
      && Expansions(attrs, tables, tableMap).Ok?
      && st'.queryFields == st.queryFields + Expansions(attrs, tables, tableMap).value
    decreases |attrs|
  {
    if |attrs| == 0 {
      assert st.queryFields + [] == st.queryFields;
    } else {
      var n := |attrs| - 1;
      var st1 := Step(st, attrs[n], tables, tableMap).value;
      StepSound(st, attrs[n], tables, tableMap);
      var fs := Expansion(attrs[n], tables, tableMap).value;
      VisitSound(attrs[..n], tables, tableMap, st1);
      FlagsSnoc(attrs);
      ExpansionsSnoc(attrs, tables, tableMap);
      var rest := Expansions(attrs[..n], tables, tableMap).value;
      assert (st.queryFields + fs) + rest == st.queryFields + (fs + rest);
    }
  }

  /** Conversely, a well-shaped, unmixed projection whose attributes all
      expand is accepted, with exactly those fields and flags. */
  lemma {:induction false} VisitComplete(attrs: seq<RelAttrSqlNode>, tables: seq<Table>, tableMap: map<string, Table>, st: BindState)
    requires AllValidShape(attrs)
    requires !((st.isAgg || HasAgg(attrs)) && (st.isCommon || HasPlain(attrs)))
    requires Expansions(attrs, tables, tableMap).Ok?
    ensures Visit(attrs, tables, tableMap, st)
         == Ok(BindState(st.isAgg || HasAgg(attrs), st.isCommon || HasPlain(attrs),
                         st.queryFields + Expansions(attrs, tables, tableMap).value))
    decreases |attrs|
  {
    if |attrs| == 0 {
      assert st.queryFields + [] == st.queryFields;
    } else {
      var n := |attrs| - 1;
      var prefix := attrs[..n];
      FlagsSnoc(attrs);
      ExpansionsSnoc(attrs, tables, tableMap);
      var fs := Expansion(attrs[n], tables, tableMap).value;
      var rest := Expansions(prefix, tables, tableMap).value;
      var st1 := BindState(st.isAgg || attrs[n].aggrType != NotAgg, st.isCommon || attrs[n].aggrType == NotAgg,
                           st.queryFields + fs);
      calc {
        Visit(attrs, tables, tableMap, st);
      == { StepAccepts(st, attrs[n], tables, tableMap);
           VisitUnfold(attrs, tables, tableMap, n, st);
           assert attrs[..n + 1] == attrs; }
        Visit(prefix, tables, tableMap, st1);
      == { VisitComplete(prefix, tables, tableMap, st1); }
        Ok(BindState(st1.isAgg || HasAgg(prefix), st1.isCommon || HasPlain(prefix), st1.queryFields + rest));
      == { assert (st.queryFields + fs) + rest == st.queryFields + (fs + rest); }
        Ok(BindState(st.isAgg || HasAgg(attrs), st.isCommon || HasPlain(attrs),
                     st.queryFields + Expansions(attrs, tables, tableMap).value));
      }
    }
  }

  /** A well-shaped attribute that does not cause mixing and expands is
      accepted by one turn of the loop. */
  lemma StepAccepts(st: BindState, attr: RelAttrSqlNode, tables: seq<Table>, tableMap: map<string, Table>)
    requires attr.validAgg
    requires !((st.isAgg || attr.aggrType != NotAgg) && (st.isCommon || attr.aggrType == NotAgg))
    requires Expansion(attr, tables, tableMap).Ok?
    ensures Step(st, attr, tables, tableMap)
         == Ok(BindState(st.isAgg || attr.aggrType != NotAgg, st.isCommon || attr.aggrType == NotAgg,
                         st.queryFields + Expansion(attr, tables, tableMap).value))
  {
  }

  /** What one accepted turn of the loop did. */
  lemma StepSound(st: BindState, attr: RelAttrSqlNode, tables: seq<Table>, tableMap: map<string, Table>)
    requires Step(st, attr, tables, tableMap).Ok?
    ensures var st1 := Step(st, attr, tables, tableMap).value;
      && attr.validAgg
      && st1.isAgg == (st.isAgg || attr.aggrType != NotAgg)
      && st1.isCommon == (st.isCommon || attr.aggrType == NotAgg)
      && Expansion(attr, tables, tableMap).Ok?
      && st1.queryFields == st.queryFields + Expansion(attr, tables, tableMap).value
  {
  }

  /** The projection of a non-empty list: the last attribute's expansion,
      then that of the others. */
  lemma ExpansionsSnoc(attrs: seq<RelAttrSqlNode>, tables: seq<Table>, tableMap: map<string, Table>)
    requires |attrs| > 0
    ensures var n := |attrs| - 1;
      var e, rest := Expansion(attrs[n], tables, tableMap), Expansions(attrs[..n], tables, tableMap);
      && (Expansions(attrs, tables, tableMap).Ok? <==> e.Ok? && rest.Ok?)
      && (Expansions(attrs, tables, tableMap).Ok? ==> Expansions(attrs, tables, tableMap).value == e.value + rest.value)
  {
  }

  /** Visiting `p + s` visits `s` (the later attributes) first, then `p`. */
  lemma {:induction false} VisitSplit(p: seq<RelAttrSqlNode>, s: seq<RelAttrSqlNode>, tables: seq<Table>,
                                      tableMap: map<string, Table>, st: BindState)
    ensures Visit(p + s, tables, tableMap, st)
         == match Visit(s, tables, tableMap, st)
            case Err(rc) => Err(rc)
            case Ok(st1) => Visit(p, tables, tableMap, st1)
    decreases |s|
  {
    if |s| == 0 {
      assert p + s == p;
    } else {
      var n := |s| - 1;
      assert (p + s)[|p + s| - 1] == s[n];
      assert (p + s)[..|p + s| - 1] == p + s[..n];
      match Step(st, s[n], tables, tableMap)
      case Err(rc) =>
      case Ok(st') => VisitSplit(p, s[..n], tables, tableMap, st');
    }
  }

  /** The first failure in visiting order decides: if the attributes after
      `a` are accepted and `a` then fails with `rc`, the loop returns `rc`
      whatever comes before `a`. */
  lemma FirstFailure(p: seq<RelAttrSqlNode>, a: RelAttrSqlNode, s: seq<RelAttrSqlNode>, tables: seq<Table>,
                     tableMap: map<string, Table>, st: BindState, rc: RC)
    requires Visit(s, tables, tableMap, st).Ok?
    requires Step(Visit(s, tables, tableMap, st).value, a, tables, tableMap) == Err(rc)
    ensures Visit(p + [a] + s, tables, tableMap, st) == Err(rc)
  {
    VisitSplit(p + [a], s, tables, tableMap, st);
    assert (p + [a])[..|p|] == p;
  }

  /** The suffix after `attrs[c]` binds cleanly and is not mixed. */
  ghost predicate CleanSuffix(attrs: seq<RelAttrSqlNode>, tables: seq<Table>, tableMap: map<string, Table>, c: nat)
    requires c < |attrs|
  {
    && AllValidShape(attrs[c + 1..])
    && !(HasAgg(attrs[c + 1..]) && HasPlain(attrs[c + 1..]))
    && Expansions(attrs[c + 1..], tables, tableMap).Ok?
  }

  /** An attribute the parser marked as badly shaped, visited before any
      failure, fails by its tag: nested aggregation, aggregation over several
      attributes, or an invalid argument. */
  lemma InvalidShapeRejected(attrs: seq<RelAttrSqlNode>, tables: seq<Table>, tableMap: map<string, Table>, c: nat)
    requires c < |attrs| && !attrs[c].validAgg
    requires CleanSuffix(attrs, tables, tableMap, c)
    ensures attrs[c].aggrType == Composite ==> Visit(attrs, tables, tableMap, Init) == Err(NestedAggregation)
    ensures attrs[c].aggrType == MulAttrs ==> Visit(attrs, tables, tableMap, Init) == Err(AggregationUnmatched)
    ensures attrs[c].aggrType != Composite && attrs[c].aggrType != MulAttrs ==>
      Visit(attrs, tables, tableMap, Init) == Err(InvalidArgument)
  {
    VisitComplete(attrs[c + 1..], tables, tableMap, Init);
    assert attrs == attrs[..c] + [attrs[c]] + attrs[c + 1..];
    var st1 := Visit(attrs[c + 1..], tables, tableMap, Init).value;
    FirstFailure(attrs[..c], attrs[c], attrs[c + 1..], tables, tableMap, Init, Step(st1, attrs[c], tables, tableMap).error);
  }

  /** The first attribute, in visiting order, that makes the projection mix
      aggregated and plain attributes is rejected with AGGREGATION_UNMATCHED
      when nothing failed before it. */
  lemma MixingRejected(attrs: seq<RelAttrSqlNode>, tables: seq<Table>, tableMap: map<string, Table>, c: nat)
    requires c < |attrs| && attrs[c].validAgg
    requires CleanSuffix(attrs, tables, tableMap, c)
    requires HasAgg(attrs[c..]) && HasPlain(attrs[c..])
    ensures Visit(attrs, tables, tableMap, Init) == Err(AggregationUnmatched)
  {
    VisitComplete(attrs[c + 1..], tables, tableMap, Init);
    FlagsCons(attrs, c);
    assert attrs == attrs[..c] + [attrs[c]] + attrs[c + 1..];
    var st1 := Visit(attrs[c + 1..], tables, tableMap, Init).value;
    FirstFailure(attrs[..c], attrs[c], attrs[c + 1..], tables, tableMap, Init, Step(st1, attrs[c], tables, tableMap).error);
  }

  /** A well-shaped attribute that does not cause mixing but cannot be
      expanded (bad wildcard aggregation, `*.x`, unknown table or field, an
      unqualified name with several tables) fails with its own code when
      nothing failed before it. */
  lemma ExpansionRejected(attrs: seq<RelAttrSqlNode>, tables: seq<Table>, tableMap: map<string, Table>, c: nat)
    requires c < |attrs| && attrs[c].validAgg
    requires CleanSuffix(attrs, tables, tableMap, c)
    requires !(HasAgg(attrs[c..]) && HasPlain(attrs[c..]))
    requires Expansion(attrs[c], tables, tableMap).Err?
    ensures Visit(attrs, tables, tableMap, Init) == Err(Expansion(attrs[c], tables, tableMap).error)
  {
    VisitComplete(attrs[c + 1..], tables, tableMap, Init);
    FlagsCons(attrs, c);
    assert attrs == attrs[..c] + [attrs[c]] + attrs[c + 1..];
    var st1 := Visit(attrs[c + 1..], tables, tableMap, Init).value;
    FirstFailure(attrs[..c], attrs[c], attrs[c + 1..], tables, tableMap, Init, Step(st1, attrs[c], tables, tableMap).error);
  }

  /** A well-shaped projection whose attributes all expand but which mixes
      aggregated and plain attributes is rejected with AGGREGATION_UNMATCHED,
      whichever kind comes first. */
  lemma {:induction false} MixedRejected(attrs: seq<RelAttrSqlNode>, tables: seq<Table>, tableMap: map<string, Table>, st: BindState)
    requires AllValidShape(attrs)
    requires Expansions(attrs, tables, tableMap).Ok?
    requires !(st.isAgg && st.isCommon)
    requires (st.isAgg || HasAgg(attrs)) && (st.isCommon || HasPlain(attrs))
    ensures Visit(attrs, tables, tableMap, st) == Err(AggregationUnmatched)
    decreases |attrs|
  {
    var n := |attrs| - 1;
    FlagsSnoc(attrs);
    var isAgg := st.isAgg || attrs[n].aggrType != NotAgg;
    var isCommon := st.isCommon || attrs[n].aggrType == NotAgg;
    if !(isAgg && isCommon) {
      var st1 := BindState(isAgg, isCommon, st.queryFields + Expansion(attrs[n], tables, tableMap).value);
      assert Step(st, attrs[n], tables, tableMap) == Ok(st1);
      MixedRejected(attrs[..n], tables, tableMap, st1);
    }
  }

  // ---------------------------------------------------------------------
  // The whole bind

  /** A successful bind resolved every FROM name in order, accepted a
      well-shaped unmixed projection, flags it as aggregate exactly when some
      attribute is aggregated, lists each attribute's expansion from the
      last attribute to the first (only valid fields when every catalog
      table has a field), and carries the filter built for the default
      table. */
  lemma BindSuccess<C, F>(db: Option<Db>, sql: SelectSqlNode<C>, filterCreate: FilterCreate<C, F>)
    requires Bind(db, sql, filterCreate).rc == Success
    ensures db.Some? && FromClause(db.value, sql.relations).Ok?
    ensures var stmt := Bind(db, sql, filterCreate).stmt.value;
      var from := FromClause(db.value, sql.relations).value;
      && stmt.tables == from.tables
      && |stmt.tables| == |sql.relations|
      && (forall i :: 0 <= i < |sql.relations| ==>
            sql.relations[i] in db.value && stmt.tables[i] == db.value[sql.relations[i]])
      && AllValidShape(sql.attributes)
      && !(HasAgg(sql.attributes) && HasPlain(sql.attributes))
      && stmt.isAggr == HasAgg(sql.attributes)
      && Expansions(sql.attributes, stmt.tables, from.tableMap) == Ok(stmt.queryFields)
      && (WellFormed(db.value) ==> forall f :: f in stmt.queryFields ==> ValidField(f, stmt.tables))
      && var filter := filterCreate(db.value, DefaultTable(stmt.tables), from.tableMap, sql.conditions);
         filter.rc == Success && stmt.filterStmt == filter.filterStmt
  {
    var from := FromClause(db.value, sql.relations).value;
    var st := Visit(sql.attributes, from.tables, from.tableMap, Init).value;
    var filter := filterCreate(db.value, DefaultTable(from.tables), from.tableMap, sql.conditions);
    assert Bind(db, sql, filterCreate).stmt.value == SelectStmt(from.tables, st.queryFields, filter.filterStmt, st.isAgg);
    FromClauseTables(db.value, sql.relations);
    VisitSound(sql.attributes, from.tables, from.tableMap, Init);
    var fields := Expansions(sql.attributes, from.tables, from.tableMap).value;
    assert [] + fields == fields;
    if WellFormed(db.value) {
      FromClauseLookup(db.value, sql.relations);
      ExpansionsFields(sql.attributes, from.tables, from.tableMap);
    }
  }

  /** Conversely, when every FROM name is in the catalog, the projection is
      well-shaped, unmixed and expands, and the filter binder succeeds, the
      bind succeeds with exactly that statement. */
  lemma BindComplete<C, F>(db: Option<Db>, sql: SelectSqlNode<C>, filterCreate: FilterCreate<C, F>)
    requires db.Some?
    requires forall i :: 0 <= i < |sql.relations| ==> sql.relations[i] in db.value
    requires AllValidShape(sql.attributes)
    requires !(HasAgg(sql.attributes) && HasPlain(sql.attributes))
    ensures FromClause(db.value, sql.relations).Ok?
    ensures var from := FromClause(db.value, sql.relations).value;
      var projection := Expansions(sql.attributes, from.tables, from.tableMap);
      var filter := filterCreate(db.value, DefaultTable(from.tables), from.tableMap, sql.conditions);
      projection.Ok? && filter.rc == Success ==>
        Bind(db, sql, filterCreate)
        == Outcome(Success, Some(SelectStmt(from.tables, projection.value, filter.filterStmt, HasAgg(sql.attributes))))
  {
    FromClauseMissing(db.value, sql.relations);
    var from := FromClause(db.value, sql.relations).value;
    if Expansions(sql.attributes, from.tables, from.tableMap).Ok? {
      VisitComplete(sql.attributes, from.tables, from.tableMap, Init);
      assert [] + Expansions(sql.attributes, from.tables, from.tableMap).value
          == Expansions(sql.attributes, from.tables, from.tableMap).value;
    }
  }

  /** The default table handed to the filter binder is the catalog entry
      of the FROM list's only name, if FROM names exactly one relation, and
      none otherwise; a successful bind keeps the filter built with it. */
  lemma BindDefaultTable<C, F>(db: Option<Db>, sql: SelectSqlNode<C>, filterCreate: FilterCreate<C, F>)
    requires Bind(db, sql, filterCreate).rc == Success
    ensures db.Some? && FromClause(db.value, sql.relations).Ok?
    ensures var from := FromClause(db.value, sql.relations).value;
      var dflt := if |sql.relations| == 1 then Some(db.value[sql.relations[0]]) else None;
      var filter := filterCreate(db.value, dflt, from.tableMap, sql.conditions);
      && filter.rc == Success
      && Bind(db, sql, filterCreate).stmt.value.filterStmt == filter.filterStmt
  {
    BindSuccess(db, sql, filterCreate);
  }

  /** A FROM name missing from the catalog fails the bind with
      SCHEMA_TABLE_NOT_EXIST, before any attribute is looked at. */
  lemma BindTableNotExist<C, F>(db: Option<Db>, sql: SelectSqlNode<C>, filterCreate: FilterCreate<C, F>, i: nat)
    requires db.Some? && i < |sql.relations| && sql.relations[i] !in db.value
    ensures Bind(db, sql, filterCreate) == Outcome(SchemaTableNotExist, None)
  {
    FromClauseMissing(db.value, sql.relations);
  }

  /** A failure of the filter binder is returned unchanged, with no
      statement. */
  lemma BindFilterFailure<C, F>(db: Option<Db>, sql: SelectSqlNode<C>, filterCreate: FilterCreate<C, F>)
    requires db.Some? && FromClause(db.value, sql.relations).Ok?
    requires var from := FromClause(db.value, sql.relations).value;
      Visit(sql.attributes, from.tables, from.tableMap, Init).Ok?
    ensures var from := FromClause(db.value, sql.relations).value;
      var filter := filterCreate(db.value, DefaultTable(from.tables), from.tableMap, sql.conditions);
      filter.rc != Success ==> Bind(db, sql, filterCreate) == Outcome(filter.rc, None)
  {
  }

  /** One turn of the projection loop, read off the definition of Visit for
      the prefix `attrs[..i + 1]`. */
  lemma VisitUnfold(attrs: seq<RelAttrSqlNode>, tables: seq<Table>, tableMap: map<string, Table>, i: nat, st: BindState)
    requires i < |attrs|
    ensures Visit(attrs[..i + 1], tables, tableMap, st)
         == match Step(st, attrs[i], tables, tableMap)
            case Err(rc) => Err(rc)
            case Ok(st') => Visit(attrs[..i], tables, tableMap, st')
  {
    assert attrs[..i + 1][..i] == attrs[..i];
  }
}
