/** The catalog, seen from the binder: tables found by name, each with an
    ordered list of field names whose first `sysFieldNum` entries are the
    hidden system fields. */
module Catalog {
  import opened Wrappers

  /** A table's metadata: its name, its fields in declaration order, and how
      many leading fields are system fields. */
  datatype Table = Table(name: string, fields: seq<string>, sysFieldNum: nat)

  /** The database: the tables it holds, by name. */
  type Db = map<string, Table>

  /** `Db::find_table`: the table of that name, or nothing. */
  function FindTable(db: Db, name: string): Option<Table>
  {
    if name in db then Some(db[name]) else None
  }

  /** The position of the first occurrence of `x` in `s`. */
  function IndexOf(s: seq<string>, x: string): (r: Option<nat>)
    ensures r.None? <==> x !in s
    ensures r.Some? ==> r.value < |s| && s[r.value] == x
    ensures r.Some? ==> forall k :: 0 <= k < r.value ==> s[k] != x
  {
    if |s| == 0 then None
    else if s[0] == x then Some(0)
    else match IndexOf(s[1..], x)
      case None => None
      case Some(k) => Some(k + 1)
  }

  /** `TableMeta::field(name)`: the index of the field with that name. */
  function FieldByName(t: Table, name: string): Option<nat>
  {
    IndexOf(t.fields, name)
  }

  /** `i` is the position of the first field of `t` called `name`. */
  ghost predicate FirstFieldNamed(t: Table, i: nat, name: string)
  {
    i < |t.fields| && t.fields[i] == name && forall k :: 0 <= k < i ==> t.fields[k] != name
  }

  /** Every table of the catalog has at least one field, so that `field(0)`,
      which `count(*)` refers to, exists. The binder does not check this; the
      model assumes it where field validity is stated. */
  ghost predicate WellFormed(db: Db)
  {
    forall n :: n in db ==> 0 < |db[n].fields|
  }
}
