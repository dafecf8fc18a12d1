/**
 Schema differences of a ClickHouse table (clickhouse.service.ts): which columns the
 code schema adds, drops and retypes, and what the ALTER statements do to the table.
 */
module ClickHouseSchema {
  import opened Common

  datatype Column = Column(name: string, columnType: string)

  datatype Diff = Diff(adds: seq<Column>, deletes: seq<string>, retypes: seq<Column>)

  datatype Statement = Drop(name: string) | Add(column: Column) | Modify(column: Column)

  // ---- Column types ----

  function Lower(c: char): char {
    if 'A' <= c <= 'Z' then c - 'A' + 'a' else c
  }

  /** White space removed, ASCII letters lowered. */
  function NormalizeType(t: string): string {
    if t == [] then [] else (if IsSpace(t[0]) then [] else [Lower(t[0])]) + NormalizeType(t[1..])
  }

  /** Case makes no difference either, nor does anything else: a text in small letters without white space is its own normal form. */
  lemma {:induction false} NormalFormIsItself(t: string)
    requires forall c :: c in t ==> !IsSpace(c) && !('A' <= c <= 'Z')
    ensures NormalizeType(t) == t
  {
    if t != [] {
      NormalFormIsItself(t[1..]);
      assert t == [t[0]] + t[1..];
    }
  }

  lemma CaseIsIgnored(a: string, c: char, b: string)
    requires 'A' <= c <= 'Z'
    ensures NormalizeType(a + [c] + b) == NormalizeType(a + [c - 'A' + 'a'] + b)
  {
    NormalizeConcat(a + [c], b);
    NormalizeConcat(a, [c]);
    NormalizeConcat(a + [c - 'A' + 'a'], b);
    NormalizeConcat(a, [c - 'A' + 'a']);
    NormalizeOne(c);
    NormalizeOne(c - 'A' + 'a');
  }

  lemma NormalizeOne(c: char)
    ensures NormalizeType([c]) == if IsSpace(c) then [] else [Lower(c)]
  {
    assert [c][1..] == [];
  }

  lemma {:induction false} NormalizeConcat(a: string, b: string)
    ensures NormalizeType(a + b) == NormalizeType(a) + NormalizeType(b)
  {
    if a == [] {
      assert a + b == b;
    } else {
      assert (a + b)[0] == a[0] && (a + b)[1..] == a[1..] + b;
      NormalizeConcat(a[1..], b);
      var first := if IsSpace(a[0]) then [] else [Lower(a[0])];
      assert NormalizeType(a) == first + NormalizeType(a[1..]);
      assert NormalizeType(a + b) == first + NormalizeType(a[1..] + b);
    }
  }

  lemma {:induction false} NormalizeBlank(t: string)
    requires IsBlank(t)
    ensures NormalizeType(t) == []
  {
    if t != [] {
      NormalizeBlank(t[1..]);
    }
  }

  /** Spacing never makes a difference: "LowCardinality( String )" is "LowCardinality(String)". */
  lemma SpacingIsIgnored(a: string, blank: string, b: string)
    requires IsBlank(blank)
    ensures NormalizeType(a + blank + b) == NormalizeType(a + b)
  {
    NormalizeBlank(blank);
    NormalizeConcat(a + blank, b);
    NormalizeConcat(a, blank);
    NormalizeConcat(a, b);
  }

  // ---- Column lists ----

  /** The type of a column, None if there is no such column. */
  function Lookup(columns: seq<Column>, name: string): Option<string> {
    if columns == [] then None
    else if columns[0].name == name then Some(columns[0].columnType) else Lookup(columns[1..], name)
  }

  predicate Has(columns: seq<Column>, name: string) {
    Lookup(columns, name).Some?
  }

  ghost predicate Distinct(columns: seq<Column>) {
    forall i, j :: 0 <= i < j < |columns| ==> columns[i].name != columns[j].name
  }

  function Without(columns: seq<Column>, name: string): seq<Column> {
    if columns == [] then []
    else (if columns[0].name == name then [] else [columns[0]]) + Without(columns[1..], name)
  }

  function Retyped(columns: seq<Column>, name: string, columnType: string): seq<Column> {
    if columns == [] then []
    else (if columns[0].name == name then [Column(name, columnType)] else [columns[0]]) + Retyped(columns[1..], name, columnType)
  }

  function Names(columns: seq<Column>): (names: seq<string>)
    ensures |names| == |columns| && forall i :: 0 <= i < |columns| ==> names[i] == columns[i].name
  {
    seq(|columns|, i requires 0 <= i < |columns| => columns[i].name)
  }

  lemma {:induction false} LookupFinds(columns: seq<Column>, i: nat)
    requires Distinct(columns) && i < |columns|
    ensures Lookup(columns, columns[i].name) == Some(columns[i].columnType)
  {
    if i > 0 {
      assert columns[0].name != columns[i].name;
      LookupFinds(columns[1..], i - 1);
    }
  }

  lemma {:induction false} HasIff(columns: seq<Column>, name: string)
    ensures Has(columns, name) <==> name in Names(columns)
  {
    if columns != [] {
      HasIff(columns[1..], name);
      assert Names(columns) == [columns[0].name] + Names(columns[1..]);
    }
  }

  lemma {:induction false} LookupWithout(columns: seq<Column>, name: string, other: string)
    ensures Lookup(Without(columns, name), other) == if other == name then None else Lookup(columns, other)
  {
    if columns != [] {
      LookupWithout(columns[1..], name, other);
      if columns[0].name != name {
        assert Without(columns, name)[1..] == Without(columns[1..], name);
      } else {
        assert Without(columns, name) == Without(columns[1..], name);
      }
    }
  }

  lemma {:induction false} LookupRetyped(columns: seq<Column>, name: string, columnType: string, other: string)
    ensures Lookup(Retyped(columns, name, columnType), other)
         == if other == name && Has(columns, name) then Some(columnType) else Lookup(columns, other)
  {
    if columns != [] {
      LookupRetyped(columns[1..], name, columnType, other);
      assert Retyped(columns, name, columnType)[1..] == Retyped(columns[1..], name, columnType);
    }
  }

  lemma {:induction false} LookupAppend(columns: seq<Column>, column: Column, other: string)
    ensures Lookup(columns + [column], other)
         == if Has(columns, other) then Lookup(columns, other) else if other == column.name then Some(column.columnType) else None
  {
    if columns != [] {
      LookupAppend(columns[1..], column, other);
      assert (columns + [column])[1..] == columns[1..] + [column];
    }
  }

  // ---- The difference ----

  /** The column exists with a different type, up to spacing and case. */
  predicate Differs(table: seq<Column>, c: Column) {
    Has(table, c.name) && NormalizeType(Lookup(table, c.name).value) != NormalizeType(c.columnType)
  }

  function Adds(schema: seq<Column>, table: seq<Column>): seq<Column> {
    if schema == [] then []
    else Adds(schema[..|schema| - 1], table) + if Has(table, schema[|schema| - 1].name) then [] else [schema[|schema| - 1]]
  }

  function Modifies(schema: seq<Column>, table: seq<Column>): seq<Column> {
    if schema == [] then []
    else Modifies(schema[..|schema| - 1], table) + if Differs(table, schema[|schema| - 1]) then [schema[|schema| - 1]] else []
  }

  /** The table columns that the schema does not have, in table order. */
  function Leftover(schema: seq<Column>, table: seq<Column>): seq<Column> {
    if schema == [] then table else Without(Leftover(schema[..|schema| - 1], table), schema[|schema| - 1].name)
  }

  function DiffOf(schema: seq<Column>, table: seq<Column>): Diff {
    Diff(Adds(schema, table), Names(Leftover(schema, table)), Modifies(schema, table))
  }

  /** `diffTableMeta`: the schema's columns are removed from the table's one at a time. */
  method DiffTableMeta(schema: seq<Column>, table: seq<Column>) returns (diff: Diff)
    requires Distinct(schema) && Distinct(table)
    ensures diff == DiffOf(schema, table)
  {
    var rest, adds, retypes := table, [], [];
    for i := 0 to |schema|
      invariant rest == Leftover(schema[..i], table)
      invariant adds == Adds(schema[..i], table) && retypes == Modifies(schema[..i], table)
    {
      assert schema[..i + 1][..i] == schema[..i];
      var column := schema[i];
      LookupLeftover(schema[..i], table, column.name);
      NotYetRemoved(schema, i);
      var actual := Lookup(rest, column.name);
      if actual.Some? {
        if NormalizeType(column.columnType) != NormalizeType(actual.value) {
          retypes := retypes + [column];
        }
      } else {
        adds := adds + [column];
      }
      rest := Without(rest, column.name);
    }
    assert schema[..|schema|] == schema;
    diff := Diff(adds, Names(rest), retypes);
  }

  lemma NotYetRemoved(schema: seq<Column>, i: nat)
    requires Distinct(schema) && i < |schema|
    ensures !Has(schema[..i], schema[i].name)
  {
    HasIff(schema[..i], schema[i].name);
  }

  lemma {:induction false} LookupLeftover(schema: seq<Column>, table: seq<Column>, name: string)
    ensures Lookup(Leftover(schema, table), name) == if Has(schema, name) then None else Lookup(table, name)
  {
    if schema != [] {
      var n := |schema| - 1;
      LookupLeftover(schema[..n], table, name);
      LookupWithout(Leftover(schema[..n], table), schema[n].name, name);
      LookupAppend(schema[..n], schema[n], name);
      assert schema == schema[..n] + [schema[n]];
    }
  }
}
