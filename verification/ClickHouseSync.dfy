/**
 Bringing a table to the code schema (clickhouse.service.ts): the statements, what the
 server makes of them, and whether the next comparison finds anything left to do. The
 server reports the type of a column it was given as `report` says.
 */
module ClickHouseSync {
  import opened Common
  import opened ClickHouseSchema

  predicate IsLetter(c: char) {
    'A' <= c <= 'Z' || 'a' <= c <= 'z' || c == '_'
  }

  /** What `quoteIdentifier` accepts. */
  predicate IsIdentifier(name: string) {
    name != "" && IsLetter(name[0]) && forall c :: c in name ==> IsLetter(c) || '0' <= c <= '9'
  }

  /** A name can be quoted if it consists of letters, underscores and, after the first character, digits. */
  lemma IdentifiersAre(name: string)
    ensures IsIdentifier(name) <==> |name| >= 1 && !('0' <= name[0] <= '9') && forall i :: 0 <= i < |name| ==> IsWordChar(name[i])
  {
    if forall i :: 0 <= i < |name| ==> IsWordChar(name[i]) {
      forall c | c in name ensures IsLetter(c) || '0' <= c <= '9' {
        var i :| 0 <= i < |name| && name[i] == c;
        assert IsWordChar(name[i]);
      }
      assert |name| >= 1 ==> IsWordChar(name[0]);
    }
    if IsIdentifier(name) {
      forall i | 0 <= i < |name| ensures IsWordChar(name[i]) {
        assert name[i] in name;
      }
    }
  }

  predicate IsWordChar(c: char) {
    'A' <= c <= 'Z' || 'a' <= c <= 'z' || c == '_' || '0' <= c <= '9'
  }

  // ---- The server ----

  predicate Applicable(columns: seq<Column>, s: Statement) {
    match s
    case Drop(name) => Has(columns, name)
    case Add(column) => !Has(columns, column.name)
    case Modify(column) => Has(columns, column.name)
  }

  function Apply(columns: seq<Column>, s: Statement, report: string -> string): seq<Column> {
    match s
    case Drop(name) => Without(columns, name)
    case Add(column) => columns + [Column(column.name, report(column.columnType))]
    case Modify(column) => Retyped(columns, column.name, report(column.columnType))
  }

  function RunAll(columns: seq<Column>, statements: seq<Statement>, report: string -> string): seq<Column> {
    if statements == [] then columns
    else Apply(RunAll(columns, statements[..|statements| - 1], report), statements[|statements| - 1], report)
  }

  /** Every statement applies to what the statements before it leave. */
  predicate AllApplicable(columns: seq<Column>, statements: seq<Statement>, report: string -> string) {
    statements == [] ||
    var before := statements[..|statements| - 1];
    AllApplicable(columns, before, report) && Applicable(RunAll(columns, before, report), statements[|statements| - 1])
  }

  lemma {:induction false} AllApplicableFrom(columns: seq<Column>, statements: seq<Statement>, n: nat, report: string -> string)
    requires n <= |statements|
    requires forall i :: 0 <= i < n ==> Applicable(RunAll(columns, statements[..i], report), statements[i])
    ensures AllApplicable(columns, statements[..n], report)
  {
    if n > 0 {
      AllApplicableFrom(columns, statements, n - 1, report);
      assert statements[..n][..n - 1] == statements[..n - 1];
    }
  }

  lemma {:induction false} PrefixApplies(columns: seq<Column>, statements: seq<Statement>, n: nat, report: string -> string)
    requires n <= |statements| && AllApplicable(columns, statements, report)
    ensures AllApplicable(columns, statements[..n], report)
    decreases |statements|
  {
    if n == |statements| {
      assert statements[..n] == statements;
    } else {
      PrefixApplies(columns, statements[..|statements| - 1], n, report);
      assert statements[..|statements| - 1][..n] == statements[..n];
    }
  }

  // ---- The statements of a difference ----

  function DropsOf(names: seq<string>): (r: seq<Statement>)
    ensures |r| == |names|
  {
    seq(|names|, i requires 0 <= i < |names| => Drop(names[i]))
  }

  function AddsOf(columns: seq<Column>): (r: seq<Statement>)
    ensures |r| == |columns|
  {
    seq(|columns|, i requires 0 <= i < |columns| => Add(columns[i]))
  }

  function ModifiesOf(columns: seq<Column>): (r: seq<Statement>)
    ensures |r| == |columns|
  {
    seq(|columns|, i requires 0 <= i < |columns| => Modify(columns[i]))
  }

  function StatementsOf(diff: Diff): seq<Statement> {
    DropsOf(diff.deletes) + AddsOf(diff.adds) + ModifiesOf(diff.retypes)
  }

  /** First come the columns to drop, then those to add, then those to retype, each kind in the order of the difference. */
  lemma StatementsInOrder(diff: Diff)
    ensures var (s, d, a) := (StatementsOf(diff), |diff.deletes|, |diff.adds|);
            && |s| == d + a + |diff.retypes|
            && (forall i :: 0 <= i < d ==> s[i] == Drop(diff.deletes[i]))
            && (forall i :: 0 <= i < a ==> s[d + i] == Add(diff.adds[i]))
            && (forall i :: 0 <= i < |diff.retypes| ==> s[d + a + i] == Modify(diff.retypes[i]))
  {
  }

  /** The database and table name, part by part. */
  predicate TableQuotable(table: seq<string>) {
    forall name :: name in table ==> IsIdentifier(name)
  }

  /** Every name a statement has to quote. */
  predicate AllQuotable(table: seq<string>, diff: Diff) {
    && TableQuotable(table)
    && (forall name :: name in diff.deletes ==> IsIdentifier(name))
    && (forall c :: c in diff.adds ==> IsIdentifier(c.name))
    && (forall c :: c in diff.retypes ==> IsIdentifier(c.name))
  }

  // ---- What a run of statements does to one column ----

  lemma {:induction false} RunMore(columns: seq<Column>, first: seq<Statement>, more: seq<Statement>, report: string -> string)
    ensures RunAll(columns, first + more, report) == RunAll(RunAll(columns, first, report), more, report)
  {
    if more == [] {
      assert first + more == first;
    } else {
      var n := |more| - 1;
      assert (first + more)[..|first| + n] == first + more[..n];
      RunMore(columns, first, more[..n], report);
    }
  }

  lemma {:induction false} AfterDrops(columns: seq<Column>, names: seq<string>, name: string, report: string -> string)
    ensures Lookup(RunAll(columns, DropsOf(names), report), name) == if name in names then None else Lookup(columns, name)
  {
    if names != [] {
      var n := |names| - 1;
      assert DropsOf(names)[..n] == DropsOf(names[..n]);
      AfterDrops(columns, names[..n], name, report);
      LookupWithout(RunAll(columns, DropsOf(names[..n]), report), names[n], name);
      assert names == names[..n] + [names[n]];
    }
  }

  function Reported(c: Option<string>, report: string -> string): Option<string> {
    if c.Some? then Some(report(c.value)) else None
  }

  lemma {:induction false} AfterAdds(columns: seq<Column>, adds: seq<Column>, name: string, report: string -> string)
    requires Distinct(adds)
    ensures Lookup(RunAll(columns, AddsOf(adds), report), name)
         == if Has(columns, name) then Lookup(columns, name) else Reported(Lookup(adds, name), report)
  {
    if adds != [] {
      var n := |adds| - 1;
      assert AddsOf(adds)[..n] == AddsOf(adds[..n]);
      AfterAdds(columns, adds[..n], name, report);
      LookupAppend(RunAll(columns, AddsOf(adds[..n]), report), Column(adds[n].name, report(adds[n].columnType)), name);
      LookupAppend(adds[..n], adds[n], name);
      assert adds == adds[..n] + [adds[n]];
    }
  }

  lemma {:induction false} AfterModifies(columns: seq<Column>, retypes: seq<Column>, name: string, report: string -> string)
    requires Distinct(retypes)
    ensures Lookup(RunAll(columns, ModifiesOf(retypes), report), name)
         == if Has(columns, name) && Has(retypes, name) then Reported(Lookup(retypes, name), report) else Lookup(columns, name)
  {
    if retypes != [] {
      var n := |retypes| - 1;
      assert ModifiesOf(retypes)[..n] == ModifiesOf(retypes[..n]);
      AfterModifies(columns, retypes[..n], name, report);
      LookupRetyped(RunAll(columns, ModifiesOf(retypes[..n]), report), retypes[n].name, report(retypes[n].columnType), name);
      LookupAppend(retypes[..n], retypes[n], name);
      NotYetRemoved(retypes, n);
      assert retypes == retypes[..n] + [retypes[n]];
    }
  }

  // ---- The difference, column by column ----

  lemma {:induction false} AddsAreDistinct(schema: seq<Column>, table: seq<Column>)
    requires Distinct(schema)
    ensures Distinct(Adds(schema, table)) && forall c :: c in Adds(schema, table) ==> c in schema
  {
    if schema != [] {
      var n := |schema| - 1;
      AddsAreDistinct(schema[..n], table);
      assert forall c :: c in schema[..n] ==> c.name != schema[n].name;
    }
  }

  lemma {:induction false} ModifiesAreDistinct(schema: seq<Column>, table: seq<Column>)
    requires Distinct(schema)
    ensures Distinct(Modifies(schema, table)) && forall c :: c in Modifies(schema, table) ==> c in schema
  {
    if schema != [] {
      var n := |schema| - 1;
      ModifiesAreDistinct(schema[..n], table);
      assert forall c :: c in schema[..n] ==> c.name != schema[n].name;
    }
  }

  /** Added are the schema's columns that the table does not have. */
  lemma {:induction false} AddsAre(schema: seq<Column>, table: seq<Column>, name: string)
    ensures Lookup(Adds(schema, table), name) == if Has(table, name) then None else Lookup(schema, name)
  {
    if schema != [] {
      var n := |schema| - 1;
      AddsAre(schema[..n], table, name);
      LookupAppend(schema[..n], schema[n], name);
      LookupAppend(Adds(schema[..n], table), schema[n], name);
      assert Adds(schema[..n], table) + [] == Adds(schema[..n], table);
      assert schema == schema[..n] + [schema[n]];
    }
  }

  /** The column the schema and the table disagree about. */
  function Disagreed(schema: seq<Column>, table: seq<Column>, name: string): Option<string> {
    var wanted := Lookup(schema, name);
    if wanted.Some? && Differs(table, Column(name, wanted.value)) then wanted else None
  }

  /** Modified are the schema's columns that the table has with another type. */
  lemma {:induction false} ModifiesAre(schema: seq<Column>, table: seq<Column>, name: string)
    requires Distinct(schema)
    ensures Lookup(Modifies(schema, table), name) == Disagreed(schema, table, name)
  {
    if schema != [] {
      var n := |schema| - 1;
      ModifiesAre(schema[..n], table, name);
      LookupAppend(schema[..n], schema[n], name);
      NotYetRemoved(schema, n);
      assert schema == schema[..n] + [schema[n]];
      LookupAppend(Modifies(schema[..n], table), schema[n], name);
      assert Modifies(schema[..n], table) + [] == Modifies(schema[..n], table);
    }
  }

  lemma DeletesAre(schema: seq<Column>, table: seq<Column>, name: string)
    ensures name in Names(Leftover(schema, table)) <==> Has(table, name) && !Has(schema, name)
  {
    LookupLeftover(schema, table, name);
    HasIff(Leftover(schema, table), name);
  }

  // ---- The synchronised table ----

  /** The table after the statements of its difference from the schema. */
  function Synced(schema: seq<Column>, table: seq<Column>, report: string -> string): seq<Column> {
    RunAll(table, StatementsOf(DiffOf(schema, table)), report)
  }

  /** The type a column ends with. */
  function Expected(schema: seq<Column>, table: seq<Column>, name: string, report: string -> string): Option<string> {
    if !Has(schema, name) then None
    else if Has(table, name) && Disagreed(schema, table, name).None? then Lookup(table, name)
    else Reported(Lookup(schema, name), report)
  }

  /**
   Exactly the schema's columns remain; one whose type already agreed is untouched, and
   every other has the type the server reports for the schema's type.
   */
  lemma SyncedColumn(schema: seq<Column>, table: seq<Column>, name: string, report: string -> string)
    requires Distinct(schema)
    ensures Lookup(Synced(schema, table, report), name) == Expected(schema, table, name, report)
  {
    var d := DiffOf(schema, table);
    var (drops, adds, mods) := (DropsOf(d.deletes), AddsOf(d.adds), ModifiesOf(d.retypes));
    RunMore(table, drops + adds, mods, report);
    RunMore(table, drops, adds, report);
    AddsAreDistinct(schema, table);
    ModifiesAreDistinct(schema, table);
    AfterDrops(table, d.deletes, name, report);
    AfterAdds(RunAll(table, drops, report), d.adds, name, report);
    AfterModifies(RunAll(table, drops + adds, report), d.retypes, name, report);
    DeletesAre(schema, table, name);
    AddsAre(schema, table, name);
    ModifiesAre(schema, table, name);
  }

  // ---- Every statement applies ----

  lemma DropApplies(schema: seq<Column>, table: seq<Column>, i: nat, report: string -> string)
    requires Distinct(table) && i < |DiffOf(schema, table).deletes|
    ensures var names := DiffOf(schema, table).deletes; Applicable(RunAll(table, DropsOf(names[..i]), report), Drop(names[i]))
  {
    var names := DiffOf(schema, table).deletes;
    AfterDrops(table, names[..i], names[i], report);
    DeletesAre(schema, table, names[i]);
    LeftoverIsDistinct(schema, table);
  }

  lemma {:induction false} WithoutIsDistinct(columns: seq<Column>, name: string)
    requires Distinct(columns)
    ensures Distinct(Without(columns, name)) && forall c :: c in Without(columns, name) ==> c in columns
  {
    if columns != [] {
      WithoutIsDistinct(columns[1..], name);
      assert forall c :: c in columns[1..] ==> c.name != columns[0].name;
    }
  }

  lemma {:induction false} LeftoverIsDistinct(schema: seq<Column>, table: seq<Column>)
    requires Distinct(table)
    ensures Distinct(Leftover(schema, table))
  {
    if schema != [] {
      LeftoverIsDistinct(schema[..|schema| - 1], table);
      WithoutIsDistinct(Leftover(schema[..|schema| - 1], table), schema[|schema| - 1].name);
    }
  }

  lemma AddApplies(schema: seq<Column>, table: seq<Column>, i: nat, report: string -> string)
    requires Distinct(schema) && i < |DiffOf(schema, table).adds|
    ensures var d := DiffOf(schema, table);
            Applicable(RunAll(RunAll(table, DropsOf(d.deletes), report), AddsOf(d.adds[..i]), report), Add(d.adds[i]))
  {
    var d := DiffOf(schema, table);
    var dropped := RunAll(table, DropsOf(d.deletes), report);
    var name := d.adds[i].name;
    AddsAreDistinct(schema, table);
    assert Distinct(d.adds[..i]);
    AfterAdds(dropped, d.adds[..i], name, report);
    AfterDrops(table, d.deletes, name, report);
    NotYetRemoved(d.adds, i);
    AddsAre(schema, table, name);
    LookupFinds(d.adds, i);
  }

  lemma ModifyApplies(schema: seq<Column>, table: seq<Column>, i: nat, report: string -> string)
    requires Distinct(schema) && i < |DiffOf(schema, table).retypes|
    ensures var d := DiffOf(schema, table);
            var added := RunAll(RunAll(table, DropsOf(d.deletes), report), AddsOf(d.adds), report);
            Applicable(RunAll(added, ModifiesOf(d.retypes[..i]), report), Modify(d.retypes[i]))
  {
    var d := DiffOf(schema, table);
    var dropped := RunAll(table, DropsOf(d.deletes), report);
    var added := RunAll(dropped, AddsOf(d.adds), report);
    var name := d.retypes[i].name;
    AddsAreDistinct(schema, table);
    ModifiesAreDistinct(schema, table);
    assert Distinct(d.retypes[..i]);
    AfterModifies(added, d.retypes[..i], name, report);
    AfterAdds(dropped, d.adds, name, report);
    AfterDrops(table, d.deletes, name, report);
    DeletesAre(schema, table, name);
    ModifiesAre(schema, table, name);
    LookupFinds(d.retypes, i);
  }

  lemma StatementApplies(schema: seq<Column>, table: seq<Column>, i: nat, report: string -> string)
    requires Distinct(schema) && Distinct(table) && i < |StatementsOf(DiffOf(schema, table))|
    ensures var all := StatementsOf(DiffOf(schema, table)); Applicable(RunAll(table, all[..i], report), all[i])
  {
    var d := DiffOf(schema, table);
    var (drops, adds, mods) := (DropsOf(d.deletes), AddsOf(d.adds), ModifiesOf(d.retypes));
    var all := StatementsOf(d);
    if i < |drops| {
      DropApplies(schema, table, i, report);
      assert all[..i] == DropsOf(d.deletes[..i]);
    } else if i < |drops| + |adds| {
      var k := i - |drops|;
      AddApplies(schema, table, k, report);
      assert all[..i] == drops + AddsOf(d.adds[..k]);
      RunMore(table, drops, AddsOf(d.adds[..k]), report);
    } else {
      var k := i - |drops| - |adds|;
      ModifyApplies(schema, table, k, report);
      assert all[..i] == drops + adds + ModifiesOf(d.retypes[..k]);
      RunMore(table, drops + adds, ModifiesOf(d.retypes[..k]), report);
      RunMore(table, drops, adds, report);
    }
  }

  /** Every DROP, ADD and MODIFY is applicable when its turn comes. */
  lemma StatementsApply(schema: seq<Column>, table: seq<Column>, report: string -> string)
    requires Distinct(schema) && Distinct(table)
    ensures AllApplicable(table, StatementsOf(DiffOf(schema, table)), report)
  {
    var all := StatementsOf(DiffOf(schema, table));
    forall i | 0 <= i < |all| ensures Applicable(RunAll(table, all[..i], report), all[i]) {
      StatementApplies(schema, table, i, report);
    }
    AllApplicableFrom(table, all, |all|, report);
    assert all[..|all|] == all;
  }

  // ---- Convergence ----

  /** There is nothing to do for this table. */
  predicate InSync(schema: seq<Column>, table: seq<Column>) {
    DiffOf(schema, table) == Diff([], [], [])
  }

  /** The schema's columns whose type has to be written: new ones and retyped ones. */
  predicate Written(schema: seq<Column>, table: seq<Column>, c: Column) {
    c in schema && (!Has(table, c.name) || Differs(table, c))
  }

  /** A difference is empty exactly when both sides have the same columns with the same types up to spacing and case. */
  lemma InSyncIff(schema: seq<Column>, table: seq<Column>)
    requires Distinct(schema)
    ensures InSync(schema, table) <==>
              && (forall name :: Has(table, name) <==> Has(schema, name))
              && (forall name :: Has(schema, name) && Has(table, name) ==> Disagreed(schema, table, name).None?)
  {
    var d := DiffOf(schema, table);
    forall name
      ensures Has(d.adds, name) <==> Has(schema, name) && !Has(table, name)
      ensures name in d.deletes <==> Has(table, name) && !Has(schema, name)
      ensures Has(d.retypes, name) <==> Disagreed(schema, table, name).Some?
    {
      AddsAre(schema, table, name);
      DeletesAre(schema, table, name);
      ModifiesAre(schema, table, name);
    }
    assert d.adds != [] ==> Has(d.adds, d.adds[0].name);
    assert d.deletes != [] ==> d.deletes[0] in d.deletes;
    assert d.retypes != [] ==> Has(d.retypes, d.retypes[0].name);
  }

  /** The server reports the types it was given up to spacing and case. */
  ghost predicate Echoes(schema: seq<Column>, table: seq<Column>, report: string -> string) {
    forall c :: Written(schema, table, c) ==> NormalizeType(report(c.columnType)) == NormalizeType(c.columnType)
  }

  /**
   After synchronising, a second comparison finds nothing if and only if the server
   reports every type it was just given up to spacing and case. A type that the server
   renames, an alias for instance, is altered again at every start.
   */
  lemma SecondDiffIsEmptyIff(schema: seq<Column>, table: seq<Column>, report: string -> string)
    requires Distinct(schema)
    ensures InSync(schema, Synced(schema, table, report)) <==> Echoes(schema, table, report)
  {
    var synced := Synced(schema, table, report);
    InSyncIff(schema, synced);
    forall name
      ensures Has(synced, name) <==> Has(schema, name)
      ensures Has(schema, name) ==> (Disagreed(schema, synced, name).None? <==> EchoesOne(schema, table, name, report))
    {
      SyncedColumn(schema, table, name, report);
      if Has(schema, name) {
        WantedIsInSchema(schema, name);
      }
    }
    if Echoes(schema, table, report) {
      forall name | Has(schema, name) ensures EchoesOne(schema, table, name, report) {
      }
    }
    forall c | Written(schema, table, c) && EchoesOne(schema, table, c.name, report)
      ensures NormalizeType(report(c.columnType)) == NormalizeType(c.columnType)
    {
      var i :| 0 <= i < |schema| && schema[i] == c;
      LookupFinds(schema, i);
    }
    forall c | c in schema ensures Has(schema, c.name) {
      HasIff(schema, c.name);
      var i :| 0 <= i < |schema| && schema[i] == c;
      assert Names(schema)[i] == c.name;
    }
  }

  const FLAG: seq<Column> := [Column("flag", "BOOLEAN")]
  const FLAG_IN_TABLE: seq<Column> := [Column("flag", "Bool")]

  /** A server that knows BOOLEAN as an alias of Bool. */
  function Renaming(t: string): string {
    if t == "BOOLEAN" then "Bool" else t
  }

  lemma AliasDiffers()
    ensures Differs(FLAG_IN_TABLE, FLAG[0])
  {
    assert NormalizeType("BOOLEAN") == "boolean" && NormalizeType("Bool") == "bool";
  }

  lemma AliasDiff()
    ensures DiffOf(FLAG, FLAG_IN_TABLE) == Diff([], [], FLAG)
  {
    AliasDiffers();
    assert FLAG[..0] == [] && FLAG_IN_TABLE[1..] == [];
    assert Adds(FLAG[..0], FLAG_IN_TABLE) == [] && Modifies(FLAG[..0], FLAG_IN_TABLE) == [];
    assert Leftover(FLAG[..0], FLAG_IN_TABLE) == FLAG_IN_TABLE;
  }

  lemma OneModify(table: seq<Column>, c: Column, report: string -> string)
    ensures RunAll(table, StatementsOf(Diff([], [], [c])), report) == Retyped(table, c.name, report(c.columnType))
  {
    assert StatementsOf(Diff([], [], [c])) == [Modify(c)];
    assert [Modify(c)][..0] == [];
    assert RunAll(table, [], report) == table;
  }

  lemma RetypedAlike()
    ensures Retyped(FLAG_IN_TABLE, "flag", "Bool") == FLAG_IN_TABLE
  {
    assert FLAG_IN_TABLE[1..] == [];
  }

  /** With an alias in the schema, synchronising leaves the table as it was, and the next comparison finds the same again. */
  lemma AliasNeverSettles()
    ensures Synced(FLAG, FLAG_IN_TABLE, Renaming) == FLAG_IN_TABLE && !InSync(FLAG, FLAG_IN_TABLE)
  {
    AliasDiff();
    OneModify(FLAG_IN_TABLE, FLAG[0], Renaming);
    RetypedAlike();
  }

  lemma WantedIsInSchema(schema: seq<Column>, name: string)
    requires Distinct(schema) && Has(schema, name)
    ensures Column(name, Lookup(schema, name).value) in schema
  {
    HasIff(schema, name);
    var i :| 0 <= i < |schema| && schema[i].name == name;
    LookupFinds(schema, i);
  }

  predicate EchoesOne(schema: seq<Column>, table: seq<Column>, name: string, report: string -> string) {
    var wanted := Lookup(schema, name);
    wanted.Some? && Written(schema, table, Column(name, wanted.value)) ==>
      NormalizeType(report(wanted.value)) == NormalizeType(wanted.value)
  }

  // ---- The service ----

  datatype SyncError = InvalidIdentifier | Refused(statement: Statement)

  class ClickHouseTable {
    var columns: seq<Column>
    const report: string -> string

    constructor (columns: seq<Column>, report: string -> string)
      ensures this.columns == columns && this.report == report
    {
      this.columns, this.report := columns, report;
    }

    /** One ALTER statement; the server refuses what does not apply. */
    method Query(s: Statement) returns (ok: bool)
      modifies this
      ensures ok == Applicable(old(columns), s)
      ensures columns == if ok then Apply(old(columns), s, report) else old(columns)
    {
      ok := Applicable(columns, s);
      if ok {
        columns := Apply(columns, s, report);
      }
    }

    /** Builds every statement before the first one runs, so an invalid name changes nothing. */
    method SyncTable(table: seq<string>, diff: Diff) returns (r: Result<(), SyncError>)
      modifies this
      ensures r == Err(InvalidIdentifier) <==> !AllQuotable(table, diff)
      ensures r == Err(InvalidIdentifier) ==> columns == old(columns)
      ensures r.Ok? <==> AllQuotable(table, diff) && AllApplicable(old(columns), StatementsOf(diff), report)
      ensures r.Ok? ==> columns == RunAll(old(columns), StatementsOf(diff), report)
    {
      if !AllQuotable(table, diff) {
        return Err(InvalidIdentifier);
      }
      var statements := Statements(diff);
      r := RunStatements(statements);
    }

    /** The statements in order: drops, additions, modifications. */
    method Statements(diff: Diff) returns (statements: seq<Statement>)
      ensures statements == StatementsOf(diff)
    {
      statements := [];
      for i := 0 to |diff.deletes|
        invariant statements == DropsOf(diff.deletes[..i])
      {
        statements := statements + [Drop(diff.deletes[i])];
      }
      for i := 0 to |diff.adds|
        invariant statements == DropsOf(diff.deletes) + AddsOf(diff.adds[..i])
      {
        statements := statements + [Add(diff.adds[i])];
      }
      for i := 0 to |diff.retypes|
        invariant statements == DropsOf(diff.deletes) + AddsOf(diff.adds) + ModifiesOf(diff.retypes[..i])
      {
        statements := statements + [Modify(diff.retypes[i])];
      }
    }

    /** Runs the statements one by one, up to the first one the server refuses. */
    method RunStatements(statements: seq<Statement>) returns (r: Result<(), SyncError>)
      modifies this
      ensures r.Ok? <==> AllApplicable(old(columns), statements, report)
      ensures r.Err? ==> r.error.Refused?
      ensures r.Ok? ==> columns == RunAll(old(columns), statements, report)
    {
      for i := 0 to |statements|
        invariant columns == RunAll(old(columns), statements[..i], report)
        invariant AllApplicable(old(columns), statements[..i], report)
      {
        assert statements[..i + 1][..i] == statements[..i];
        var ok := Query(statements[i]);
        if !ok {
          if AllApplicable(old(columns), statements, report) {
            PrefixApplies(old(columns), statements, i + 1, report);
          }
          return Err(Refused(statements[i]));
        }
      }
      assert statements[..|statements|] == statements;
      r := Ok(());
    }

    /**
     The automatic synchronisation of an existing table. Describing it quotes its name first,
     so that name is refused also when no statement would follow.
     */
    method AutoSync(table: seq<string>, schema: seq<Column>) returns (r: Result<(), SyncError>)
      requires Distinct(schema) && Distinct(columns)
      modifies this
      ensures r.Ok? <==>
                && TableQuotable(table)
                && (InSync(schema, old(columns)) || AllQuotable(table, DiffOf(schema, old(columns))))
      ensures r.Err? ==> r.error == InvalidIdentifier && columns == old(columns)
      ensures r.Ok? ==> columns == Synced(schema, old(columns), report)
    {
      if !TableQuotable(table) {
        return Err(InvalidIdentifier);
      }
      var diff := DiffTableMeta(schema, columns);
      StatementsApply(schema, columns, report);
      if diff.adds != [] || diff.deletes != [] || diff.retypes != [] {
        r := SyncTable(table, diff);
      } else {
        r := Ok(());
      }
    }
  }
}
