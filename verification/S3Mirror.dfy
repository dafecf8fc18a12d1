/**
 Mirroring a bucket listing into rows page by page (aws-s3-file.service.ts). The
 specification is a single pass over the whole listing.
 */
module S3Mirror {
  import opened Common
  import opened LexOrder
  import opened S3Keys

  type Id = nat

  datatype Entry = Entry(key: Text, size: nat)

  /** `fileType` None stands for the type "folder". */
  datatype Row = Row(name: Text, fileType: Option<Text>, size: nat, key: Text, parent: Option<Id>)

  /** The id of a row is its position: rows are numbered as they are created. */
  type Table = seq<Row>

  datatype SyncError = NotEmpty

  ghost predicate Sorted(entries: seq<Entry>) {
    forall i, j :: 0 <= i < j < |entries| ==> Less(entries[i].key, entries[j].key)
  }

  function Flatten(pages: seq<seq<Entry>>): seq<Entry> {
    if pages == [] then [] else Flatten(pages[..|pages| - 1]) + pages[|pages| - 1]
  }

  // ---- One pass over the whole listing ----

  /** The id of each key: rows are numbered in listing order. */
  function Index(entries: seq<Entry>): map<Text, Id> {
    if entries == [] then map[] else Index(entries[..|entries| - 1])[entries[|entries| - 1].key := |entries| - 1]
  }

  /** `findParentFolderId`. */
  function FindParentFolderId(key: Text, fileIdByKey: map<Text, Id>): Option<Id> {
    var parent := ParentKey(key);
    if parent.Some? && parent.value in fileIdByKey then Some(fileIdByKey[parent.value]) else None
  }

  function NewRow(entry: Entry): Row {
    Row(Name(entry.key), Type(entry.key), entry.size, entry.key, None)
  }

  function MirrorRow(entries: seq<Entry>, id: Id): Row
    requires id < |entries|
  {
    NewRow(entries[id]).(parent := ParentOf(entries, id))
  }

  function Mirror(entries: seq<Entry>): (rows: Table)
    ensures |rows| == |entries|
  {
    seq(|entries|, id requires 0 <= id < |entries| => MirrorRow(entries, id))
  }

  function Parents(entries: seq<Entry>): (parents: seq<Option<Id>>)
    ensures |parents| == |entries|
  {
    seq(|entries|, id requires 0 <= id < |entries| => ParentOf(entries, id))
  }

  function ParentOf(entries: seq<Entry>, id: Id): Option<Id>
    requires id < |entries|
  {
    FindParentFolderId(entries[id].key, Index(entries))
  }

  /** The mirror has one row per listed object, in order: its key and size, the name and type of its key, its parent. */
  lemma MirrorIsTheListing(entries: seq<Entry>, id: Id)
    requires id < |entries|
    ensures |Mirror(entries)| == |entries|
    ensures var (row, entry) := (Mirror(entries)[id], entries[id]);
            && row.key == entry.key && row.size == entry.size && row.name == Name(entry.key) && row.fileType == Type(entry.key)
            && row.parent == FindParentFolderId(entry.key, Index(entries))
  {
  }

  // ---- The index ----

  lemma {:induction false} IndexFinds(entries: seq<Entry>, key: Text)
    ensures key in Index(entries) <==> exists id | 0 <= id < |entries| :: entries[id].key == key
    ensures key in Index(entries) ==> Index(entries)[key] < |entries| && entries[Index(entries)[key]].key == key
  {
    if entries != [] {
      var n := |entries| - 1;
      IndexFinds(entries[..n], key);
      if key == entries[n].key {
        assert entries[n].key == key;
      } else if key in Index(entries[..n]) {
        assert entries[..n][Index(entries[..n])[key]].key == key;
      }
    }
  }

  lemma {:induction false} IndexGrows(entries: seq<Entry>, more: seq<Entry>, key: Text)
    requires forall i :: 0 <= i < |more| ==> more[i].key != key
    ensures key in Index(entries + more) <==> key in Index(entries)
    ensures key in Index(entries) ==> Index(entries + more)[key] == Index(entries)[key]
  {
    if more == [] {
      assert entries + more == entries;
    } else {
      var n := |more| - 1;
      assert (entries + more)[..|entries| + n] == entries + more[..n];
      IndexGrows(entries, more[..n], key);
    }
  }

  /** Keys that come later in a sorted listing cannot be the parent of an earlier one. */
  lemma LaterKeysAreNoParents(entries: seq<Entry>, more: seq<Entry>, id: nat)
    requires Sorted(entries + more) && id < |entries|
    ensures FindParentFolderId(entries[id].key, Index(entries + more)) == FindParentFolderId(entries[id].key, Index(entries))
  {
    var key := entries[id].key;
    if ParentKey(key).Some? {
      var parent := ParentKey(key).value;
      ParentIsLess(key);
      forall i | 0 <= i < |more| ensures more[i].key != parent {
        assert (entries + more)[id].key == key && (entries + more)[|entries| + i].key == more[i].key;
        if more[i].key == parent {
          LessIsTransitive(parent, key, parent);
          LessIsIrreflexive(parent);
        }
      }
      IndexGrows(entries, more, parent);
    }
  }

  /** So the rows of a sorted listing are settled as soon as their page is. */
  lemma MirrorOfPrefix(entries: seq<Entry>, more: seq<Entry>, id: nat)
    requires Sorted(entries + more) && id < |entries|
    ensures Mirror(entries + more)[id] == Mirror(entries)[id]
  {
    LaterKeysAreNoParents(entries, more, id);
  }

  // ---- The page loop ----

  function NewRows(page: seq<Entry>): (rows: Table)
    ensures |rows| == |page|
  {
    seq(|page|, i requires 0 <= i < |page| => NewRow(page[i]))
  }

  lemma IndexAppend(entries: seq<Entry>, entry: Entry)
    ensures Index(entries + [entry]) == Index(entries)[entry.key := |entries|]
  {
    assert (entries + [entry])[..|entries|] == entries;
  }

  lemma NextEntry(done: seq<Entry>, page: seq<Entry>, i: nat)
    requires i < |page|
    ensures done + page[..i + 1] == done + page[..i] + [page[i]] && page[..i + 1] == page[..i] + [page[i]]
  {
  }

  lemma NewRowsAppend(page: seq<Entry>, entry: Entry)
    ensures NewRows(page + [entry]) == NewRows(page) + [NewRow(entry)]
  {
  }

  lemma ParentInPage(done: seq<Entry>, page: seq<Entry>, i: nat)
    requires i < |page|
    ensures Parents(done + page)[|done| + i] == FindParentFolderId(page[i].key, Index(done + page))
  {
    assert (done + page)[|done| + i] == page[i];
  }

  predicate IsChild(parents: seq<Option<Id>>, from: nat, to: nat, p: Id, id: Id) {
    from <= id < to <= |parents| && parents[id].Some? && parents[id].value == p
  }

  /** The rows `from` to `to - 1`, grouped by the id of their parent. */
  ghost predicate Groups(groups: map<Id, seq<Id>>, parents: seq<Option<Id>>, from: nat, to: nat)
    requires to <= |parents|
  {
    && (forall p: Id, id: Id :: p in groups && id in groups[p] ==> IsChild(parents, from, to, p, id))
    && (forall id: Id :: from <= id < to && parents[id].Some? ==> Placed(groups, id, parents[id].value))
  }

  predicate Placed(groups: map<Id, seq<Id>>, id: Id, parent: Id) {
    parent in groups && id in groups[parent]
  }

  /** The grouping with one more child. */
  function Grouped(groups: map<Id, seq<Id>>, id: Id, parent: Option<Id>): map<Id, seq<Id>> {
    if parent.None? then groups
    else groups[parent.value := (if parent.value in groups then groups[parent.value] else []) + [id]]
  }

  lemma GroupMembers(groups: map<Id, seq<Id>>, id: Id, parent: Option<Id>, p: Id, other: Id)
    ensures var groups' := Grouped(groups, id, parent);
            (p in groups' && other in groups'[p]) <==>
            (p in groups && other in groups[p]) || (parent.Some? && parent.value == p && other == id)
  {
  }

  lemma GroupOneMore(groups: map<Id, seq<Id>>, parents: seq<Option<Id>>, from: nat, id: Id)
    requires from <= id < |parents| && Groups(groups, parents, from, id)
    ensures Groups(Grouped(groups, id, parents[id]), parents, from, id + 1)
  {
    var groups' := Grouped(groups, id, parents[id]);
    forall p: Id, other: Id | p in groups' && other in groups'[p] ensures IsChild(parents, from, id + 1, p, other) {
      GroupMembers(groups, id, parents[id], p, other);
      assert p in groups && other in groups[p] ==> IsChild(parents, from, id, p, other);
    }
    forall other: Id | from <= other < id + 1 && parents[other].Some? ensures Placed(groups', other, parents[other].value) {
      assert other < id ==> Placed(groups, other, parents[other].value);
    }
  }

  function SetParent(rows: Table, ids: seq<Id>, parent: Id): (r: Table)
    ensures |r| == |rows|
  {
    seq(|rows|, id requires 0 <= id < |rows| => if id in ids then rows[id].(parent := Some(parent)) else rows[id])
  }

  /** The row is linked, or it is new and its parent's group is still in `rest`. */
  predicate LinkedAt(row: Row, created: Row, parent: Option<Id>, isNew: bool, rest: set<Id>) {
    row == created.(parent := if isNew && parent.Some? && parent.value in rest then None else parent)
  }

  /** The rows created for `entries`, linked except for those new ones whose group is in `rest`. */
  ghost predicate HalfLinked(rows: Table, created: Table, parents: seq<Option<Id>>, from: nat, rest: set<Id>) {
    && |rows| == |created| == |parents|
    && forall id :: 0 <= id < |rows| ==> LinkedAt(rows[id], created[id], parents[id], from <= id, rest)
  }

  lemma LinkOneGroup(
    rows: Table, created: Table, parents: seq<Option<Id>>, groups: map<Id, seq<Id>>, from: nat, rest: set<Id>, parent: Id)
    requires Groups(groups, parents, from, |parents|) && HalfLinked(rows, created, parents, from, rest)
    requires parent in rest && parent in groups
    ensures HalfLinked(SetParent(rows, groups[parent], parent), created, parents, from, rest - {parent})
  {
    var rows' := SetParent(rows, groups[parent], parent);
    forall id | 0 <= id < |rows'| ensures LinkedAt(rows'[id], created[id], parents[id], from <= id, rest - {parent}) {
      assert LinkedAt(rows[id], created[id], parents[id], from <= id, rest);
      assert from <= id && parents[id] == Some(parent) ==> Placed(groups, id, parent);
    }
  }

  lemma CreatedIsHalfLinked(groups: map<Id, seq<Id>>, done: seq<Entry>, page: seq<Entry>)
    requires Sorted(done + page) && Groups(groups, Parents(done + page), |done|, |done| + |page|)
    ensures HalfLinked(Mirror(done) + NewRows(page), NewRows(done + page), Parents(done + page), |done|, groups.Keys)
  {
    var rows, created, parents := Mirror(done) + NewRows(page), NewRows(done + page), Parents(done + page);
    forall id | 0 <= id < |rows| ensures LinkedAt(rows[id], created[id], parents[id], |done| <= id, groups.Keys) {
      if id < |done| {
        MirrorOfPrefix(done, page, id);
      } else {
        assert parents[id].Some? ==> Placed(groups, id, parents[id].value);
      }
    }
  }

  lemma HalfLinkedIsMirror(rows: Table, entries: seq<Entry>, from: nat)
    requires HalfLinked(rows, NewRows(entries), Parents(entries), from, {})
    ensures rows == Mirror(entries)
  {
    forall id | 0 <= id < |rows| ensures rows[id] == Mirror(entries)[id] {
      assert LinkedAt(rows[id], NewRows(entries)[id], Parents(entries)[id], from <= id, {});
    }
  }

  class AwsS3FileService {
    var rows: Table

    constructor ()
      ensures rows == []
    {
      rows := [];
    }

    /**
     Refuses a table that has rows; otherwise, however the listing is split into
     pages, the table becomes what one pass over the whole listing would make of it.
     */
    method SyncFilesFromS3ToDatabase(pages: seq<seq<Entry>>) returns (r: Result<(), SyncError>)
      requires Sorted(Flatten(pages))
      modifies this
      ensures r.Err? <==> old(rows) != []
      ensures rows == if r.Ok? then Mirror(Flatten(pages)) else old(rows)
    {
      if rows != [] {
        return Err(NotEmpty);
      }
      var fileIdByKey := map[];
      ghost var done: seq<Entry> := [];
      for i := 0 to |pages|
        invariant done == Flatten(pages[..i])
        invariant rows == Mirror(done) && fileIdByKey == Index(done)
      {
        assert pages[..i + 1][..i] == pages[..i];
        FlattenPrefix(pages, i + 1);
        if pages[i] != [] {
          fileIdByKey := MirrorPage(pages[i], fileIdByKey, done);
        } else {
          assert done + pages[i] == done;
        }
        done := done + pages[i];
      }
      assert pages[..|pages|] == pages;
      r := Ok(());
    }

    /** Creates the rows of one page, then links each of them to its parent folder. */
    method MirrorPage(page: seq<Entry>, known: map<Text, Id>, ghost done: seq<Entry>) returns (fileIdByKey: map<Text, Id>)
      requires rows == Mirror(done) && known == Index(done) && Sorted(done + page)
      modifies this
      ensures rows == Mirror(done + page) && fileIdByKey == Index(done + page)
    {
      fileIdByKey := CreatePage(page, known, done);
      var groups := GroupByParent(page, fileIdByKey, done);
      CreatedIsHalfLinked(groups, done, page);
      LinkGroups(groups, NewRows(done + page), Parents(done + page), |done|);
      HalfLinkedIsMirror(rows, done + page, |done|);
    }

    method CreatePage(page: seq<Entry>, known: map<Text, Id>, ghost done: seq<Entry>) returns (fileIdByKey: map<Text, Id>)
      requires |rows| == |done| && known == Index(done)
      modifies this
      ensures rows == old(rows) + NewRows(page) && fileIdByKey == Index(done + page)
    {
      fileIdByKey := known;
      assert done + page[..0] == done;
      for i := 0 to |page|
        invariant rows == old(rows) + NewRows(page[..i])
        invariant fileIdByKey == Index(done + page[..i])
      {
        NextEntry(done, page, i);
        IndexAppend(done + page[..i], page[i]);
        NewRowsAppend(page[..i], page[i]);
        fileIdByKey := fileIdByKey[page[i].key := |rows|];
        rows := rows + [NewRow(page[i])];
      }
      assert page[..|page|] == page;
    }

    method GroupByParent(page: seq<Entry>, fileIdByKey: map<Text, Id>, ghost done: seq<Entry>)
      returns (groups: map<Id, seq<Id>>)
      requires fileIdByKey == Index(done + page) && |rows| == |done| + |page|
      ensures Groups(groups, Parents(done + page), |done|, |done| + |page|)
    {
      groups := map[];
      var first := |rows| - |page|;
      ghost var parents := Parents(done + page);
      for i := 0 to |page|
        invariant Groups(groups, parents, |done|, |done| + i)
      {
        ParentInPage(done, page, i);
        GroupOneMore(groups, parents, |done|, first + i);
        groups := AddChild(groups, first + i, FindParentFolderId(page[i].key, fileIdByKey));
      }
    }

    /** `get(parentId) ?? []`, push, set. */
    method AddChild(groups: map<Id, seq<Id>>, id: Id, parent: Option<Id>) returns (groups': map<Id, seq<Id>>)
      ensures groups' == Grouped(groups, id, parent)
    {
      groups' := groups;
      if parent.Some? {
        var childIds := if parent.value in groups then groups[parent.value] else [];
        groups' := groups[parent.value := childIds + [id]];
      }
    }

    /** One update per parent. */
    method LinkGroups(groups: map<Id, seq<Id>>, ghost created: Table, ghost parents: seq<Option<Id>>, ghost from: nat)
      requires Groups(groups, parents, from, |parents|) && HalfLinked(rows, created, parents, from, groups.Keys)
      modifies this
      ensures HalfLinked(rows, created, parents, from, {})
    {
      var rest := groups.Keys;
      while rest != {}
        invariant rest <= groups.Keys
        invariant HalfLinked(rows, created, parents, from, rest)
        decreases |rest|
      {
        var parent :| parent in rest;
        LinkOneGroup(rows, created, parents, groups, from, rest, parent);
        rows := SetParent(rows, groups[parent], parent);
        rest := rest - {parent};
      }
    }
  }

  lemma {:induction false} FlattenPrefix(pages: seq<seq<Entry>>, i: nat)
    requires i <= |pages| && Sorted(Flatten(pages))
    ensures Sorted(Flatten(pages[..i]))
    decreases |pages| - i
  {
    if i == |pages| {
      assert pages[..i] == pages;
    } else {
      FlattenPrefix(pages, i + 1);
      assert pages[..i + 1][..i] == pages[..i];
      var whole, part := Flatten(pages[..i + 1]), Flatten(pages[..i]);
      assert forall k :: 0 <= k < |part| ==> whole[k] == part[k];
    }
  }
}
