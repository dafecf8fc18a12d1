/** The folder tree a mirrored listing forms, and the paths read back from it. */
module S3Paths {
  import opened Common
  import opened LexOrder
  import opened S3Keys
  import opened S3Mirror

  predicate Listed(entries: seq<Entry>, key: Text) {
    exists i | 0 <= i < |entries| :: entries[i].key == key
  }

  /** Every row points at the row of its parent folder, if that folder was listed. */
  ghost predicate WellLinked(rows: Table) {
    forall id :: 0 <= id < |rows| ==> LinkOk(rows, id)
  }

  predicate LinkOk(rows: Table, id: Id)
    requires id < |rows|
  {
    && rows[id].name == Name(rows[id].key)
    && (rows[id].parent.Some? ==>
          && rows[id].parent.value < |rows|
          && ParentKey(rows[id].key) == Some(rows[rows[id].parent.value].key))
  }

  /** In the mirror of any listing a row has a parent exactly when its parent folder key is listed. */
  lemma MirrorIsLinked(entries: seq<Entry>, id: Id)
    requires id < |entries|
    ensures LinkOk(Mirror(entries), id)
    ensures Mirror(entries)[id].parent.Some? <==>
              ParentKey(entries[id].key).Some? && Listed(entries, ParentKey(entries[id].key).value)
  {
    var parent := ParentKey(entries[id].key);
    if parent.Some? {
      IndexFinds(entries, parent.value);
    }
  }

  lemma MirrorIsWellLinked(entries: seq<Entry>)
    ensures WellLinked(Mirror(entries))
  {
    forall id | 0 <= id < |entries| ensures LinkOk(Mirror(entries), id) {
      MirrorIsLinked(entries, id);
    }
  }

  /** A parent's key is a proper prefix of its child's: following parents cannot return to the same row. */
  lemma ParentIsShorter(rows: Table, id: Id)
    requires WellLinked(rows) && id < |rows| && rows[id].parent.Some?
    ensures rows[id].parent.value < |rows| && |rows[rows[id].parent.value].key| < |rows[id].key|
  {
    assert LinkOk(rows, id);
    ParentIsLess(rows[id].key);
  }

  /** The row `steps` parents up, None past the root. */
  function Ancestor(rows: Table, id: Id, steps: nat): Option<Id>
    decreases steps
  {
    if steps == 0 then Some(id)
    else if id < |rows| && rows[id].parent.Some? then Ancestor(rows, rows[id].parent.value, steps - 1)
    else None
  }

  lemma {:induction false} AncestorIsShorter(rows: Table, id: Id, steps: nat)
    requires WellLinked(rows) && id < |rows|
    ensures Ancestor(rows, id, steps).Some? ==>
              var a := Ancestor(rows, id, steps).value; a < |rows| && |rows[a].key| + steps <= |rows[id].key|
    decreases steps
  {
    if steps > 0 && rows[id].parent.Some? {
      ParentIsShorter(rows, id);
      AncestorIsShorter(rows, rows[id].parent.value, steps - 1);
    }
  }

  /** The parent graph of a mirrored listing, sorted or not, has no cycle. */
  lemma MirrorIsAcyclic(entries: seq<Entry>, id: Id, steps: nat)
    requires id < |entries| && steps > 0
    ensures Ancestor(Mirror(entries), id, steps) != Some(id)
  {
    MirrorIsWellLinked(entries);
    AncestorIsShorter(Mirror(entries), id, steps);
  }

  /** `getFilePathString`. */
  function FilePath(rows: Table, id: Id): Text
    requires WellLinked(rows) && id < |rows|
    decreases |rows[id].key|
  {
    if rows[id].parent.None? then rows[id].name
    else
      ParentIsShorter(rows, id);
      FilePath(rows, rows[id].parent.value) + [SLASH] + rows[id].name
  }

  /** `n` cuts off a folder above the key. */
  predicate CutsFolder(key: Text, n: int) {
    0 < n <= |Base(key)| && key[n - 1] == SLASH
  }

  /** Every folder above the key is listed as a key of its own. */
  ghost predicate FoldersListed(entries: seq<Entry>, key: Text) {
    forall n :: CutsFolder(key, n) ==> Listed(entries, key[..n])
  }

  lemma CutsAreParentOrAbove(key: Text, n: int)
    requires ParentKey(key).Some?
    ensures CutsFolder(key, n) <==> n == |ParentKey(key).value| || CutsFolder(ParentKey(key).value, n)
    ensures CutsFolder(ParentKey(key).value, n) ==> n <= |key| && key[..n] == ParentKey(key).value[..n]
    ensures |ParentKey(key).value| <= |key| && key[..|ParentKey(key).value|] == ParentKey(key).value
  {
    KeyIsParentAndName(key);
    ParentIsLess(key);
    var parent := ParentKey(key).value;
    assert Base(key)[|parent|..] == Name(key);
    if |parent| < n <= |Base(key)| {
      assert key[n - 1] == Name(key)[n - 1 - |parent|];
    }
  }

  /** The folders above a key are its parent and the folders above that. */
  lemma FoldersAbove(entries: seq<Entry>, key: Text)
    ensures ParentKey(key).None? ==> FoldersListed(entries, key)
    ensures ParentKey(key).Some? ==>
              (FoldersListed(entries, key) <==>
               Listed(entries, ParentKey(key).value) && FoldersListed(entries, ParentKey(key).value))
  {
    if ParentKey(key).None? {
      KeyIsParentAndName(key);
    } else {
      ParentListedToo(entries, key);
      KeyListedToo(entries, key);
    }
  }

  lemma ParentListedToo(entries: seq<Entry>, key: Text)
    requires ParentKey(key).Some?
    ensures FoldersListed(entries, key) ==> Listed(entries, ParentKey(key).value) && FoldersListed(entries, ParentKey(key).value)
  {
    var parent := ParentKey(key).value;
    CutsAreParentOrAbove(key, |parent|);
    if FoldersListed(entries, key) {
      forall n | CutsFolder(parent, n) ensures Listed(entries, parent[..n]) {
        CutsAreParentOrAbove(key, n);
      }
    }
  }

  lemma KeyListedToo(entries: seq<Entry>, key: Text)
    requires ParentKey(key).Some?
    ensures Listed(entries, ParentKey(key).value) && FoldersListed(entries, ParentKey(key).value) ==> FoldersListed(entries, key)
  {
    var parent := ParentKey(key).value;
    if Listed(entries, parent) && FoldersListed(entries, parent) {
      forall n | CutsFolder(key, n) ensures Listed(entries, key[..n]) {
        CutsAreParentOrAbove(key, n);
      }
    }
  }

  /**
   The path read back from the rows is the key without its trailing slash if and only
   if every folder above it was listed as a key; otherwise leading folders are lost.
   */
  lemma {:induction false} PathIsTheKeyIff(entries: seq<Entry>, id: Id)
    requires id < |entries|
    ensures WellLinked(Mirror(entries))
    ensures FilePath(Mirror(entries), id) == Base(entries[id].key) <==> FoldersListed(entries, entries[id].key)
    decreases |entries[id].key|
  {
    var rows, key := Mirror(entries), entries[id].key;
    MirrorIsWellLinked(entries);
    MirrorIsLinked(entries, id);
    KeyIsParentAndName(key);
    FoldersAbove(entries, key);
    if rows[id].parent.Some? {
      var p := rows[id].parent.value;
      ParentIsShorter(rows, id);
      PathIsTheKeyIff(entries, p);
      assert entries[p].key == ParentKey(key).value;
      JoinedPath(FilePath(rows, p), Base(entries[p].key), Name(key));
      assert entries[p].key == Base(entries[p].key) + [SLASH];
    } else if ParentKey(key).Some? {
      assert SLASH !in Name(key) && SLASH in Base(key) by {
        assert Base(key)[|ParentKey(key).value| - 1] == SLASH;
      }
    }
  }

  lemma JoinedPath(a: Text, b: Text, name: Text)
    ensures a + [SLASH] + name == b + [SLASH] + name <==> a == b
  {
    if a + [SLASH] + name == b + [SLASH] + name {
      assert |a| == |b|;
      assert (a + [SLASH] + name)[..|a|] == a && (b + [SLASH] + name)[..|b|] == b;
    }
  }
}
