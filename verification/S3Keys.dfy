/** The folder structure of S3 keys (aws-s3-file.service.ts): names, types and parent folder keys. */
module S3Keys {
  import opened Common
  import opened LexOrder

  const SLASH: nat := 47
  const DOT: nat := 46

  predicate IsFolder(key: Text) {
    key != [] && key[|key| - 1] == SLASH
  }

  /** The key without its trailing slash. */
  function Base(key: Text): Text {
    if IsFolder(key) then key[..|key| - 1] else key
  }

  /** The position of the last `c`, or -1. */
  function LastIndex(t: Text, c: nat): (i: int)
    ensures -1 <= i < |t|
    ensures i >= 0 ==> t[i] == c
    ensures forall j :: i < j < |t| ==> t[j] != c
  {
    if t == [] then -1 else if t[|t| - 1] == c then |t| - 1 else LastIndex(t[..|t| - 1], c)
  }

  /** `t.split(c)`. */
  function Split(t: Text, c: nat): (parts: seq<Text>)
    ensures |parts| >= 1
    decreases |t|
  {
    var i := LastIndex(t, c);
    if i < 0 then [t] else Split(t[..i], c) + [t[i + 1..]]
  }

  /** `parts.join(c)`. */
  function Join(parts: seq<Text>, c: nat): Text {
    if parts == [] then [] else if |parts| == 1 then parts[0]
    else Join(parts[..|parts| - 1], c) + [c] + parts[|parts| - 1]
  }

  /** A text with a `c` splits into the parts before the last one and the rest. */
  lemma SplitAtLast(t: Text, c: nat)
    requires LastIndex(t, c) >= 0
    ensures var i := LastIndex(t, c);
            Split(t, c) == Split(t[..i], c) + [t[i + 1..]] && t == t[..i] + [c] + t[i + 1..]
  {
    CutAt(t, LastIndex(t, c));
  }

  lemma CutAt(t: Text, i: nat)
    requires i < |t|
    ensures t == t[..i] + [t[i]] + t[i + 1..]
  {
  }

  lemma JoinLast(parts: seq<Text>, last: Text, c: nat)
    requires parts != []
    ensures Join(parts + [last], c) == Join(parts, c) + [c] + last
  {
    assert (parts + [last])[..|parts|] == parts;
  }

  lemma {:induction false} JoinUndoesSplit(t: Text, c: nat)
    ensures Join(Split(t, c), c) == t
    decreases |t|
  {
    var i := LastIndex(t, c);
    if i >= 0 {
      JoinUndoesSplit(t[..i], c);
      SplitAtLast(t, c);
      JoinLast(Split(t[..i], c), t[i + 1..], c);
    }
  }

  /** The last path segment. */
  function Name(key: Text): Text {
    var parts := Split(Base(key), SLASH);
    parts[|parts| - 1]
  }

  /** "folder", or whatever follows the last dot of the key. */
  function Type(key: Text): Option<Text> {
    if IsFolder(key) then None
    else
      var parts := Split(key, DOT);
      Some(parts[|parts| - 1])
  }

  /** The type of a file is the rest of its key after the last dot, wherever it is, or the whole key. */
  lemma TypeFollowsTheLastDot(key: Text)
    ensures Type(key).None? <==> IsFolder(key)
    ensures Type(key).Some? ==>
              var t := Type(key).value;
              && |t| <= |key| && DOT !in t && key[|key| - |t|..] == t
              && (t == key || key[|key| - |t| - 1] == DOT)
  {
    if !IsFolder(key) && LastIndex(key, DOT) >= 0 {
      SplitAtLast(key, DOT);
    }
  }

  /** The folder key a key belongs to, None at the top level. */
  function ParentKey(key: Text): Option<Text> {
    var parts := Split(Base(key), SLASH);
    if |parts| <= 1 then None else Some(Join(parts[..|parts| - 1], SLASH) + [SLASH])
  }

  lemma ParentAndNameAt(key: Text, i: nat)
    requires LastIndex(Base(key), SLASH) == i
    ensures ParentKey(key) == Some(Base(key)[..i] + [SLASH]) && Name(key) == Base(key)[i + 1..]
  {
    var b := Base(key);
    SplitAtLast(b, SLASH);
    JoinUndoesSplit(b[..i], SLASH);
    var parts := Split(b, SLASH);
    assert parts[..|parts| - 1] == Split(b[..i], SLASH);
  }

  /** A key is its parent's folder key, then its name, then a slash if it is a folder itself. */
  lemma KeyIsParentAndName(key: Text)
    ensures ParentKey(key).None? ==> Base(key) == Name(key) && SLASH !in Base(key)
    ensures ParentKey(key).Some? ==>
              && Base(key) == ParentKey(key).value + Name(key)
              && IsFolder(ParentKey(key).value)
              && SLASH !in Name(key)
  {
    var i := LastIndex(Base(key), SLASH);
    if i >= 0 {
      ParentAndNameAt(key, i);
      SplitAtLast(Base(key), SLASH);
    }
  }

  /**
   Names and types by the shape of a key: after the last slash, a slash at the end of a
   folder key apart, comes the name; after the last dot of a file key comes its type.
   */
  lemma NamesByShape(before: Text, last: Text)
    requires 47 !in last
    ensures Name(before + [47] + last + [47]) == last && Type(before + [47] + last + [47]) == None
    ensures ParentKey(before + [47] + last + [47]) == Some(before + [47])
    ensures last != [] ==> Name(before + [47] + last) == last && ParentKey(before + [47] + last) == Some(before + [47])
    ensures last != [] && 46 !in last ==> Type(before + [46] + last) == Some(last)
  {
    var whole := before + [47] + last;
    LastIndexIs(before, 47, last);
    assert (whole + [47])[..|whole|] == whole && Base(whole + [47]) == whole;
    ParentAndNameAt(whole + [47], |before|);
    assert whole[..|before|] == before && whole[|before| + 1..] == last;
    if last != [] {
      assert whole[|whole| - 1] == last[|last| - 1];
      assert Base(whole) == whole;
      ParentAndNameAt(whole, |before|);
      if 46 !in last {
        var file := before + [46] + last;
        LastIndexIs(before, 46, last);
        assert file[|file| - 1] == last[|last| - 1];
        SplitAtLast(file, 46);
        assert file[|before| + 1..] == last;
      }
    }
  }

  lemma LastIndexIs(before: Text, c: nat, last: Text)
    requires c !in last
    ensures LastIndex(before + [c] + last, c) == |before|
  {
    var t := before + [c] + last;
    assert t[|before|] == c;
    assert t[|before| + 1..] == last;
    forall j | |before| < j < |t| ensures t[j] in last {
      assert t[j] == t[|before| + 1..][j - |before| - 1];
    }
  }

  /** A parent folder key is a proper prefix of its child, so it sorts before it. */
  lemma ParentIsLess(key: Text)
    requires ParentKey(key).Some?
    ensures |ParentKey(key).value| < |key| && ParentKey(key).value == key[..|ParentKey(key).value|]
    ensures Less(ParentKey(key).value, key)
  {
    KeyIsParentAndName(key);
    var p := ParentKey(key).value;
    var i := LastIndex(Base(key), SLASH);
    assert key[..|Base(key)|] == Base(key);
    assert p == key[..|p|];
    assert |p| < |key|;
    ProperPrefixIsLess(p, key);
  }
}
