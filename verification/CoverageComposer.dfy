/**
 Composing the coverage of a run (evaluation-invariants.ts) and why the composed
 snapshot accounts for the manifest and satisfies the validator.
 */
module CoverageComposer {
  import opened Common
  import opened SourceTally
  import opened Coverage

  datatype Input = Input(
    items: seq<Item>,
    evaluatedRefs: seq<string>,
    declaredUnlinked: Bucket,
    skippedBuckets: seq<Option<Bucket>>)

  // ---- Specification ----

  function IdsOf(items: seq<Item>): set<string> {
    set item <- items :: item.id
  }

  /** Source of every id; the last item wins when ids repeat, as in `new Map(...)`. */
  function SourceById(items: seq<Item>): map<string, string> {
    if items == [] then map[]
    else
      var last := items[|items| - 1];
      SourceById(items[..|items| - 1])[last.id := last.source]
  }

  /** First occurrences, in order. */
  function Dedupe(refs: seq<string>): seq<string> {
    if refs == [] then []
    else
      var before := Dedupe(refs[..|refs| - 1]);
      if refs[|refs| - 1] in before then before else before + [refs[|refs| - 1]]
  }

  function Unknown(refs: seq<string>, byId: map<string, string>): seq<string> {
    if refs == [] then []
    else
      var before := Unknown(refs[..|refs| - 1], byId);
      if refs[|refs| - 1] in byId then before else before + [refs[|refs| - 1]]
  }

  function SourcesOfKnown(refs: seq<string>, byId: map<string, string>): seq<string> {
    if refs == [] then []
    else
      var before := SourcesOfKnown(refs[..|refs| - 1], byId);
      if refs[|refs| - 1] in byId then before + [byId[refs[|refs| - 1]]] else before
  }

  function AsSet(ids: seq<string>): set<string> {
    set id | id in ids
  }

  function SkippedIds(buckets: seq<Option<Bucket>>): set<string> {
    if buckets == [] then {}
    else
      var last := buckets[|buckets| - 1];
      SkippedIds(buckets[..|buckets| - 1]) + (if last.Some? then AsSet(ItemsOf(last.value)) else {})
  }

  /** The items whose id is in none of the consumed ids, in manifest order. */
  function Leftover(items: seq<Item>, consumed: set<string>): seq<Item> {
    if items == [] then []
    else
      var before := Leftover(items[..|items| - 1], consumed);
      if items[|items| - 1].id in consumed then before else before + [items[|items| - 1]]
  }

  function Ids(items: seq<Item>): (r: seq<string>)
    ensures |r| == |items| && forall i :: 0 <= i < |items| ==> r[i] == items[i].id
  {
    seq(|items|, i requires 0 <= i < |items| => items[i].id)
  }

  function Sources(items: seq<Item>): (r: seq<string>)
    ensures |r| == |items| && forall i :: 0 <= i < |items| ==> r[i] == items[i].source
  {
    seq(|items|, i requires 0 <= i < |items| => items[i].source)
  }

  function Normalize(b: Bucket): Bucket {
    b.(note := if Noted(b) then b.note else None)
  }

  /** Running totals over the present buckets of a prefix. */
  datatype Merge = Merge(total: real, bySource: Counts, items: seq<string>, notes: seq<string>)

  function Joined(m: Merge, b: Bucket): Merge {
    Merge(
      m.total + b.total,
      Plus(m.bySource, CountsOf(b)),
      m.items + ItemsOf(b),
      if Noted(b) then m.notes + [b.note.value] else m.notes)
  }

  function MergeAll(buckets: seq<Option<Bucket>>): Merge {
    if buckets == [] then Merge(0.0, map[], [], [])
    else
      var before, last := MergeAll(buckets[..|buckets| - 1]), buckets[|buckets| - 1];
      if last.Some? then Joined(before, last.value) else before
  }

  function Join(notes: seq<string>): string {
    if notes == [] then ""
    else if |notes| == 1 then notes[0]
    else Join(notes[..|notes| - 1]) + "; " + notes[|notes| - 1]
  }

  function Merged(buckets: seq<Option<Bucket>>): Bucket {
    var m := MergeAll(buckets);
    Bucket(m.total,
           if m.bySource == map[] then None else Some(m.bySource),
           if m.notes == [] then None else Some(Join(m.notes)),
           if m.items == [] then None else Some(m.items))
  }

  function EvaluatedBucket(input: Input): Bucket {
    var refs := Dedupe(input.evaluatedRefs);
    Bucket(|refs| as real, Some(Tally(SourcesOfKnown(refs, SourceById(input.items)))), None, Some(refs))
  }

  function Consumed(input: Input): set<string> {
    AsSet(input.evaluatedRefs) + SkippedIds(input.skippedBuckets)
  }

  function UnconsumedBucket(input: Input): Bucket {
    var left := Leftover(input.items, Consumed(input));
    if left == [] then Bucket(0.0, None, None, None)
    else Bucket(|left| as real, Some(Tally(Sources(left))), None, Some(Ids(left)))
  }

  function Compose(input: Input): Stats {
    Stats(Some(EvaluatedBucket(input)), Some(Normalize(input.declaredUnlinked)),
          Some(Merged(input.skippedBuckets)), Some(UnconsumedBucket(input)))
  }

  /** Evaluated refs that name no collected item. */
  function Problems(input: Input): seq<string> {
    Unknown(Dedupe(input.evaluatedRefs), SourceById(input.items))
  }

  // ---- The loops ----

  method ComposeCoverageStats(input: Input) returns (stats: Stats, problems: seq<string>)
    ensures stats == Compose(input)
    ensures problems == Problems(input)
  {
    var evaluatedRefs := DedupeRefs(input.evaluatedRefs);

    var byId: map<string, string> := map[];
    for i := 0 to |input.items|
      invariant byId == SourceById(input.items[..i])
    {
      assert input.items[..i + 1][..i] == input.items[..i];
      byId := byId[input.items[i].id := input.items[i].source];
    }
    assert input.items[..|input.items|] == input.items;

    var bySource: Counts;
    bySource, problems := CountEvaluated(evaluatedRefs, byId);
    var unconsumed := ComposeUnconsumed(input, evaluatedRefs);
    var skipped := MergeBuckets(input.skippedBuckets);
    stats := Stats(
      Some(Bucket(|evaluatedRefs| as real, Some(bySource), None, Some(evaluatedRefs))),
      Some(Normalize(input.declaredUnlinked)),
      Some(skipped),
      Some(unconsumed));
  }

  /** `[...new Set(refs)]`: first occurrences, in order. */
  method DedupeRefs(refs: seq<string>) returns (deduped: seq<string>)
    ensures deduped == Dedupe(refs)
  {
    deduped := [];
    for i := 0 to |refs|
      invariant deduped == Dedupe(refs[..i])
    {
      assert refs[..i + 1][..i] == refs[..i];
      if refs[i] !in deduped {
        deduped := deduped + [refs[i]];
      }
    }
    assert refs[..|refs|] == refs;
  }

  method CountEvaluated(refs: seq<string>, byId: map<string, string>) returns (bySource: Counts, problems: seq<string>)
    ensures bySource == Tally(SourcesOfKnown(refs, byId))
    ensures problems == Unknown(refs, byId)
  {
    bySource, problems := map[], [];
    for i := 0 to |refs|
      invariant bySource == Tally(SourcesOfKnown(refs[..i], byId))
      invariant problems == Unknown(refs[..i], byId)
    {
      assert refs[..i + 1][..i] == refs[..i];
      var ref := refs[i];
      if ref !in byId {
        problems := problems + [ref];
      } else {
        TallyOneMore(SourcesOfKnown(refs[..i], byId), byId[ref]);
        bySource := Bump(bySource, byId[ref], 1.0);
      }
    }
    assert refs[..|refs|] == refs;
  }

  lemma TallyOneMore(sources: seq<string>, source: string)
    ensures Tally(sources + [source]) == Bump(Tally(sources), source, 1.0)
  {
    assert (sources + [source])[..|sources|] == sources;
  }

  method ComposeUnconsumed(input: Input, evaluatedRefs: seq<string>) returns (unconsumed: Bucket)
    requires evaluatedRefs == Dedupe(input.evaluatedRefs)
    ensures unconsumed == UnconsumedBucket(input)
  {
    DedupeKeepsMembers(input.evaluatedRefs);
    var skippedIds: set<string> := {};
    for i := 0 to |input.skippedBuckets|
      invariant skippedIds == SkippedIds(input.skippedBuckets[..i])
    {
      assert input.skippedBuckets[..i + 1][..i] == input.skippedBuckets[..i];
      var bucket := input.skippedBuckets[i];
      if bucket.Some? {
        var ids := ItemsOf(bucket.value);
        ghost var before := skippedIds;
        for j := 0 to |ids|
          invariant skippedIds == before + AsSet(ids[..j])
        {
          assert ids[..j + 1] == ids[..j] + [ids[j]];
          assert AsSet(ids[..j + 1]) == AsSet(ids[..j]) + {ids[j]};
          skippedIds := skippedIds + {ids[j]};
        }
        assert ids[..|ids|] == ids;
      }
    }
    assert input.skippedBuckets[..|input.skippedBuckets|] == input.skippedBuckets;

    ghost var consumed := Consumed(input);
    var left: seq<Item> := [];
    var ids: seq<string> := [];
    var bySource: Counts := map[];
    for i := 0 to |input.items|
      invariant left == Leftover(input.items[..i], consumed)
      invariant ids == Ids(left)
      invariant bySource == Tally(Sources(left))
    {
      assert input.items[..i + 1][..i] == input.items[..i];
      var item := input.items[i];
      if !(item.id in evaluatedRefs || item.id in skippedIds) {
        assert Sources(left + [item])[..|left|] == Sources(left);
        left := left + [item];
        ids := ids + [item.id];
        bySource := Bump(bySource, item.source, 1.0);
      }
    }
    assert input.items[..|input.items|] == input.items;
    unconsumed := Bucket(|ids| as real, None, None, None);
    if |ids| > 0 {
      unconsumed := unconsumed.(bySource := Some(bySource), items := Some(ids));
    }
  }

  method MergeBuckets(buckets: seq<Option<Bucket>>) returns (merged: Bucket)
    ensures merged == Merged(buckets)
  {
    merged := Bucket(0.0, None, None, None);
    var bySource: Counts, items: seq<string>, notes: seq<string> := map[], [], [];
    for i := 0 to |buckets|
      invariant MergeAll(buckets[..i]) == Merge(merged.total, bySource, items, notes)
      invariant merged == Bucket(merged.total, None, None, None)
    {
      assert buckets[..i + 1][..i] == buckets[..i];
      if buckets[i].Some? {
        var bucket := buckets[i].value;
        merged := merged.(total := merged.total + bucket.total);
        bySource := AddCounts(bySource, CountsOf(bucket));
        items := items + ItemsOf(bucket);
        if Noted(bucket) {
          notes := notes + [bucket.note.value];
        }
      }
    }
    assert buckets[..|buckets|] == buckets;
    if bySource != map[] {
      merged := merged.(bySource := Some(bySource));
    }
    if |items| > 0 {
      merged := merged.(items := Some(items));
    }
    if |notes| > 0 {
      merged := merged.(note := Some(Join(notes)));
    }
  }

  method AddCounts(bySource: Counts, entries: Counts) returns (sum: Counts)
    ensures sum == Plus(bySource, entries)
  {
    sum := bySource;
    var rest := entries;
    while rest != map[]
      invariant Plus(sum, rest) == Plus(bySource, entries)
      decreases |rest.Keys|
    {
      var s :| s in rest;
      MoveEntry(sum, rest, s);
      assert (rest - {s}).Keys == rest.Keys - {s};
      sum, rest := Bump(sum, s, rest[s]), rest - {s};
    }
    assert Plus(sum, map[]) == sum;
  }

  lemma MoveEntry(a: Counts, b: Counts, s: string)
    requires s in b
    ensures Plus(Bump(a, s, b[s]), b - {s}) == Plus(a, b)
  {
  }

  lemma {:induction false} DedupeKeepsMembers(refs: seq<string>)
    ensures forall ref :: ref in Dedupe(refs) <==> ref in refs
    ensures forall i, j :: 0 <= i < j < |Dedupe(refs)| ==> Dedupe(refs)[i] != Dedupe(refs)[j]
  {
    if refs != [] {
      DedupeKeepsMembers(refs[..|refs| - 1]);
      assert refs == refs[..|refs| - 1] + [refs[|refs| - 1]];
    }
  }
}
