/**
 What composed coverage guarantees: every manifest item is judged, cut off or
 unconsumed, and exactly which inputs the validator accepts afterwards.
 */
module CoverageTheorems {
  import opened Common
  import opened SourceTally
  import opened Coverage
  import opened CoverageComposer

  ghost predicate DistinctIds(items: seq<Item>) {
    forall i, j :: 0 <= i < j < |items| ==> items[i].id != items[j].id
  }

  function Judged(input: Input): set<string> {
    AsSet(Dedupe(input.evaluatedRefs))
  }

  /** Skipped ids that name manifest material. */
  function CutOff(input: Input): set<string> {
    SkippedIds(input.skippedBuckets) * IdsOf(input.items)
  }

  function Unneeded(input: Input): set<string> {
    AsSet(ItemsOf(UnconsumedBucket(input)))
  }

  /** The ids of `ids` whose manifest item comes from `source`. */
  function From(ids: set<string>, source: string, byId: map<string, string>): set<string> {
    set id | id in ids && id in byId && byId[id] == source
  }

  // ---- Lists without repetitions ----

  lemma FromOneMore(ids: set<string>, id: string, source: string, byId: map<string, string>)
    requires id !in ids && id in byId
    ensures |From(ids + {id}, source, byId)| == |From(ids, source, byId)| + if byId[id] == source then 1 else 0
  {
    assert From(ids + {id}, source, byId) == From(ids, source, byId) + if byId[id] == source then {id} else {};
  }

  lemma {:induction false} SetOfDistinct(ids: seq<string>)
    requires forall i, j :: 0 <= i < j < |ids| ==> ids[i] != ids[j]
    ensures |AsSet(ids)| == |ids|
  {
    if ids != [] {
      var n := |ids| - 1;
      SetOfDistinct(ids[..n]);
      LastJoins(ids);
    }
  }

  lemma LastJoins(ids: seq<string>)
    requires ids != []
    ensures AsSet(ids) == AsSet(ids[..|ids| - 1]) + {ids[|ids| - 1]}
  {
    assert ids == ids[..|ids| - 1] + [ids[|ids| - 1]];
  }

  lemma FromDistributes(a: set<string>, b: set<string>, source: string, byId: map<string, string>)
    ensures From(a + b, source, byId) == From(a, source, byId) + From(b, source, byId)
  {
  }

  lemma {:induction false} SourceByIdAgrees(items: seq<Item>)
    requires DistinctIds(items)
    ensures SourceById(items).Keys == IdsOf(items)
    ensures forall item :: item in items ==> SourceById(items)[item.id] == item.source
  {
    if items != [] {
      var n := |items| - 1;
      SourceByIdAgrees(items[..n]);
      assert items == items[..n] + [items[n]];
    }
  }

  lemma {:induction false} LeftoverMembers(items: seq<Item>, consumed: set<string>)
    ensures forall item :: item in Leftover(items, consumed) <==> item in items && item.id !in consumed
    ensures DistinctIds(items) ==> DistinctIds(Leftover(items, consumed))
  {
    if items != [] {
      var n := |items| - 1;
      LeftoverMembers(items[..n], consumed);
      assert items == items[..n] + [items[n]];
      forall item ensures item in Leftover(items, consumed) <==> item in items && item.id !in consumed {
      }
      if DistinctIds(items) && items[n].id !in consumed {
        var before := Leftover(items[..n], consumed);
        forall i | 0 <= i < |before| ensures before[i].id != items[n].id {
          assert before[i] in items[..n];
        }
      }
    }
  }

  lemma {:induction false} NoneUnknown(refs: seq<string>, byId: map<string, string>)
    requires Unknown(refs, byId) == []
    ensures forall ref :: ref in refs ==> ref in byId
    ensures |SourcesOfKnown(refs, byId)| == |refs|
    ensures forall i :: 0 <= i < |refs| ==> SourcesOfKnown(refs, byId)[i] == byId[refs[i]]
  {
    if refs != [] {
      var n := |refs| - 1;
      NoneUnknown(refs[..n], byId);
      assert refs == refs[..n] + [refs[n]];
    }
  }

  /** Occurrences of a source along a list of distinct ids are the ids from that source. */
  lemma {:induction false} OccurrencesAreIds(ids: seq<string>, sources: seq<string>, source: string, byId: map<string, string>)
    requires |ids| == |sources|
    requires forall i, j :: 0 <= i < j < |ids| ==> ids[i] != ids[j]
    requires forall i :: 0 <= i < |ids| ==> ids[i] in byId && byId[ids[i]] == sources[i]
    ensures multiset(sources)[source] == |From(AsSet(ids), source, byId)|
  {
    if ids != [] {
      var n := |ids| - 1;
      OccurrencesAreIds(ids[..n], sources[..n], source, byId);
      LastJoins(ids);
      FromOneMore(AsSet(ids[..n]), ids[n], source, byId);
      assert multiset(sources) == multiset(sources[..n]) + multiset{sources[n]} by {
        assert sources == sources[..n] + [sources[n]];
      }
    }
  }

  // ---- Every manifest item is accounted for ----

  /**
   With distinct item ids and no problems, the manifest splits into what was
   judged or cut off and what no rule needed, and the bucket totals are the sizes
   of those parts.
   */
  lemma ManifestIsAccountedFor(input: Input)
    requires DistinctIds(input.items) && Problems(input) == []
    ensures Judged(input) == AsSet(input.evaluatedRefs) && Judged(input) <= IdsOf(input.items)
    ensures Unneeded(input) !! (Judged(input) + CutOff(input))
    ensures Unneeded(input) + (Judged(input) + CutOff(input)) == IdsOf(input.items)
    ensures |input.items| == |Judged(input) + CutOff(input)| + |Unneeded(input)|
    ensures Compose(input).evaluated.value.total == |Judged(input)| as real
    ensures Compose(input).unconsumed.value.total == |Unneeded(input)| as real
  {
    JudgedIsKnown(input);
    SizesOfParts(input);
    Partition(input);
    Complement(IdsOf(input.items), Judged(input) + CutOff(input), Unneeded(input));
  }

  ghost predicate NoRepetition(ids: seq<string>) {
    forall i, j :: 0 <= i < j < |ids| ==> ids[i] != ids[j]
  }

  /** The ids come in the order in which they occur first. */
  ghost predicate InFirstOrder(ids: seq<string>, refs: seq<string>) {
    forall i, j :: 0 <= i < j < |ids| ==> OccursFirst(refs, ids[i], ids[j])
  }

  ghost predicate OccursFirst(refs: seq<string>, a: string, b: string) {
    exists p :: 0 <= p < |refs| && refs[p] == a && b !in refs[..p]
  }

  lemma {:induction false} DedupeKeepsOrder(refs: seq<string>)
    ensures InFirstOrder(Dedupe(refs), refs)
  {
    if refs != [] {
      var n := |refs| - 1;
      DedupeKeepsOrder(refs[..n]);
      DedupeKeepsMembers(refs[..n]);
      assert refs == refs[..n] + [refs[n]];
      var before := Dedupe(refs[..n]);
      forall i, j | 0 <= i < j < |before| ensures OccursFirst(refs, before[i], before[j]) {
        OccursFirstStill(refs[..n], refs[n], before[i], before[j]);
      }
      if refs[n] !in before {
        forall i | 0 <= i < |before| ensures OccursFirst(refs, before[i], refs[n]) {
          assert before[i] in AsSet(refs[..n]) && refs[n] !in AsSet(refs[..n]);
          LastOccursLast(refs[..n], refs[n], before[i]);
        }
      }
    }
  }

  lemma LastOccursLast(refs: seq<string>, ref: string, a: string)
    requires a in refs && ref !in refs
    ensures OccursFirst(refs + [ref], a, ref)
  {
    var p :| 0 <= p < |refs| && refs[p] == a;
    assert (refs + [ref])[p] == a && (refs + [ref])[..p] == refs[..p];
  }

  lemma OccursFirstStill(refs: seq<string>, ref: string, a: string, b: string)
    requires OccursFirst(refs, a, b)
    ensures OccursFirst(refs + [ref], a, b)
  {
    var p :| 0 <= p < |refs| && refs[p] == a && b !in refs[..p];
    assert (refs + [ref])[..p] == refs[..p] && (refs + [ref])[p] == a;
  }

  /** One list is the other with entries left out. */
  ghost predicate IsPartOf(part: seq<Item>, whole: seq<Item>) {
    || part == []
    || (whole != [] && if part[|part| - 1] == whole[|whole| - 1] && IsPartOf(part[..|part| - 1], whole[..|whole| - 1])
                       then true else IsPartOf(part, whole[..|whole| - 1]))
  }

  lemma {:induction false} LeftoverKeepsOrder(items: seq<Item>, consumed: set<string>)
    ensures IsPartOf(Leftover(items, consumed), items)
  {
    if items != [] {
      var before := Leftover(items[..|items| - 1], consumed);
      LeftoverKeepsOrder(items[..|items| - 1], consumed);
      assert (before + [items[|items| - 1]])[..|before|] == before;
    }
  }

  /** The evaluated bucket lists what was judged, each id once, and counts it; a note it has none. */
  lemma EvaluatedIsListed(input: Input)
    ensures var b := Compose(input).evaluated.value;
            && b.items.Some? && NoRepetition(b.items.value) && AsSet(b.items.value) == AsSet(input.evaluatedRefs)
            && InFirstOrder(b.items.value, input.evaluatedRefs)
            && b.total == |b.items.value| as real && b.bySource.Some? && b.note == None
  {
    DedupeKeepsOrder(input.evaluatedRefs);
    DedupeKeepsMembers(input.evaluatedRefs);
  }

  /** The ids that the buckets list, bucket after bucket. */
  function ItemsIn(buckets: seq<Option<Bucket>>): seq<string> {
    if buckets == [] then []
    else (if buckets[0].Some? then ItemsOf(buckets[0].value) else []) + ItemsIn(buckets[1..])
  }

  lemma {:induction false} SkippedIdsAre(buckets: seq<Option<Bucket>>, id: string)
    ensures id in SkippedIds(buckets) <==> id in ItemsIn(buckets)
  {
    if buckets != [] {
      var before, last := buckets[..|buckets| - 1], buckets[|buckets| - 1];
      SkippedIdsAre(before, id);
      LastListed(before, last);
      assert buckets == before + [last];
    }
  }

  /** When ids repeat, the last item with an id gives its source. */
  lemma {:induction false} SourceIsOfTheLast(items: seq<Item>, k: nat)
    requires k < |items| && forall m :: k < m < |items| ==> items[m].id != items[k].id
    ensures items[k].id in SourceById(items) && SourceById(items)[items[k].id] == items[k].source
  {
    if k < |items| - 1 {
      SourceIsOfTheLast(items[..|items| - 1], k);
    }
  }

  /** The problems are the judged refs that name no collected item. */
  lemma ProblemsAre(input: Input, ref: string)
    ensures ref in Problems(input) <==> ref in input.evaluatedRefs && ref !in IdsOf(input.items)
  {
    DedupeKeepsMembers(input.evaluatedRefs);
    IdsAreKnown(input.items);
    UnknownAre(Dedupe(input.evaluatedRefs), SourceById(input.items), ref);
    assert ref in input.evaluatedRefs <==> ref in AsSet(input.evaluatedRefs);
  }

  lemma {:induction false} UnknownAre(refs: seq<string>, byId: map<string, string>, ref: string)
    ensures ref in Unknown(refs, byId) <==> ref in refs && ref !in byId
  {
    if refs != [] {
      UnknownAre(refs[..|refs| - 1], byId, ref);
      assert refs == refs[..|refs| - 1] + [refs[|refs| - 1]];
    }
  }

  /** The unconsumed bucket lists the ids of the items that are neither judged nor cut off, in manifest order. */
  lemma UnconsumedIsListed(input: Input)
    ensures var b := Compose(input).unconsumed.value;
            && (b.items.None? <==> ItemsOf(b) == []) && b.total == |ItemsOf(b)| as real
            && (forall id :: id in ItemsOf(b) <==>
                  id in IdsOf(input.items) && id !in input.evaluatedRefs && id !in ItemsIn(input.skippedBuckets))
            && (b.items.None? <==> b.bySource.None?) && b.note == None
            && exists left :: IsPartOf(left, input.items) && ItemsOf(b) == Ids(left)
  {
    var left := Leftover(input.items, Consumed(input));
    LeftoverMembers(input.items, Consumed(input));
    UnneededIsTheRest(input);
    LeftoverKeepsOrder(input.items, Consumed(input));
    var b := Compose(input).unconsumed.value;
    forall id ensures id in ItemsOf(b) <==>
                id in IdsOf(input.items) && id !in input.evaluatedRefs && id !in ItemsIn(input.skippedBuckets)
    {
      SkippedIdsAre(input.skippedBuckets, id);
      assert id in ItemsOf(b) <==> id in Unneeded(input);
      assert id in input.evaluatedRefs <==> id in AsSet(input.evaluatedRefs);
    }
  }

  /** The declared gap is kept as it was declared, but for an empty note. */
  lemma GapIsKept(input: Input)
    ensures var (b, gap) := (Compose(input).declaredUnlinked.value, input.declaredUnlinked);
            && b.total == gap.total && b.bySource == gap.bySource && b.items == gap.items
            && b.note == if gap.note == Some("") then None else gap.note
  {
  }

  // ---- Nothing of a cut-off disappears ----

  function TotalOf(buckets: seq<Option<Bucket>>): real {
    if buckets == [] then 0.0 else TotalOf(buckets[1..]) + if buckets[0].Some? then buckets[0].value.total else 0.0
  }

  function CountIn(buckets: seq<Option<Bucket>>, source: string): real {
    if buckets == [] then 0.0
    else CountIn(buckets[1..], source) + if buckets[0].Some? then Get(CountsOf(buckets[0].value), source) else 0.0
  }

  /** The notes of the buckets, but for empty ones. */
  function NotesIn(buckets: seq<Option<Bucket>>): seq<string> {
    if buckets == [] then []
    else (if buckets[0].Some? && Noted(buckets[0].value) then [buckets[0].value.note.value] else []) + NotesIn(buckets[1..])
  }

  lemma {:induction false} LastListed(before: seq<Option<Bucket>>, last: Option<Bucket>)
    ensures ItemsIn(before + [last]) == ItemsIn(before) + if last.Some? then ItemsOf(last.value) else []
  {
    if before == [] {
      assert [] + [last] == [last] && [last][1..] == [];
    } else {
      LastListed(before[1..], last);
      assert (before + [last])[1..] == before[1..] + [last];
    }
  }

  lemma {:induction false} LastNoted(before: seq<Option<Bucket>>, last: Option<Bucket>)
    ensures NotesIn(before + [last]) == NotesIn(before) + if last.Some? && Noted(last.value) then [last.value.note.value] else []
  {
    if before == [] {
      assert [] + [last] == [last] && [last][1..] == [];
    } else {
      LastNoted(before[1..], last);
      assert (before + [last])[1..] == before[1..] + [last];
    }
  }

  lemma {:induction false} LastCounted(before: seq<Option<Bucket>>, last: Option<Bucket>, source: string)
    ensures TotalOf(before + [last]) == TotalOf(before) + if last.Some? then last.value.total else 0.0
    ensures CountIn(before + [last], source) == CountIn(before, source) + if last.Some? then Get(CountsOf(last.value), source) else 0.0
  {
    if before == [] {
      assert [] + [last] == [last] && [last][1..] == [];
    } else {
      LastCounted(before[1..], last, source);
      assert (before + [last])[1..] == before[1..] + [last];
    }
  }

  lemma GetOfPlus(a: Counts, b: Counts, source: string)
    ensures Get(Plus(a, b), source) == Get(a, source) + Get(b, source)
  {
  }

  lemma {:induction false} MergeKeepsAll(buckets: seq<Option<Bucket>>, source: string)
    ensures var m := MergeAll(buckets);
            && m.items == ItemsIn(buckets) && m.notes == NotesIn(buckets)
            && m.total == TotalOf(buckets) && Get(m.bySource, source) == CountIn(buckets, source)
  {
    if buckets != [] {
      var before, last := buckets[..|buckets| - 1], buckets[|buckets| - 1];
      assert buckets == before + [last];
      MergeKeepsAll(before, source);
      LastListed(before, last);
      LastNoted(before, last);
      LastCounted(before, last, source);
      if last.Some? {
        GetOfPlus(MergeAll(before).bySource, CountsOf(last.value), source);
      }
    }
  }

  /** The text occurs in the other. */
  ghost predicate Occurs(part: string, whole: string) {
    exists i: nat, k: nat :: i <= k <= |whole| && whole[i..k] == part
  }

  lemma {:induction false} NotesOccur(notes: seq<string>, note: string)
    requires note in notes
    ensures Occurs(note, Join(notes))
  {
    var whole := Join(notes);
    if |notes| == 1 {
      assert whole[0..|whole|] == note;
    } else {
      var before, last := notes[..|notes| - 1], notes[|notes| - 1];
      if note == last {
        assert whole[|whole| - |last|..|whole|] == last;
      } else {
        assert note in before by {
          var i :| 0 <= i < |notes| && notes[i] == note;
          assert before[i] == note;
        }
        NotesOccur(before, note);
        var i: nat, k: nat :| i <= k <= |Join(before)| && Join(before)[i..k] == note;
        assert whole[i..k] == note;
      }
    }
  }

  /** Notes are joined in order, a semicolon and a space between any two. */
  lemma {:induction false} JoinOfBoth(a: seq<string>, b: seq<string>)
    requires a != [] && b != []
    ensures Join(a + b) == Join(a) + "; " + Join(b)
  {
    var both := a + b;
    if |b| == 1 {
      assert both[..|both| - 1] == a;
    } else {
      JoinOfBoth(a, b[..|b| - 1]);
      assert both[..|both| - 1] == a + b[..|b| - 1];
      var (x, y, z) := (Join(a) + "; ", Join(b[..|b| - 1]), "; " + b[|b| - 1]);
      assert (x + y) + z == x + (y + z);
    }
  }

  /**
   Merging loses nothing of any cut-off: the total is the sum, the ids are those of all
   buckets, bucket after bucket and repetitions included, every source counts what they
   count for it, and every note that is not empty occurs in the joined note.
   */
  lemma NothingCutOffDisappears(buckets: seq<Option<Bucket>>, source: string)
    ensures var (b, notes) := (Merged(buckets), NotesIn(buckets));
            && b.total == TotalOf(buckets) && ItemsOf(b) == ItemsIn(buckets)
            && Get(CountsOf(b), source) == CountIn(buckets, source)
            && b.items != Some([]) && b.bySource != Some(map[])
            && b.note == (if notes == [] then None else Some(Join(notes)))
            && (forall note :: note in notes ==> Occurs(note, Join(notes)))
  {
    MergeKeepsAll(buckets, source);
    forall note | note in NotesIn(buckets) ensures Occurs(note, Join(NotesIn(buckets))) {
      NotesOccur(NotesIn(buckets), note);
    }
  }

  lemma Partition(input: Input)
    requires Problems(input) == []
    ensures Judged(input) + CutOff(input) <= IdsOf(input.items)
    ensures Unneeded(input) == IdsOf(input.items) - (Judged(input) + CutOff(input))
  {
    JudgedIsKnown(input);
    UnneededIsTheRest(input);
  }

  lemma Complement(all: set<string>, part: set<string>, rest: set<string>)
    requires part <= all && rest == all - part
    ensures rest !! part && rest + part == all && |all| == |part| + |rest|
  {
    assert all == part + rest;
  }

  lemma SizesOfParts(input: Input)
    requires DistinctIds(input.items)
    ensures |IdsOf(input.items)| == |input.items|
    ensures EvaluatedBucket(input).total == |Judged(input)| as real
    ensures UnconsumedBucket(input).total == |Unneeded(input)| as real
  {
    DedupeKeepsMembers(input.evaluatedRefs);
    SetOfDistinct(Dedupe(input.evaluatedRefs));
    LeftoverMembers(input.items, Consumed(input));
    SetOfDistinct(Ids(Leftover(input.items, Consumed(input))));
    SetOfDistinct(Ids(input.items));
    IdsAsSet(input.items);
  }

  lemma JudgedIsKnown(input: Input)
    requires Problems(input) == []
    ensures Judged(input) == AsSet(input.evaluatedRefs) && Judged(input) <= IdsOf(input.items)
  {
    DedupeKeepsMembers(input.evaluatedRefs);
    IdsAreKnown(input.items);
    NoneUnknown(Dedupe(input.evaluatedRefs), SourceById(input.items));
  }

  lemma IdsAsSet(items: seq<Item>)
    ensures AsSet(Ids(items)) == IdsOf(items)
  {
    forall id | id in IdsOf(items) ensures id in AsSet(Ids(items)) {
      var item :| item in items && item.id == id;
      var k :| 0 <= k < |items| && items[k] == item;
      assert Ids(items)[k] == id;
    }
  }

  lemma UnneededIsTheRest(input: Input)
    ensures Unneeded(input) == IdsOf(input.items) - Consumed(input)
  {
    var left := Leftover(input.items, Consumed(input));
    LeftoverMembers(input.items, Consumed(input));
    IdsAsSet(left);
    assert Unneeded(input) == IdsOf(left);
    forall id ensures id in IdsOf(left) <==> id in IdsOf(input.items) && id !in Consumed(input) {
      if id in IdsOf(input.items) && id !in Consumed(input) {
        var item :| item in input.items && item.id == id;
        assert item in left;
      }
    }
  }

  /** The same accounting holds source by source, in the counts the result archives. */
  lemma SourcesAreAccountedFor(input: Input, source: string)
    requires DistinctIds(input.items) && Problems(input) == []
    ensures var byId := SourceById(input.items);
            var stats := Compose(input);
            && Get(CountsOf(stats.evaluated.value), source) == |From(Judged(input), source, byId)| as real
            && Get(CountsOf(stats.unconsumed.value), source) == |From(Unneeded(input), source, byId)| as real
            && |From(IdsOf(input.items), source, byId)|
               == |From(Judged(input) + CutOff(input), source, byId)| + |From(Unneeded(input), source, byId)|
  {
    var byId := SourceById(input.items);
    ManifestIsAccountedFor(input);
    JudgedPerSource(input, source);
    UnneededPerSource(input, source);
    FromDistributes(Judged(input) + CutOff(input), Unneeded(input), source, byId);
    assert IdsOf(input.items) == (Judged(input) + CutOff(input)) + Unneeded(input);
  }

  lemma JudgedPerSource(input: Input, source: string)
    requires Problems(input) == []
    ensures Get(CountsOf(EvaluatedBucket(input)), source) == |From(Judged(input), source, SourceById(input.items))| as real
  {
    var byId := SourceById(input.items);
    var refs := Dedupe(input.evaluatedRefs);
    DedupeKeepsMembers(input.evaluatedRefs);
    NoneUnknown(refs, byId);
    OccurrencesAreIds(refs, SourcesOfKnown(refs, byId), source, byId);
    TallyCounts(SourcesOfKnown(refs, byId), source);
  }

  lemma UnneededPerSource(input: Input, source: string)
    requires DistinctIds(input.items)
    ensures Get(CountsOf(UnconsumedBucket(input)), source) == |From(Unneeded(input), source, SourceById(input.items))| as real
  {
    var byId := SourceById(input.items);
    var left := Leftover(input.items, Consumed(input));
    LeftoverMembers(input.items, Consumed(input));
    SourceByIdAgrees(input.items);
    forall i | 0 <= i < |left| ensures Ids(left)[i] in byId && byId[Ids(left)[i]] == Sources(left)[i] {
      assert left[i] in left;
    }
    OccurrencesAreIds(Ids(left), Sources(left), source, byId);
    TallyCounts(Sources(left), source);
  }

  // ---- What the validator says about a composed snapshot ----

  lemma DerivedBucketsAreValid(input: Input)
    requires Problems(input) == []
    ensures BucketOk(Evaluated, EvaluatedBucket(input))
    ensures BucketOk(Unconsumed, UnconsumedBucket(input))
  {
    var refs := Dedupe(input.evaluatedRefs);
    NoneUnknown(refs, SourceById(input.items));
    TallySumsToLength(SourcesOfKnown(refs, SourceById(input.items)));
    TallySumsToLength(Sources(Leftover(input.items, Consumed(input))));
  }

  lemma {:induction false} IdsAreKnown(items: seq<Item>)
    ensures SourceById(items).Keys == IdsOf(items)
  {
    if items != [] {
      IdsAreKnown(items[..|items| - 1]);
      assert items == items[..|items| - 1] + [items[|items| - 1]];
    }
  }

  /** Without problems, only the declared gap and the merged cut-offs can be refused. */
  lemma ComposedAcceptedIff(input: Input)
    requires Problems(input) == []
    ensures StatsOk(Compose(input), IdsOf(input.items))
       <==> BucketOk(DeclaredUnlinked, input.declaredUnlinked) && BucketOk(Skipped, Merged(input.skippedBuckets))
  {
    var stats := Compose(input);
    var refs := Dedupe(input.evaluatedRefs);
    DerivedBucketsAreValid(input);
    IdsAreKnown(input.items);
    NoneUnknown(refs, SourceById(input.items));
    assert BucketOk(DeclaredUnlinked, Normalize(input.declaredUnlinked))
      <==> BucketOk(DeclaredUnlinked, input.declaredUnlinked);
    assert PartOk(stats, Skipped) <==> BucketOk(Skipped, Merged(input.skippedBuckets));
    assert PartOk(stats, DeclaredUnlinked) <==> BucketOk(DeclaredUnlinked, Normalize(input.declaredUnlinked));
    assert PartOk(stats, Evaluated) && PartOk(stats, Unconsumed);
    if PartOk(stats, Skipped) && PartOk(stats, DeclaredUnlinked) {
      forall name ensures PartOk(stats, name) {
        match name {
          case Evaluated =>
          case DeclaredUnlinked =>
          case Skipped =>
          case Unconsumed =>
        }
      }
    }
  }

  ghost predicate EachValid(buckets: seq<Option<Bucket>>) {
    forall b :: b in buckets && b.Some? ==> BucketOk(Skipped, b.value)
  }

  ghost predicate NoneCarriesCounts(buckets: seq<Option<Bucket>>) {
    forall b :: b in buckets && b.Some? ==> CountsOf(b.value) == map[]
  }

  ghost predicate PositiveOnesCarryCounts(buckets: seq<Option<Bucket>>) {
    forall b :: b in buckets && b.Some? && b.value.total > 0.0 ==> b.value.bySource.Some?
  }

  lemma CarryOneMore(buckets: seq<Option<Bucket>>, last: Option<Bucket>)
    ensures EachValid(buckets + [last]) <==> EachValid(buckets) && (last.Some? ==> BucketOk(Skipped, last.value))
    ensures NoneCarriesCounts(buckets + [last]) <==> NoneCarriesCounts(buckets) && (last.Some? ==> CountsOf(last.value) == map[])
    ensures PositiveOnesCarryCounts(buckets + [last])
       <==> PositiveOnesCarryCounts(buckets) && (last.Some? && last.value.total > 0.0 ==> last.value.bySource.Some?)
  {
    assert last in buckets + [last] && forall b :: b in buckets ==> b in buckets + [last];
  }

  /** What the running totals of valid buckets satisfy; `split` and `unsplit` are the two conditions on the buckets so far. */
  ghost predicate MergeFits(m: Merge, split: bool, unsplit: bool) {
    && IsCount(m.total)
    && |m.items| as real == m.total
    && (m.total > 0.0 ==> m.notes != [])
    && (forall note :: note in m.notes ==> note != "")
    && Sum(m.bySource) <= m.total
    && (Sum(m.bySource) == m.total <==> split)
    && (m.bySource == map[] <==> unsplit)
  }

  lemma MergeFitsOneMore(m: Merge, b: Bucket, split: bool, unsplit: bool)
    requires MergeFits(m, split, unsplit) && BucketOk(Skipped, b)
    ensures MergeFits(Joined(m, b), split && (b.total > 0.0 ==> b.bySource.Some?), unsplit && CountsOf(b) == map[])
  {
    MergeOneMore(m, b);
  }

  lemma {:induction false} MergeOfValid(buckets: seq<Option<Bucket>>)
    requires EachValid(buckets)
    ensures MergeFits(MergeAll(buckets), PositiveOnesCarryCounts(buckets), NoneCarriesCounts(buckets))
  {
    if buckets != [] {
      var before, last := buckets[..|buckets| - 1], buckets[|buckets| - 1];
      assert buckets == before + [last];
      CarryOneMore(before, last);
      MergeOfValid(before);
      if last.Some? {
        MergeFitsOneMore(MergeAll(before), last.value, PositiveOnesCarryCounts(before), NoneCarriesCounts(before));
      }
    }
  }

  lemma PlusIsEmpty(a: Counts, b: Counts)
    ensures Plus(a, b) == map[] <==> a == map[] && b == map[]
  {
    assert Plus(a, b).Keys == a.Keys + b.Keys;
    if Plus(a, b) == map[] {
      assert a.Keys == {} && b.Keys == {};
    }
  }

  lemma CountsAdd(a: real, b: real)
    requires IsCount(a) && IsCount(b)
    ensures IsCount(a + b)
  {
    var i, j := a.Floor, b.Floor;
    assert a + b == (i + j) as real by {
      assert (i + j) as real == i as real + j as real;
    }
    assert ((i + j) as real).Floor == i + j;
  }

  lemma MergeOneMore(m: Merge, b: Bucket)
    requires BucketOk(Skipped, b) && IsCount(m.total)
    ensures Sum(Plus(m.bySource, CountsOf(b))) == Sum(m.bySource) + (if b.bySource.Some? then b.total else 0.0)
    ensures |ItemsOf(b)| as real == b.total
    ensures IsCount(m.total + b.total)
    ensures Plus(m.bySource, CountsOf(b)) == map[] <==> m.bySource == map[] && CountsOf(b) == map[]
  {
    SumOfPlus(m.bySource, CountsOf(b));
    PlusIsEmpty(m.bySource, CountsOf(b));
    CountsAdd(m.total, b.total);
    assert b.total > 0.0 ==> b.items.Some?;
  }

  lemma {:induction false} JoinIsNotEmpty(notes: seq<string>)
    requires notes != [] && forall note :: note in notes ==> note != ""
    ensures Join(notes) != ""
  {
    if |notes| == 1 {
      assert notes[0] in notes;
    }
  }

  /**
   Buckets that are each valid merge into a valid one exactly when either none of
   them splits its count by source, or every one with something in it does.
   */
  lemma ValidBucketsMergeIff(buckets: seq<Option<Bucket>>)
    requires EachValid(buckets)
    ensures BucketOk(Skipped, Merged(buckets)) <==> NoneCarriesCounts(buckets) || PositiveOnesCarryCounts(buckets)
  {
    MergeOfValid(buckets);
    var m := MergeAll(buckets);
    if m.notes != [] {
      JoinIsNotEmpty(m.notes);
    }
  }

  lemma ComposedFromValidBucketsAcceptedIff(input: Input)
    requires Problems(input) == []
    requires BucketOk(DeclaredUnlinked, input.declaredUnlinked) && EachValid(input.skippedBuckets)
    ensures StatsOk(Compose(input), IdsOf(input.items))
       <==> NoneCarriesCounts(input.skippedBuckets) || PositiveOnesCarryCounts(input.skippedBuckets)
  {
    ComposedAcceptedIff(input);
    ValidBucketsMergeIff(input.skippedBuckets);
  }

  /** A run is refused although collector and judgment each reported a valid cut-off. */
  lemma MixedCutOffsAreRefused() returns (input: Input)
    ensures Problems(input) == [] && BucketOk(DeclaredUnlinked, input.declaredUnlinked) && EachValid(input.skippedBuckets)
    ensures !StatsOk(Compose(input), IdsOf(input.items))
  {
    var perSource := map["lockfile" := 1.0];
    var collector := Some(Bucket(1.0, Some(perSource), Some("page limit"), Some(["a"])));
    var judgment := Some(Bucket(1.0, None, Some("token budget"), Some(["b"])));
    input := Input([], [], Bucket(0.0, None, None, None), [collector, judgment]);
    SumPicksAny(perSource, "lockfile");
    assert perSource - {"lockfile"} == map[];
    assert collector in input.skippedBuckets && judgment in input.skippedBuckets;
    assert "lockfile" in CountsOf(collector.value);
    ComposedFromValidBucketsAcceptedIff(input);
  }
}
