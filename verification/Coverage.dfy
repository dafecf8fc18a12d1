/**
 Coverage of an evaluation result (evaluation-invariants.ts): composing the four
 buckets from what a judgment examined, and validating a snapshot of them.
 JavaScript numbers are reals here; NaN and the infinities are not modelled.
 */
module Coverage {
  import opened Common
  import opened SourceTally

  datatype Item = Item(id: string, source: string)

  datatype Bucket = Bucket(total: real, bySource: Option<Counts>, note: Option<string>, items: Option<seq<string>>)

  datatype Stats = Stats(
    evaluated: Option<Bucket>,
    declaredUnlinked: Option<Bucket>,
    skipped: Option<Bucket>,
    unconsumed: Option<Bucket>)

  datatype BucketName = Evaluated | DeclaredUnlinked | Skipped | Unconsumed

  datatype Problem =
    | Missing(name: BucketName)
    | BadTotal(name: BucketName)
    | BadSum(name: BucketName, sum: real, total: real)
    | SkippedNeedsNote
    | SkippedNeedsItems
    | SkippedMiscounted(listed: nat, total: real)
    | GapNeedsNote
    | NotInManifest(ref: string)

  predicate IsCount(x: real) {
    x >= 0.0 && x.Floor as real == x
  }

  /** A note that is present and not the empty string. */
  predicate Noted(b: Bucket) {
    b.note.Some? && b.note.value != ""
  }

  function ItemsOf(b: Bucket): seq<string> {
    b.items.GetOr([])
  }

  function CountsOf(b: Bucket): Counts {
    b.bySource.GetOr(map[])
  }

  function Lookup(stats: Stats, name: BucketName): Option<Bucket> {
    match name
    case Evaluated => stats.evaluated
    case DeclaredUnlinked => stats.declaredUnlinked
    case Skipped => stats.skipped
    case Unconsumed => stats.unconsumed
  }

  // ---- What a valid snapshot is ----

  ghost predicate BucketOk(name: BucketName, b: Bucket) {
    && IsCount(b.total)
    && (b.bySource.Some? ==> Sum(b.bySource.value) == b.total)
    && (name == Skipped && b.total > 0.0 ==> Noted(b) && ItemsOf(b) != [])
    && (name == Skipped && b.items.Some? ==> |b.items.value| as real == b.total)
    && (name == DeclaredUnlinked && b.total > 0.0 ==> Noted(b))
  }

  ghost predicate PartOk(stats: Stats, name: BucketName) {
    Lookup(stats, name).Some? && BucketOk(name, Lookup(stats, name).value)
  }

  ghost predicate StatsOk(stats: Stats, manifestIds: set<string>) {
    && (forall name :: PartOk(stats, name))
    && stats.evaluated.Some?
    && (forall ref :: ref in ItemsOf(stats.evaluated.value) ==> ref in manifestIds)
  }

  /** A whole number that is not negative, and the sum of its sources if it is split by source. */
  ghost predicate Counted(b: Bucket) {
    && b.total >= 0.0 && b.total == b.total.Floor as real
    && (b.bySource.Some? ==> Sum(b.bySource.value) == b.total)
  }

  /**
   What acceptance comes to: all four buckets are there and counted; something cut off has
   a note, and an entry per count; a gap has a note; what was judged is in the manifest.
   */
  lemma StatsOkMeans(stats: Stats, manifestIds: set<string>)
    ensures StatsOk(stats, manifestIds) <==>
              && stats.evaluated.Some? && Counted(stats.evaluated.value)
              && stats.declaredUnlinked.Some? && Counted(stats.declaredUnlinked.value)
              && stats.skipped.Some? && Counted(stats.skipped.value)
              && stats.unconsumed.Some? && Counted(stats.unconsumed.value)
              && (var gap := stats.declaredUnlinked.value; gap.total > 0.0 ==> gap.note != None && gap.note != Some(""))
              && (var cut := stats.skipped.value;
                  && (cut.total > 0.0 ==> cut.note != None && cut.note != Some("") && cut.items.Some?)
                  && (cut.items.Some? ==> |cut.items.value| as real == cut.total))
              && (stats.evaluated.value.items.Some? ==>
                    forall k :: 0 <= k < |stats.evaluated.value.items.value| ==> stats.evaluated.value.items.value[k] in manifestIds)
  {
    assert PartOk(stats, Evaluated) && PartOk(stats, DeclaredUnlinked) && PartOk(stats, Skipped) && PartOk(stats, Unconsumed)
      <==> forall name :: PartOk(stats, name) by {
      if PartOk(stats, Evaluated) && PartOk(stats, DeclaredUnlinked) && PartOk(stats, Skipped) && PartOk(stats, Unconsumed) {
        forall name ensures PartOk(stats, name) {
          match name {
            case Evaluated =>
            case DeclaredUnlinked =>
            case Skipped =>
            case Unconsumed =>
          }
        }
      }
    }
  }

  // ---- The validators ----

  method SumOfValues(counts: Counts) returns (total: real)
    ensures total == Sum(counts)
  {
    total := 0.0;
    var rest := counts;
    while rest != map[]
      invariant total + Sum(rest) == Sum(counts)
      decreases |rest|
    {
      var s :| s in rest;
      SumPicksAny(rest, s);
      assert |(rest - {s}).Keys| == |rest.Keys| - 1 by {
        assert (rest - {s}).Keys == rest.Keys - {s};
      }
      total := total + rest[s];
      rest := rest - {s};
    }
  }

  method ValidateBucket(name: BucketName, b: Bucket) returns (problems: seq<Problem>)
    ensures problems == [] <==> BucketOk(name, b)
    ensures BadTotal(name) in problems <==> !IsCount(b.total)
    ensures forall sum, total :: BadSum(name, sum, total) in problems <==>
              b.bySource.Some? && sum == Sum(b.bySource.value) && total == b.total && sum != total
    ensures SkippedNeedsNote in problems <==> name == Skipped && b.total > 0.0 && !Noted(b)
    ensures SkippedNeedsItems in problems <==> name == Skipped && b.total > 0.0 && ItemsOf(b) == []
    ensures forall n, total :: SkippedMiscounted(n, total) in problems <==>
              name == Skipped && b.items.Some? && n == |b.items.value| && total == b.total && n as real != total
    ensures GapNeedsNote in problems <==> name == DeclaredUnlinked && b.total > 0.0 && !Noted(b)
    ensures forall p :: p in problems ==> !p.Missing? && !p.NotInManifest?
  {
    problems := [];
    if !IsCount(b.total) {
      problems := problems + [BadTotal(name)];
    }
    if b.bySource.Some? {
      var sum := SumOfValues(b.bySource.value);
      if sum != b.total {
        problems := problems + [BadSum(name, sum, b.total)];
      }
    }
    if name == Skipped && b.total > 0.0 {
      if !Noted(b) {
        problems := problems + [SkippedNeedsNote];
      }
      if b.items.None? || |b.items.value| == 0 {
        problems := problems + [SkippedNeedsItems];
      }
    }
    if name == Skipped && b.items.Some? && |b.items.value| as real != b.total {
      problems := problems + [SkippedMiscounted(|b.items.value|, b.total)];
    }
    if name == DeclaredUnlinked && b.total > 0.0 && !Noted(b) {
      problems := problems + [GapNeedsNote];
    }
  }

  const NAMES: seq<BucketName> := [Evaluated, DeclaredUnlinked, Skipped, Unconsumed]

  /** `manifestIds` is None when the caller has no manifest to check against. */
  method ValidateCoverageStats(stats: Stats, manifestIds: Option<set<string>>) returns (problems: seq<Problem>)
    ensures manifestIds.Some? ==> (problems == [] <==> StatsOk(stats, manifestIds.value))
    ensures forall name :: Missing(name) in problems <==> Lookup(stats, name).None?
    ensures forall ref :: NotInManifest(ref) in problems <==>
              stats.evaluated.Some? && ref in ItemsOf(stats.evaluated.value)
              && manifestIds.Some? && ref !in manifestIds.value
  {
    problems := [];
    for i := 0 to 4
      invariant problems == [] <==> forall name :: name in NAMES[..i] ==> PartOk(stats, name)
      invariant forall name :: Missing(name) in problems <==> name in NAMES[..i] && Lookup(stats, name).None?
      invariant forall p :: p in problems ==> !p.NotInManifest?
    {
      var bucket := Lookup(stats, NAMES[i]);
      if bucket.None? {
        problems := problems + [Missing(NAMES[i])];
      } else {
        var more := ValidateBucket(NAMES[i], bucket.value);
        problems := problems + more;
        assert more == [] <==> PartOk(stats, NAMES[i]);
      }
      assert NAMES[..i + 1] == NAMES[..i] + [NAMES[i]] && NAMES[i] in NAMES[..i + 1];
      assert PartOk(stats, NAMES[i]) ==> bucket.Some?;
    }
    assert NAMES[..4] == NAMES;
    NamesAreAll();
    assert PartOk(stats, Evaluated) ==> stats.evaluated.Some?;
    ghost var before := problems;
    if stats.evaluated.Some? && stats.evaluated.value.items.Some? && manifestIds.Some? {
      var refs := stats.evaluated.value.items.value;
      for i := 0 to |refs|
        invariant problems == [] <==> before == [] && forall j :: 0 <= j < i ==> refs[j] in manifestIds.value
        invariant forall ref :: NotInManifest(ref) in problems <==> ref in refs[..i] && ref !in manifestIds.value
        invariant forall p: Problem :: !p.NotInManifest? ==> (p in problems <==> p in before)
      {
        if refs[i] !in manifestIds.value {
          problems := problems + [NotInManifest(refs[i])];
        }
      }
      assert refs[..|refs|] == refs;
    }
  }

  lemma NamesAreAll()
    ensures forall name: BucketName :: name in NAMES
  {
    forall name: BucketName ensures name in NAMES {
      match name
      case Evaluated => assert NAMES[0] == name;
      case DeclaredUnlinked => assert NAMES[1] == name;
      case Skipped => assert NAMES[2] == name;
      case Unconsumed => assert NAMES[3] == name;
    }
  }
}
