/** Counts per evidence source: `Record<string, number>` values and their sums. */
module SourceTally {

  type Counts = map<string, real>

  function Get(m: Counts, source: string): real {
    if source in m then m[source] else 0.0
  }

  function Bump(m: Counts, source: string, extra: real): Counts {
    m[source := Get(m, source) + extra]
  }

  /** Number of occurrences of every source. */
  function Tally(sources: seq<string>): Counts {
    if sources == [] then map[] else Bump(Tally(sources[..|sources| - 1]), sources[|sources| - 1], 1.0)
  }

  /** Pointwise sum of two records. */
  function Plus(a: Counts, b: Counts): Counts {
    map s | s in a.Keys + b.Keys :: Get(a, s) + Get(b, s)
  }

  ghost function Sum(m: Counts): real {
    if m == map[] then 0.0 else var s :| s in m; m[s] + Sum(m - {s})
  }

  /** The sum does not depend on the order the entries are visited in. */
  lemma {:induction false} SumPicksAny(m: Counts, s: string)
    requires s in m
    ensures Sum(m) == m[s] + Sum(m - {s})
    decreases m
  {
    var t :| t in m && Sum(m) == m[t] + Sum(m - {t});
    if s != t {
      SumPicksAny(m - {t}, s);
      SumPicksAny(m - {s}, t);
      assert m - {t} - {s} == m - {s} - {t};
    }
  }

  lemma SumAfterBump(m: Counts, s: string, extra: real)
    ensures Sum(Bump(m, s, extra)) == Sum(m) + extra
  {
    var m' := Bump(m, s, extra);
    SumPicksAny(m', s);
    if s in m {
      SumPicksAny(m, s);
      assert m' - {s} == m - {s};
    } else {
      assert m' - {s} == m;
    }
  }

  lemma PlusOneMore(a: Counts, b: Counts, s: string)
    requires s in b
    ensures Plus(a, b) == Bump(Plus(a, b - {s}), s, b[s])
  {
  }

  lemma {:induction false} SumOfPlus(a: Counts, b: Counts)
    ensures Sum(Plus(a, b)) == Sum(a) + Sum(b)
    decreases |b.Keys|
  {
    if b == map[] {
      assert Plus(a, b) == a;
    } else {
      var s :| s in b;
      var less := b - {s};
      assert less.Keys == b.Keys - {s};
      SumPicksAny(b, s);
      SumOfPlus(a, less);
      SumAfterBump(Plus(a, less), s, b[s]);
      PlusOneMore(a, b, s);
    }
  }

  lemma {:induction false} TallySumsToLength(sources: seq<string>)
    ensures Sum(Tally(sources)) == |sources| as real
  {
    if sources != [] {
      var n := |sources| - 1;
      TallySumsToLength(sources[..n]);
      SumAfterBump(Tally(sources[..n]), sources[n], 1.0);
    }
  }

  lemma {:induction false} TallyCounts(sources: seq<string>, s: string)
    ensures Get(Tally(sources), s) == multiset(sources)[s] as real
    ensures s in Tally(sources) <==> s in sources
  {
    if sources != [] {
      var n := |sources| - 1;
      TallyCounts(sources[..n], s);
      assert sources == sources[..n] + [sources[n]];
    }
  }
}
