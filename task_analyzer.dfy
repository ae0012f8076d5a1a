/**
 * `analyzeCompetitors` of `task/analyzer.js`: search every competitor in list
 * order, keep those whose search returned something, then order the entries
 * so that those with a "High" finding come first. The search is a parameter.
 */
module TaskAnalyzer {
  import opened Common
  import opened TaskScraper

  /** One entry of the analyzer's output: `{ competitor: competitor.name, findings }`. */
  datatype CompetitorResult = CompetitorResult(competitor: string, findings: seq<Finding>)

  /** `findings.some(f => f.confidence === "High")`. */
  predicate HasHigh(e: CompetitorResult)
  {
    exists i | 0 <= i < |e.findings| :: e.findings[i].confidence == High
  }

  /**
   * The comparator handed to `results.sort`: negative when only `a` has a
   * High finding, positive when only `b` has one, 0 within a class.
   */
  function CompareByHigh(a: CompetitorResult, b: CompetitorResult): (c: int)
    ensures c == 0 <==> HasHigh(a) == HasHigh(b)
    ensures c < 0 <==> HasHigh(a) && !HasHigh(b)
    ensures c > 0 <==> !HasHigh(a) && HasHigh(b)
  {
    if HasHigh(a) && !HasHigh(b) then -1
    else if !HasHigh(a) && HasHigh(b) then 1
    else 0
  }

  /** `rs` is in ascending order under the comparator. */
  predicate SortedByHigh(rs: seq<CompetitorResult>)
  {
    forall i, j | 0 <= i < j < |rs| :: CompareByHigh(rs[i], rs[j]) <= 0
  }

  // ---------------------------------------------------------------------------
  // The collecting loop
  // ---------------------------------------------------------------------------

  /** The entry pushed for competitor `c`, if any. */
  function EntryFor(c: Competitor, search: Competitor -> seq<Finding>): (es: seq<CompetitorResult>)
    ensures es != [] <==> |search(c)| > 0
    ensures es != [] ==> es == [CompetitorResult(c.name, search(c))]
  {
    var found := search(c);
    if |found| > 0 then [CompetitorResult(c.name, found)] else []
  }

  /** What the loop has pushed after visiting `competitors`, in visiting order. */
  function Collect(competitors: seq<Competitor>, search: Competitor -> seq<Finding>): (rs: seq<CompetitorResult>)
    ensures |rs| <= |competitors|
    ensures forall e | e in rs ::
      |e.findings| > 0 && exists c | c in competitors :: e == CompetitorResult(c.name, search(c))
  {
    if competitors == [] then []
    else
      var last := competitors[|competitors| - 1];
      var front := competitors[..|competitors| - 1];
      var rs := Collect(front, search);
      assert forall c | c in front :: c in competitors;
      rs + EntryFor(last, search)
  }

  /** Collecting a concatenation gives the concatenation: entries follow competitor-list order. */
  lemma {:induction false} CollectAppend(a: seq<Competitor>, b: seq<Competitor>, search: Competitor -> seq<Finding>)
    ensures Collect(a + b, search) == Collect(a, search) + Collect(b, search)
    decreases |b|
  {
    if b == [] {
      assert a + b == a;
    } else {
      var front := b[..|b| - 1];
      assert (a + b)[..|a + b| - 1] == a + front;
      assert (a + b)[|a + b| - 1] == b[|b| - 1];
      CollectAppend(a, front, search);
    }
  }

  /** Every competitor whose search returned something has its entry in the output of the loop. */
  lemma {:induction false} CollectComplete(competitors: seq<Competitor>, search: Competitor -> seq<Finding>, c: Competitor)
    requires c in competitors && |search(c)| > 0
    ensures CompetitorResult(c.name, search(c)) in Collect(competitors, search)
    decreases |competitors|
  {
    var front := competitors[..|competitors| - 1];
    if c != competitors[|competitors| - 1] {
      assert competitors == front + [competitors[|competitors| - 1]];
      assert c in front;
      CollectComplete(front, search, c);
    }
  }

  /** An empty competitor list, or searches that all return nothing, give an empty output. */
  lemma {:induction false} NothingFoundYieldsEmpty(competitors: seq<Competitor>, search: Competitor -> seq<Finding>)
    requires forall c | c in competitors :: search(c) == []
    ensures Collect(competitors, search) == [] && RankByHigh(Collect(competitors, search)) == []
    decreases |competitors|
  {
    if competitors != [] {
      var front := competitors[..|competitors| - 1];
      assert forall c | c in front :: c in competitors;
      NothingFoundYieldsEmpty(front, search);
    }
  }

  // ---------------------------------------------------------------------------
  // The sort
  // ---------------------------------------------------------------------------

  /** The entries whose `HasHigh` is `high`, in their original order. */
  function Keep(es: seq<CompetitorResult>, high: bool): (r: seq<CompetitorResult>)
    ensures forall e | e in r :: e in es && HasHigh(e) == high
  {
    if es == [] then []
    else
      var rest := Keep(es[1..], high);
      if HasHigh(es[0]) == high then [es[0]] + rest else rest
  }

  /**
   * What `results.sort(CompareByHigh)` leaves. The comparator returns 0 within
   * a class and `Array.prototype.sort` is stable, so each class keeps its order.
   */
  function RankByHigh(es: seq<CompetitorResult>): (r: seq<CompetitorResult>)
    ensures |r| == |es|
    ensures forall e | e in r :: e in es
  {
    KeepSplitsMultiset(es);
    assert |multiset(Keep(es, true) + Keep(es, false))| == |multiset(es)|;
    Keep(es, true) + Keep(es, false)
  }

  lemma {:induction false} KeepAppend(a: seq<CompetitorResult>, b: seq<CompetitorResult>, high: bool)
    ensures Keep(a + b, high) == Keep(a, high) + Keep(b, high)
    decreases |a|
  {
    if a == [] {
      assert a + b == b;
    } else {
      assert (a + b)[0] == a[0] && (a + b)[1..] == a[1..] + b;
      KeepAppend(a[1..], b, high);
    }
  }

  /** Keeping a class twice keeps it once; keeping the other class of a class keeps nothing. */
  lemma {:induction false} KeepKeep(es: seq<CompetitorResult>, high: bool, other: bool)
    ensures Keep(Keep(es, high), other) == if other == high then Keep(es, high) else []
    decreases |es|
  {
    if es != [] {
      KeepKeep(es[1..], high, other);
      if HasHigh(es[0]) == high {
        var r := [es[0]] + Keep(es[1..], high);
        assert r[0] == es[0] && r[1..] == Keep(es[1..], high);
      }
    }
  }

  /** The two classes together hold exactly the entries of `es`. */
  lemma {:induction false} KeepSplitsMultiset(es: seq<CompetitorResult>)
    ensures multiset(Keep(es, true)) + multiset(Keep(es, false)) == multiset(es)
    decreases |es|
  {
    if es != [] {
      KeepSplitsMultiset(es[1..]);
      assert es == [es[0]] + es[1..];
    }
  }

  /** The ordering is a permutation of its input. */
  lemma RankIsPermutation(es: seq<CompetitorResult>)
    ensures multiset(RankByHigh(es)) == multiset(es)
  {
    KeepSplitsMultiset(es);
  }

  /** Every entry with a "High" finding precedes every entry without one. */
  lemma RankIsSorted(es: seq<CompetitorResult>)
    ensures SortedByHigh(RankByHigh(es))
  {
    var r := RankByHigh(es);
    var n := |Keep(es, true)|;
    forall i, j | 0 <= i < j < |r| ensures CompareByHigh(r[i], r[j]) <= 0 {
      if i < n {
        assert r[i] in Keep(es, true);
      } else {
        assert r[i] in Keep(es, false) && r[j] in Keep(es, false);
      }
    }
  }

  /** Within each class, the entries keep the order they had before sorting. */
  lemma RankIsStable(es: seq<CompetitorResult>, high: bool)
    ensures Keep(RankByHigh(es), high) == Keep(es, high)
  {
    KeepAppend(Keep(es, true), Keep(es, false), high);
    KeepKeep(es, true, high);
    KeepKeep(es, false, high);
  }

  /** Dropping the first entry of a sorted sequence leaves it sorted. */
  lemma SortedTail(r: seq<CompetitorResult>)
    requires r != [] && SortedByHigh(r)
    ensures SortedByHigh(r[1..])
  {
    forall i, j | 0 <= i < j < |r[1..]| ensures CompareByHigh(r[1..][i], r[1..][j]) <= 0 {
      assert r[1..][i] == r[i + 1] && r[1..][j] == r[j + 1];
    }
  }

  /** In a sorted sequence that starts without a High finding, no entry has one. */
  lemma NonHighHeadMeansNoHigh(r: seq<CompetitorResult>)
    requires r != [] && SortedByHigh(r) && !HasHigh(r[0])
    ensures forall k | 0 <= k < |r| :: !HasHigh(r[k])
  {
    forall k | 0 < k < |r| ensures !HasHigh(r[k]) {
      assert CompareByHigh(r[0], r[k]) <= 0;
    }
  }

  /** One unfolding of Keep on a High head. */
  lemma KeepHighHead(r: seq<CompetitorResult>)
    requires r != [] && HasHigh(r[0])
    ensures Keep(r, true) == [r[0]] + Keep(r[1..], true)
    ensures Keep(r, false) == Keep(r[1..], false)
  {
  }

  /** Putting the head back in front of a split tail. */
  lemma ConsSplit<T>(r: seq<T>, t: seq<T>, f: seq<T>)
    requires r != [] && r[1..] == t + f
    ensures r == ([r[0]] + t) + f
  {
    assert r == [r[0]] + r[1..];
  }

  /** A sorted sequence is its "High" class followed by the rest. */
  lemma {:induction false} SortedSplits(r: seq<CompetitorResult>)
    requires SortedByHigh(r)
    ensures r == Keep(r, true) + Keep(r, false)
    decreases |r|
  {
    if r != [] {
      if HasHigh(r[0]) {
        SortedTail(r);
        SortedSplits(r[1..]);
        KeepHighHead(r);
        ConsSplit(r, Keep(r[1..], true), Keep(r[1..], false));
      } else {
        NonHighHeadMeansNoHigh(r);
        NoHighKeepsNothing(r);
      }
    }
  }

  lemma {:induction false} NoHighKeepsNothing(r: seq<CompetitorResult>)
    requires forall k | 0 <= k < |r| :: !HasHigh(r[k])
    ensures Keep(r, true) == [] && Keep(r, false) == r
    decreases |r|
  {
    if r != [] {
      NoHighKeepsNothing(r[1..]);
    }
  }

  /**
   * RankByHigh is the only order a stable sort under the comparator can
   * produce: any sorted sequence whose classes keep the input's order equals it.
   */
  lemma RankIsUnique(es: seq<CompetitorResult>, r: seq<CompetitorResult>)
    requires SortedByHigh(r)
    requires Keep(r, true) == Keep(es, true) && Keep(r, false) == Keep(es, false)
    ensures r == RankByHigh(es)
  {
    SortedSplits(r);
  }

  // ---------------------------------------------------------------------------
  // analyzeCompetitors
  // ---------------------------------------------------------------------------

  /**
   * Searches every competitor in list order, pushes an entry for each one whose
   * search returned something, then sorts the entries High-first.
   */
  method AnalyzeCompetitors(competitors: seq<Competitor>, search: Competitor -> seq<Finding>)
    returns (results: seq<CompetitorResult>)
    ensures results == RankByHigh(Collect(competitors, search))
    ensures |results| <= |competitors|
    ensures forall e | e in results ::
      |e.findings| > 0 && exists c | c in competitors :: e == CompetitorResult(c.name, search(c))
    ensures multiset(results) == multiset(Collect(competitors, search))
    ensures SortedByHigh(results)
  {
    results := [];
    for i := 0 to |competitors|
      invariant results == Collect(competitors[..i], search)
    {
      var searchResults := search(competitors[i]);
      if |searchResults| > 0 {
        results := results + [CompetitorResult(competitors[i].name, searchResults)];
      }
      assert competitors[..i + 1][..i] == competitors[..i];
    }
    assert competitors[..|competitors|] == competitors;
    ghost var collected := results;
    RankIsPermutation(collected);
    RankIsSorted(collected);
    results := RankByHigh(results);
    assert |results| == |collected| by {
      assert |multiset(results)| == |multiset(collected)|;
    }
    forall e | e in results ensures e in collected {
      assert e in multiset(results);
    }
  }
}
