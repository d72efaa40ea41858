/** `relatedProjects`: up to three projects to suggest after a pledge, drawn in priority order
    from recommendations, then projects similar to the backed one, then staff picks. */
module RelatedProjectsResolver {
  import opened Wrappers
  import opened Models

  // ---------------------------------------------------------------------------
  // Identifiers, and the reference notion of a first occurrence

  /** The identifiers of the projects in `s`. */
  function Ids(s: seq<Project>): set<int>
  {
    if s == [] then {} else {s[0].id} + Ids(s[1..])
  }

  /** No two projects of `s` share an identifier. */
  predicate NoDuplicateIds(s: seq<Project>)
  {
    forall i, j :: 0 <= i < j < |s| ==> s[i].id != s[j].id
  }

  /** The position of the first project of `s` with identifier `id`. */
  function FirstIndex(s: seq<Project>, id: int): (k: nat)
    requires id in Ids(s)
    ensures k < |s| && s[k].id == id
    ensures forall j :: 0 <= j < k ==> s[j].id != id
  {
    if s[0].id == id then 0 else 1 + FirstIndex(s[1..], id)
  }

  /** The first `n` elements of `s`, or all of them when there are fewer: Rx `take(n)`. */
  function Take(s: seq<Project>, n: nat): (r: seq<Project>)
    ensures |r| <= n && |r| <= |s| && r == s[..|r|]
    ensures |s| >= n ==> |r| == n
    ensures |s| <= n ==> r == s
  {
    if |s| <= n then s else s[..n]
  }

  // ---------------------------------------------------------------------------
  // Rx `distinct()` by identifier

  /** What `distinct()` lets through of the stream `s` once the identifiers in `seen` have
      already gone past: every project whose identifier is new, in stream order. */
  function DedupFrom(s: seq<Project>, seen: set<int>): (r: seq<Project>)
    ensures |r| <= |s|
    ensures NoDuplicateIds(r)
    ensures forall k :: 0 <= k < |r| ==> r[k].id in Ids(s) - seen
    ensures Ids(r) == Ids(s) - seen
  {
    if s == [] then []
    else if s[0].id in seen then DedupFrom(s[1..], seen)
    else [s[0]] + DedupFrom(s[1..], seen + {s[0].id})
  }

  /** `distinct()` over a whole stream. */
  function Distinct(s: seq<Project>): seq<Project>
  {
    DedupFrom(s, {})
  }

  /** Every project of `r` is the first project of `s` with its identifier. */
  predicate FirstOccurrencesOf(s: seq<Project>, r: seq<Project>)
  {
    forall k :: 0 <= k < |r| ==> r[k].id in Ids(s) && r[k] == s[FirstIndex(s, r[k].id)]
  }

  /** The projects of `r` appear in the order of their identifiers' first occurrences in `s`. */
  predicate InFirstOccurrenceOrder(s: seq<Project>, r: seq<Project>)
  {
    forall k, l :: 0 <= k < l < |r| ==>
      r[k].id in Ids(s) && r[l].id in Ids(s) && FirstIndex(s, r[k].id) < FirstIndex(s, r[l].id)
  }

  /** Past the head of `s`, first positions are those of its tail shifted by one. */
  lemma FirstIndexPastHead(s: seq<Project>, id: int)
    requires s != [] && id in Ids(s[1..]) && id != s[0].id
    ensures id in Ids(s) && FirstIndex(s, id) == 1 + FirstIndex(s[1..], id)
    ensures s[FirstIndex(s, id)] == s[1..][FirstIndex(s[1..], id)]
  {
  }

  /** `DedupFrom` keeps the first occurrence of each new identifier and no other. */
  lemma {:induction false} DedupFromKeepsFirstOccurrences(s: seq<Project>, seen: set<int>)
    ensures FirstOccurrencesOf(s, DedupFrom(s, seen))
  {
    if s != [] {
      var t := s[1..];
      var seen' := if s[0].id in seen then seen else seen + {s[0].id};
      DedupFromKeepsFirstOccurrences(t, seen');
      var r, r' := DedupFrom(s, seen), DedupFrom(t, seen');
      assert FirstOccurrencesOf(t, r');
      forall k | 0 <= k < |r'|
        ensures r'[k].id in Ids(s) && r'[k] == s[FirstIndex(s, r'[k].id)]
      {
        assert r'[k].id in Ids(t) - seen';
        FirstIndexPastHead(s, r'[k].id);
      }
      if s[0].id !in seen {
        assert r == [s[0]] + r';
        assert FirstIndex(s, s[0].id) == 0;
        forall k | 0 <= k < |r|
          ensures r[k].id in Ids(s) && r[k] == s[FirstIndex(s, r[k].id)]
        {
          if k > 0 {
            assert r[k] == r'[k - 1];
          }
        }
      }
    }
  }

  /** `DedupFrom` keeps those first occurrences in the order in which they appear in the stream. */
  lemma {:induction false} DedupFromInFirstOccurrenceOrder(s: seq<Project>, seen: set<int>)
    ensures InFirstOccurrenceOrder(s, DedupFrom(s, seen))
  {
    if s != [] {
      var t := s[1..];
      var seen' := if s[0].id in seen then seen else seen + {s[0].id};
      DedupFromInFirstOccurrenceOrder(t, seen');
      var r, r' := DedupFrom(s, seen), DedupFrom(t, seen');
      assert InFirstOccurrenceOrder(t, r');
      forall k | 0 <= k < |r'|
        ensures r'[k].id in Ids(s) && FirstIndex(s, r'[k].id) == 1 + FirstIndex(t, r'[k].id)
      {
        assert r'[k].id in Ids(t) - seen';
        FirstIndexPastHead(s, r'[k].id);
      }
      if s[0].id in seen {
        assert r == r';
        forall k, l | 0 <= k < l < |r|
          ensures r[k].id in Ids(s) && r[l].id in Ids(s) && FirstIndex(s, r[k].id) < FirstIndex(s, r[l].id)
        {
          assert FirstIndex(t, r'[k].id) < FirstIndex(t, r'[l].id);
        }
      } else {
        assert r == [s[0]] + r';
        assert FirstIndex(s, s[0].id) == 0;
        forall k, l | 0 <= k < l < |r|
          ensures r[k].id in Ids(s) && r[l].id in Ids(s) && FirstIndex(s, r[k].id) < FirstIndex(s, r[l].id)
        {
          assert r[l] == r'[l - 1];
          if k > 0 {
            assert r[k] == r'[k - 1];
            assert FirstIndex(t, r'[k - 1].id) < FirstIndex(t, r'[l - 1].id);
          }
        }
      }
    }
  }

  /** Deduplicating a concatenation: the first part is deduplicated on its own, and the second
      part loses, in addition, every identifier the first part already showed. */
  lemma {:induction false} DedupFromAppend(a: seq<Project>, b: seq<Project>, seen: set<int>)
    ensures DedupFrom(a + b, seen) == DedupFrom(a, seen) + DedupFrom(b, seen + Ids(a))
  {
    if a == [] {
      calc {
        DedupFrom(a + b, seen);
        { assert a + b == b; assert Ids(a) == {}; assert seen + Ids(a) == seen; }
        DedupFrom(b, seen + Ids(a));
        [] + DedupFrom(b, seen + Ids(a));
      }
    } else {
      var x, t := a[0], a[1..];
      assert a + b == [x] + (t + b);
      var seen' := if x.id in seen then seen else seen + {x.id};
      assert seen + Ids(a) == seen' + Ids(t);
      DedupFromAppend(t, b, seen');
      if x.id in seen {
        calc {
          DedupFrom(a + b, seen);
          DedupFrom(t + b, seen);
          DedupFrom(t, seen) + DedupFrom(b, seen + Ids(t));
        }
      } else {
        calc {
          DedupFrom(a + b, seen);
          [x] + DedupFrom(t + b, seen');
          [x] + (DedupFrom(t, seen') + DedupFrom(b, seen' + Ids(t)));
          ([x] + DedupFrom(t, seen')) + DedupFrom(b, seen' + Ids(t));
        }
      }
    }
  }

  /** An identifier that no project of `s` carries is not among the identifiers of `s`. */
  lemma {:induction false} IdAbsent(s: seq<Project>, id: int)
    requires forall k :: 0 <= k < |s| ==> s[k].id != id
    ensures id !in Ids(s)
  {
    if s != [] {
      IdAbsent(s[1..], id);
    }
  }

  /** A stream that already has distinct identifiers, none of them seen before, passes
      through `distinct()` unchanged. */
  lemma {:induction false} DedupFromOfDistinct(s: seq<Project>, seen: set<int>)
    requires NoDuplicateIds(s) && Ids(s) !! seen
    ensures DedupFrom(s, seen) == s
  {
    if s != [] {
      var t := s[1..];
      IdAbsent(t, s[0].id);
      DedupFromOfDistinct(t, seen + {s[0].id});
    }
  }

  // ---------------------------------------------------------------------------
  // Permutations (the shuffle) and identifiers

  /** A sequence without repeated identifiers holds each project at most once. */
  lemma {:induction false} NoDuplicateIdsCountsOnce(s: seq<Project>, x: Project)
    requires NoDuplicateIds(s)
    ensures multiset(s)[x] <= 1
  {
    if s != [] {
      var t := s[1..];
      assert s == [s[0]] + t;
      NoDuplicateIdsCountsOnce(t, x);
      if s[0] == x {
        forall k | 0 <= k < |t| ensures t[k] != x {
          assert s[k + 1].id != s[0].id;
        }
        assert multiset(t)[x] == 0;
      }
    }
  }

  /** Two projects found at different positions of a sequence are counted twice by its multiset. */
  lemma TwoPositionsCountTwice(s: seq<Project>, i: nat, j: nat)
    requires i < j < |s| && s[i] == s[j]
    ensures multiset(s)[s[i]] >= 2
  {
    assert s == s[..j] + [s[j]] + s[j + 1..];
    assert s[i] in s[..j];
  }

  /** Shuffling keeps the identifiers distinct when they were distinct before. */
  lemma PermutationKeepsNoDuplicateIds(a: seq<Project>, b: seq<Project>)
    requires multiset(a) == multiset(b) && NoDuplicateIds(a)
    ensures NoDuplicateIds(b)
  {
    forall i, j | 0 <= i < j < |b| ensures b[i].id != b[j].id {
      if b[i] == b[j] {
        TwoPositionsCountTwice(b, i, j);
        NoDuplicateIdsCountsOnce(a, b[i]);
      } else {
        assert b[i] in multiset(a) && b[j] in multiset(a);
        var p :| 0 <= p < |a| && a[p] == b[i];
        var q :| 0 <= q < |a| && a[q] == b[j];
        assert p != q;
      }
    }
  }

  // ---------------------------------------------------------------------------
  // The three catalog queries

  /** Personalised recommendations, one page of six, excluding projects already backed. */
  function RecommendedParams(): DiscoveryParams
  {
    EmptyParams.(backed := Some(-1), recommended := Some(true), perPage := Some(6))
  }

  /** Three projects similar to the one just backed, excluding projects already backed. */
  function SimilarToParams(project: Project): DiscoveryParams
  {
    EmptyParams.(backed := Some(-1), similarTo := Some(project), perPage := Some(3))
  }

  /** Three staff picks in the root of the project's category (any category when it has
      none), excluding projects already backed. */
  function StaffPickParams(project: Project): DiscoveryParams
  {
    var category := match project.category
      case None => None
      case Some(c) => Some(Root(c));
    EmptyParams.(category := category, backed := Some(-1), staffPicks := Some(true), perPage := Some(3))
  }

  /** How many of the three selection strategies a query turns on. */
  function StrategyCount(q: DiscoveryParams): nat
  {
    (if q.recommended == Some(true) then 1 else 0)
    + (if q.similarTo.Some? then 1 else 0)
    + (if q.staffPicks == Some(true) then 1 else 0)
  }

  /** Each query excludes backed projects and turns on exactly one strategy; only the
      staff-pick query filters by category, and it uses the root of the project's category. */
  lemma QueriesSelectOneStrategy(project: Project)
    ensures forall q :: q in [RecommendedParams(), SimilarToParams(project), StaffPickParams(project)] ==>
      q.backed == Some(-1) && StrategyCount(q) == 1
    ensures RecommendedParams().recommended == Some(true) && RecommendedParams().perPage == Some(6)
    ensures SimilarToParams(project).similarTo == Some(project) && SimilarToParams(project).perPage == Some(3)
    ensures StaffPickParams(project).staffPicks == Some(true) && StaffPickParams(project).perPage == Some(3)
    ensures RecommendedParams().category.None? && SimilarToParams(project).category.None?
    ensures StaffPickParams(project).category.Some? <==> project.category.Some?
    ensures project.category.Some? ==> StaffPickParams(project).category == Some(Root(project.category.value))
  {
  }

  // ---------------------------------------------------------------------------
  // The ordered merge

  /** The projects `concat(recommended, similar, staffPicks)` emits before it ends: the first
      three of the shuffled recommendations, then the similar projects, then the staff picks,
      each in its own order. A source that failed ends the stream there (`neverError` turns the
      error into completion), so the sources after it contribute nothing. */
  function Concatenated(recommended: Fetch<seq<Project>>, shuffled: seq<Project>,
                        similar: Fetch<seq<Project>>, staffPicks: Fetch<seq<Project>>): seq<Project>
  {
    match recommended
    case Failed => []
    case Ok(_) =>
      Take(shuffled, 3) +
      match similar
      case Failed => []
      case Ok(sim) =>
        sim +
        match staffPicks
        case Failed => []
        case Ok(staff) => staff
  }

  /** The project came from a source that answered. */
  predicate FromAnsweredSource(x: Project, recommended: Fetch<seq<Project>>,
                                similar: Fetch<seq<Project>>, staffPicks: Fetch<seq<Project>>)
  {
    || (recommended.Ok? && x in recommended.value)
    || (similar.Ok? && x in similar.value)
    || (staffPicks.Ok? && x in staffPicks.value)
  }

  /** The list `relatedProjects` emits, given each query's outcome after its retries and the
      order `shuffle` put the recommended page in. */
  function MergeRelated(recommended: Fetch<seq<Project>>, shuffled: seq<Project>,
                        similar: Fetch<seq<Project>>, staffPicks: Fetch<seq<Project>>): (r: seq<Project>)
    requires recommended.Ok? ==> multiset(shuffled) == multiset(recommended.value)
    ensures |r| <= 3 && NoDuplicateIds(r)
    ensures forall k :: 0 <= k < |r| ==> FromAnsweredSource(r[k], recommended, similar, staffPicks)
  {
    var emitted := Concatenated(recommended, shuffled, similar, staffPicks);
    var r := Take(Distinct(emitted), 3);
    DedupFromKeepsFirstOccurrences(emitted, {});
    forall k | 0 <= k < |r| ensures FromAnsweredSource(r[k], recommended, similar, staffPicks) {
      var x := emitted[FirstIndex(emitted, r[k].id)];
      assert r[k] == x && x in emitted;
      if recommended.Ok? {
        var top := Take(shuffled, 3);
        if x in top {
          assert x in multiset(shuffled);
        }
      }
    }
    r
  }

  /** `relatedProjects(project)`: the three queries are sent to `fetchProjects`, which gives each
      query's outcome once its retries are exhausted. */
  function RelatedProjects(project: Project, fetchProjects: DiscoveryParams -> Fetch<seq<Project>>,
                           shuffled: seq<Project>): (r: seq<Project>)
    requires fetchProjects(RecommendedParams()).Ok? ==>
      multiset(shuffled) == multiset(fetchProjects(RecommendedParams()).value)
    ensures |r| <= 3 && NoDuplicateIds(r)
  {
    MergeRelated(fetchProjects(RecommendedParams()), shuffled,
                 fetchProjects(SimilarToParams(project)), fetchProjects(StaffPickParams(project)))
  }

  // ---------------------------------------------------------------------------
  // Properties of the merge

  /** Priority: when every source answers, the result is the distinct recommendations, then the
      similar projects not already shown, then the staff picks not already shown, cut to three. */
  lemma MergeRelatedInPriorityOrder(recommended: Fetch<seq<Project>>, shuffled: seq<Project>,
                                    similar: Fetch<seq<Project>>, staffPicks: Fetch<seq<Project>>)
    requires recommended.Ok? && similar.Ok? && staffPicks.Ok?
    requires multiset(shuffled) == multiset(recommended.value)
    ensures var top := Take(shuffled, 3);
      MergeRelated(recommended, shuffled, similar, staffPicks) ==
        Take(Distinct(top)
             + DedupFrom(similar.value, Ids(top))
             + DedupFrom(staffPicks.value, Ids(top) + Ids(similar.value)), 3)
  {
    var top, sim, staff := Take(shuffled, 3), similar.value, staffPicks.value;
    assert Concatenated(recommended, shuffled, similar, staffPicks) == top + (sim + staff);
    DistinctOfThree(top, sim, staff);
  }

  /** Deduplicating three streams in a row: each loses the identifiers the earlier ones showed. */
  lemma DistinctOfThree(a: seq<Project>, b: seq<Project>, c: seq<Project>)
    ensures Distinct(a + (b + c)) == Distinct(a) + DedupFrom(b, Ids(a)) + DedupFrom(c, Ids(a) + Ids(b))
  {
    DedupFromAppend(a, b + c, {});
    assert {} + Ids(a) == Ids(a);
    DedupFromAppend(b, c, Ids(a));
  }

  /** A source that fails ends the merge: if the recommendations fail the result is empty, and
      otherwise the result is what the sources before the failing one give. */
  lemma MergeRelatedStopsAtFailure(recommended: Fetch<seq<Project>>, shuffled: seq<Project>,
                                   similar: Fetch<seq<Project>>, staffPicks: Fetch<seq<Project>>)
    requires recommended.Ok? ==> multiset(shuffled) == multiset(recommended.value)
    ensures recommended.Failed? ==> MergeRelated(recommended, shuffled, similar, staffPicks) == []
    ensures recommended.Ok? && similar.Failed? ==>
      MergeRelated(recommended, shuffled, similar, staffPicks) == Distinct(Take(shuffled, 3))
    ensures recommended.Ok? && similar.Ok? && staffPicks.Failed? ==>
      MergeRelated(recommended, shuffled, similar, staffPicks) ==
        Take(Distinct(Take(shuffled, 3) + similar.value), 3)
  {
    if recommended.Ok? && similar.Failed? {
      var top := Take(shuffled, 3);
      assert Concatenated(recommended, shuffled, similar, staffPicks) == top + [];
      assert top + [] == top;
    }
    if recommended.Ok? && similar.Ok? && staffPicks.Failed? {
      var top := Take(shuffled, 3);
      assert Concatenated(recommended, shuffled, similar, staffPicks) == top + (similar.value + []);
      assert top + (similar.value + []) == top + similar.value;
    }
  }

  /** When the first three shuffled recommendations have distinct identifiers, they are the
      result, in shuffled order, and neither similar projects nor staff picks appear. */
  lemma FullRecommendationsWin(recommended: Fetch<seq<Project>>, shuffled: seq<Project>,
                               similar: Fetch<seq<Project>>, staffPicks: Fetch<seq<Project>>)
    requires recommended.Ok? && multiset(shuffled) == multiset(recommended.value)
    requires |shuffled| >= 3 && NoDuplicateIds(shuffled[..3])
    ensures MergeRelated(recommended, shuffled, similar, staffPicks) == shuffled[..3]
  {
    var top := shuffled[..3];
    var emitted := Concatenated(recommended, shuffled, similar, staffPicks);
    assert emitted == top + emitted[3..];
    DedupFromAppend(top, emitted[3..], {});
    DedupFromOfDistinct(top, {});
  }

  /** A recommended page of at least three projects with distinct identifiers fills the list
      whatever the shuffle did: the result is the first three of the shuffled page, all of
      them recommendations. */
  lemma DistinctRecommendedPageWins(recommended: Fetch<seq<Project>>, shuffled: seq<Project>,
                                    similar: Fetch<seq<Project>>, staffPicks: Fetch<seq<Project>>)
    requires recommended.Ok? && multiset(shuffled) == multiset(recommended.value)
    requires |recommended.value| >= 3 && NoDuplicateIds(recommended.value)
    ensures var r := MergeRelated(recommended, shuffled, similar, staffPicks);
      |shuffled| >= 3 && r == shuffled[..3] && forall x :: x in r ==> x in recommended.value
  {
    PermutationKeepsNoDuplicateIds(recommended.value, shuffled);
    assert |shuffled| == |multiset(shuffled)| == |recommended.value|;
    FullRecommendationsWin(recommended, shuffled, similar, staffPicks);
    forall x | x in shuffled[..3] ensures x in recommended.value {
      assert x in multiset(shuffled);
    }
  }

  /** Once the recommendations alone give three distinct projects, the later sources are never
      consulted: the result is the same whatever they would answer. */
  lemma LaterSourcesIgnoredWhenFull(recommended: Fetch<seq<Project>>, shuffled: seq<Project>,
                                    similar: Fetch<seq<Project>>, staffPicks: Fetch<seq<Project>>,
                                    similar': Fetch<seq<Project>>, staffPicks': Fetch<seq<Project>>)
    requires recommended.Ok? && multiset(shuffled) == multiset(recommended.value)
    requires |Distinct(Take(shuffled, 3))| == 3
    ensures MergeRelated(recommended, shuffled, similar, staffPicks)
         == MergeRelated(recommended, shuffled, similar', staffPicks')
         == Distinct(Take(shuffled, 3))
  {
    var top := Take(shuffled, 3);
    var e := Concatenated(recommended, shuffled, similar, staffPicks);
    var e' := Concatenated(recommended, shuffled, similar', staffPicks');
    assert e == top + e[|top|..];
    assert e' == top + e'[|top|..];
    DedupFromAppend(top, e[|top|..], {});
    DedupFromAppend(top, e'[|top|..], {});
  }

  /** With no recommendations and no similar projects, the result is the first three staff
      picks in their original order (when they have distinct identifiers). */
  lemma OnlyStaffPicksAnswer(shuffled: seq<Project>, staff: seq<Project>)
    requires shuffled == [] && NoDuplicateIds(staff)
    ensures MergeRelated(Ok([]), shuffled, Ok([]), Ok(staff)) == Take(staff, 3)
  {
    assert Concatenated(Ok([]), shuffled, Ok([]), Ok(staff)) == staff;
    DedupFromOfDistinct(staff, {});
  }

  /** All three sources failing gives the empty list, not an error. */
  lemma AllSourcesFailing(shuffled: seq<Project>)
    ensures MergeRelated(Failed, shuffled, Failed, Failed) == []
  {
  }
}
