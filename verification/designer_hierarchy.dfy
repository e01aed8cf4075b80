/**
 * The heading-hierarchy check of the Designer extension's recommendations
 * panel. The headings collected from the page are sorted by level; walking
 * them in that order, a heading more than one level deeper than the previous
 * one is reported as a skipped level, and a page with an H1 and deeper
 * headings but no H2 is reported as missing its H2s.
 */
module DesignerHierarchy {
  import opened Seqs
  import opened DesignerIssues
  import opened DesignerTree

  function Level(h: HeadingInfo): nat { h.level }

  function LevelKey(h: HeadingInfo): real { h.level as real }

  function NatKey(n: nat): real { n as real }

  function Levels(headings: seq<HeadingInfo>): seq<nat> {
    Map(headings, Level)
  }

  /** The levels in the order the check walks them. */
  function SortedLevels(headings: seq<HeadingInfo>): seq<nat> {
    Levels(SortBy(headings, LevelKey))
  }

  /** `previousLevel` after walking `levels`: it starts at 0 and always ends up at the level just seen. */
  function PreviousLevel(levels: seq<nat>): nat {
    if levels == [] then 0 else levels[|levels| - 1]
  }

  /** The skip reported, if any, when `level` follows `previous`. */
  function SkipAt(previous: nat, level: nat): seq<Issue> {
    When(level > previous + 1 && previous > 0, HierarchySkip(level, previous + 1))
  }

  /** The skip issues of a walk over `levels`, in walk order. */
  function Skips(levels: seq<nat>): seq<Issue>
    decreases |levels|
  {
    if levels == [] then []
    else
      var init := levels[..|levels| - 1];
      Skips(init) + SkipAt(PreviousLevel(init), levels[|levels| - 1])
  }

  /** The `levelCounts[1] && !levelCounts[2] && (levelCounts[3] || ... || levelCounts[6])` test. */
  predicate MissingH2Applies(levels: seq<nat>) {
    1 in levels && 2 !in levels && (3 in levels || 4 in levels || 5 in levels || 6 in levels)
  }

  /** What the check reports for a list of headings. */
  function HierarchyIssues(headings: seq<HeadingInfo>): seq<Issue> {
    if headings == [] then []
    else
      var levels := SortedLevels(headings);
      Skips(levels) + When(MissingH2Applies(levels), MissingH2)
  }

  /**
   * The declarative reading of a skip: level `previous` (at least 1) and
   * level `level`, more than one apart, both occur, and no level strictly
   * between them does.
   */
  ghost predicate Gap(levels: seq<nat>, previous: nat, level: nat) {
    0 < previous && previous + 1 < level && previous in levels && level in levels
    && forall x :: previous < x < level ==> x !in levels
  }

  // ---------------------------------------------------------------------------
  // The check as the extension runs it
  // ---------------------------------------------------------------------------

  method AnalyzeHeadingHierarchy(headings: seq<HeadingInfo>) returns (issues: seq<Issue>)
    ensures issues == HierarchyIssues(headings)
  {
    issues := [];
    if |headings| == 0 {
      return;
    }
    var sortedHeadings := SortBy(headings, LevelKey);
    var levelCounts;
    issues, levelCounts := WalkSortedHeadings(sortedHeadings);
    var hasH1 := 1 in levelCounts && levelCounts[1] > 0;
    var hasH2 := 2 in levelCounts && levelCounts[2] > 0;
    var hasDeeper := (3 in levelCounts && levelCounts[3] > 0) || (4 in levelCounts && levelCounts[4] > 0)
      || (5 in levelCounts && levelCounts[5] > 0) || (6 in levelCounts && levelCounts[6] > 0);
    if hasH1 && !hasH2 && hasDeeper {
      issues := issues + [Raise(MissingH2)];
    }
  }

  /** The loop of the check: the skips found walking the sorted headings, and how many there are at each level. */
  method WalkSortedHeadings(sortedHeadings: seq<HeadingInfo>) returns (issues: seq<Issue>, levelCounts: map<nat, nat>)
    ensures issues == Skips(Levels(sortedHeadings))
    ensures forall l :: l in levelCounts <==> l in Levels(sortedHeadings)
    ensures forall l :: l in levelCounts ==> levelCounts[l] > 0
  {
    ghost var levels := Levels(sortedHeadings);
    issues := [];
    var previousLevel := 0;
    levelCounts := map[];
    for i := 0 to |sortedHeadings|
      invariant issues == Skips(levels[..i])
      invariant previousLevel == PreviousLevel(levels[..i])
      invariant forall l :: l in levelCounts <==> l in levels[..i]
      invariant forall l :: l in levelCounts ==> levelCounts[l] > 0
    {
      var heading := sortedHeadings[i];
      PrefixSnoc(levels, i);
      assert levels[..i + 1][..i] == levels[..i];
      assert heading.level == levels[i];
      assert Skips(levels[..i + 1]) == Skips(levels[..i]) + SkipAt(PreviousLevel(levels[..i]), levels[i]);
      levelCounts := levelCounts[heading.level := (if heading.level in levelCounts then levelCounts[heading.level] else 0) + 1];
      ghost var pushed := issues;
      if heading.level > previousLevel + 1 && previousLevel > 0 {
        issues := issues + [Raise(HierarchySkip(heading.level, previousLevel + 1))];
      }
      assert issues == pushed + SkipAt(previousLevel, levels[i]);
      if heading.level < previousLevel {
        previousLevel := heading.level;
      } else if heading.level > previousLevel {
        previousLevel := heading.level;
      }
    }
    assert levels[..|sortedHeadings|] == levels;
  }

  // ---------------------------------------------------------------------------
  // What the check means
  // ---------------------------------------------------------------------------

  /** The walk order holds the same levels as the page, ascending. */
  lemma SortedLevelsProperties(headings: seq<HeadingInfo>)
    ensures SortedBy(SortedLevels(headings), NatKey)
    ensures multiset(SortedLevels(headings)) == multiset(Levels(headings))
    ensures SortedLevels(headings) == SortBy(Levels(headings), NatKey)
  {
    SortByMap(headings, LevelKey, Level, NatKey);
    SortByProperties(Levels(headings), NatKey);
  }

  /** The report depends only on how many headings there are at each level, not on their order or text. */
  lemma HierarchyDependsOnLevelsOnly(a: seq<HeadingInfo>, b: seq<HeadingInfo>)
    requires multiset(Levels(a)) == multiset(Levels(b))
    ensures HierarchyIssues(a) == HierarchyIssues(b)
  {
    SortedLevelsProperties(a);
    SortedLevelsProperties(b);
    SortedUnique(SortedLevels(a), SortedLevels(b), NatKey);
    assert |a| == |Levels(a)| == |multiset(Levels(a))| == |multiset(Levels(b))| == |b|;
  }

  /** Every issue a walk produces is a skip. */
  lemma {:induction false} SkipsAreSkips(levels: seq<nat>)
    ensures forall issue :: issue in Skips(levels) ==> issue.message.HierarchySkip?
    decreases |levels|
  {
    if levels != [] {
      SkipsAreSkips(levels[..|levels| - 1]);
    }
  }

  /** The missing-H2 warning is raised exactly when the page has an H1, no H2, and an H3 to H6. */
  lemma MissingH2Reported(headings: seq<HeadingInfo>)
    ensures Raise(MissingH2) in HierarchyIssues(headings) <==> MissingH2Applies(Levels(headings))
  {
    if headings != [] {
      var levels := SortedLevels(headings);
      SortedLevelsProperties(headings);
      SkipsAreSkips(levels);
      assert forall l :: l in levels <==> l in Levels(headings) by {
        forall l ensures l in levels <==> l in Levels(headings) {
          assert l in levels <==> l in multiset(levels);
          assert l in Levels(headings) <==> l in multiset(Levels(headings));
        }
      }
    }
  }

  /** A skip is reported between neighbours `i - 1` and `i` of the walk. */
  ghost predicate AdjacentSkip(levels: seq<nat>, i: int, level: nat, expected: nat) {
    1 <= i < |levels| && levels[i - 1] > 0 && levels[i] > levels[i - 1] + 1
    && level == levels[i] && expected == levels[i - 1] + 1
  }

  /** The walk reports a skip exactly at neighbours more than one level apart, the first of them at least 1. */
  lemma {:induction false} SkipsAtNeighbours(levels: seq<nat>, level: nat, expected: nat)
    ensures Raise(HierarchySkip(level, expected)) in Skips(levels)
        <==> exists i :: AdjacentSkip(levels, i, level, expected)
    decreases |levels|
  {
    if levels != [] {
      var n := |levels| - 1;
      var init := levels[..n];
      SkipsAtNeighbours(init, level, expected);
      var m := Raise(HierarchySkip(level, expected));
      assert m in Skips(levels) <==> m in Skips(init) || m in SkipAt(PreviousLevel(init), levels[n]);
      assert (exists i :: AdjacentSkip(init, i, level, expected))
          <==> exists i :: 1 <= i < n && AdjacentSkip(levels, i, level, expected) by {
        forall i | 1 <= i < n ensures AdjacentSkip(init, i, level, expected) <==> AdjacentSkip(levels, i, level, expected) {
          assert init[i] == levels[i] && init[i - 1] == levels[i - 1];
        }
      }
      if n >= 1 {
        assert PreviousLevel(init) == levels[n - 1];
        assert m in SkipAt(PreviousLevel(init), levels[n]) <==> AdjacentSkip(levels, n, level, expected);
      } else {
        assert SkipAt(PreviousLevel(init), levels[n]) == [];
      }
    }
  }

  /** In an ascending walk every level lies at or below position `i - 1`'s or at or above position `i`'s. */
  lemma AscendingSplit(levels: seq<nat>, i: nat)
    requires SortedBy(levels, NatKey)
    requires 1 <= i < |levels|
    ensures forall x :: x in levels ==> x <= levels[i - 1] || levels[i] <= x
  {
    forall j | 0 <= j < |levels| ensures levels[j] <= levels[i - 1] || levels[i] <= levels[j] {
      if j < i - 1 {
        assert NatKey(levels[j]) <= NatKey(levels[i - 1]);
      } else if i < j {
        assert NatKey(levels[i]) <= NatKey(levels[j]);
      }
    }
  }

  /** In an ascending walk, neighbours more than one apart are exactly the gaps among the levels present. */
  lemma NeighboursAreGaps(levels: seq<nat>, level: nat, expected: nat)
    requires SortedBy(levels, NatKey)
    ensures (exists i :: AdjacentSkip(levels, i, level, expected)) <==> expected >= 1 && Gap(levels, expected - 1, level)
  {
    if i :| AdjacentSkip(levels, i, level, expected) {
      AscendingSplit(levels, i);
      assert levels[i - 1] in levels && levels[i] in levels;
    }
    if expected >= 1 && Gap(levels, expected - 1, level) {
      var p := expected - 1;
      var k :| 0 <= k < |levels| && levels[k] == level;
      var j :| 0 <= j < |levels| && levels[j] == p;
      var i := FirstAtLeast(levels, level, k);
      assert j < i;
      assert levels[i - 1] < level;
      assert levels[i - 1] <= p by {
        assert levels[i - 1] in levels;
      }
      assert levels[i - 1] == p by {
        if j < i - 1 { assert NatKey(levels[j]) <= NatKey(levels[i - 1]); }
      }
      assert levels[i] == level by {
        if i < k { assert NatKey(levels[i]) <= NatKey(levels[k]); }
      }
      assert AdjacentSkip(levels, i, level, expected);
    }
  }

  /** The first index of an ascending walk whose level is at least `level`, given one at or before `k`. */
  lemma {:induction false} FirstAtLeast(levels: seq<nat>, level: nat, k: nat) returns (i: nat)
    requires SortedBy(levels, NatKey)
    requires k < |levels| && levels[k] >= level
    ensures i <= k && levels[i] >= level
    ensures forall j :: 0 <= j < i ==> levels[j] < level
    ensures forall j :: i <= j < |levels| ==> levels[j] >= level
    decreases k
  {
    if k == 0 || levels[k - 1] < level {
      i := k;
      forall j | 0 <= j < k ensures levels[j] < level {
        if j < k - 1 { assert NatKey(levels[j]) <= NatKey(levels[k - 1]); }
      }
      forall j | k < j < |levels| ensures levels[j] >= level {
        assert NatKey(levels[k]) <= NatKey(levels[j]);
      }
    } else {
      i := FirstAtLeast(levels, level, k - 1);
    }
  }

  /**
   * A skip `H<level> appears without H<expected>` is reported exactly when
   * the page has headings at level `expected - 1` (at least 1) and at
   * `level`, more than one apart, and none in between.
   */
  lemma SkipReported(headings: seq<HeadingInfo>, level: nat, expected: nat)
    ensures Raise(HierarchySkip(level, expected)) in HierarchyIssues(headings)
        <==> expected >= 1 && Gap(Levels(headings), expected - 1, level)
  {
    if headings == [] {
      assert Levels(headings) == [];
    } else {
      var levels := SortedLevels(headings);
      SortedLevelsProperties(headings);
      SkipsAtNeighbours(levels, level, expected);
      NeighboursAreGaps(levels, level, expected);
      assert forall l :: l in levels <==> l in Levels(headings) by {
        forall l ensures l in levels <==> l in Levels(headings) {
          assert l in levels <==> l in multiset(levels);
          assert l in Levels(headings) <==> l in multiset(Levels(headings));
        }
      }
      if expected >= 1 {
        assert Gap(levels, expected - 1, level) <==> Gap(Levels(headings), expected - 1, level);
      }
    }
  }
}
