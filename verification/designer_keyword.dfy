/**
 * Where the focus keyword appears: in the URL slug (every keyword word inside
 * some slug word), in an H1, in an H2 or H3, and in the opening tenth of the
 * page's words. The headings and the text come from the content cache.
 */
module DesignerKeyword {
  import opened Wrappers
  import opened Seqs
  import opened Text
  import opened JsMath
  import opened DesignerIssues
  import opened DesignerTree
  import opened ContentCache

  // ---------------------------------------------------------------------------
  // Slug
  // ---------------------------------------------------------------------------

  /** The separators of `split(/[-_]/)`. */
  predicate IsSlugSeparator(c: char) { c == '-' || c == '_' }

  /** The lower-cased slug cut at every hyphen and underscore. */
  function SlugWords(slug: string): seq<string> {
    SplitEach(Lower(slug), IsSlugSeparator)
  }

  /** The keyword cut at every run of white space. */
  function KeywordWords(lowerKeyword: string): seq<string> {
    SplitRuns(lowerKeyword, IsSpace)
  }

  /** Every keyword word occurs inside some slug word. */
  predicate SlugHasKeyword(slug: string, lowerKeyword: string) {
    forall w :: w in KeywordWords(lowerKeyword) ==> exists s :: s in SlugWords(slug) && Contains(s, w)
  }

  /** The slug check, made only for a page with a slug. */
  function SlugKeywordIssues(slug: string, lowerKeyword: string): seq<Issue> {
    if slug == [] then []
    else [Raise(if SlugHasKeyword(slug, lowerKeyword) then KeywordInSlug else KeywordNotInSlug)]
  }

  /** Splitting at the first separator: what precedes it is the first piece. */
  lemma {:induction false} SplitEachAtSeparator(a: string, c: char, b: string, sep: char -> bool)
    requires forall i :: 0 <= i < |a| ==> !sep(a[i])
    requires sep(c)
    ensures SplitEach(a + [c] + b, sep) == [a] + SplitEach(b, sep)
    decreases |a|
  {
    if a == [] {
      assert a + [c] + b == [c] + b;
      assert ([c] + b)[1..] == b;
    } else {
      SplitEachAtSeparator(a[1..], c, b, sep);
      assert (a + [c] + b)[1..] == a[1..] + [c] + b;
      assert [a[0]] + a[1..] == a;
    }
  }

  /** Joining pieces without separators by a separator and splitting again gives the pieces back. */
  lemma {:induction false} SplitEachJoin(ws: seq<string>, c: char, sep: char -> bool)
    requires ws != []
    requires sep(c)
    requires forall w :: w in ws ==> forall i :: 0 <= i < |w| ==> !sep(w[i])
    ensures SplitEach(Join(ws, [c]), sep) == ws
    decreases |ws|
  {
    if |ws| == 1 {
      SplitEachWithoutSeparator(ws[0], sep);
    } else {
      assert ws[0] in ws;
      assert forall w :: w in ws[1..] ==> w in ws;
      SplitEachJoin(ws[1..], c, sep);
      SplitEachAtSeparator(ws[0], c, Join(ws[1..], [c]), sep);
    }
  }

  /** A string of characters that lower-casing leaves alone. */
  predicate LowerFixed(s: string) {
    forall i :: 0 <= i < |s| ==> LowerChar(s[i]) == s[i]
  }

  /** Joining lower-case pieces with a character lower-casing leaves alone gives a lower-case string. */
  lemma {:induction false} JoinLowerFixed(ws: seq<string>, c: char)
    requires LowerChar(c) == c
    requires forall w :: w in ws ==> LowerFixed(w)
    ensures LowerFixed(Join(ws, [c]))
    decreases |ws|
  {
    if |ws| > 1 {
      assert ws[0] in ws;
      assert forall w :: w in ws[1..] ==> w in ws;
      JoinLowerFixed(ws[1..], c);
      var rest := Join(ws[1..], [c]);
      assert Join(ws, [c]) == ws[0] + [c] + rest;
      forall i | 0 <= i < |Join(ws, [c])| ensures LowerChar(Join(ws, [c])[i]) == Join(ws, [c])[i] {
        if i < |ws[0]| {
        } else if i == |ws[0]| {
        } else {
          assert Join(ws, [c])[i] == rest[i - |ws[0]| - 1];
        }
      }
    } else if |ws| == 1 {
      assert ws[0] in ws;
    }
  }

  /**
   * The slug a writer derives from the keyword by lower-casing it and joining
   * its words with hyphens passes the slug check, as long as the keyword holds
   * no hyphen or underscore of its own.
   */
  lemma HyphenatedKeywordSlug(keyword: string)
    requires forall i :: 0 <= i < |keyword| ==> !IsSlugSeparator(keyword[i])
    ensures SlugHasKeyword(Join(KeywordWords(Lower(keyword)), "-"), Lower(keyword))
  {
    var lowerKeyword := Lower(keyword);
    var ws := KeywordWords(lowerKeyword);
    var slug := Join(ws, "-");
    SplitRunsPieces(lowerKeyword, IsSpace);
    forall w | w in ws ensures LowerFixed(w) && forall i :: 0 <= i < |w| ==> !IsSlugSeparator(w[i]) {
      forall i | 0 <= i < |w| ensures LowerChar(w[i]) == w[i] && !IsSlugSeparator(w[i]) {
        assert w[i] in w;
        var k :| 0 <= k < |lowerKeyword| && lowerKeyword[k] == w[i];
        assert lowerKeyword[k] == LowerChar(keyword[k]);
      }
    }
    JoinLowerFixed(ws, '-');
    assert Lower(slug) == slug;
    SplitEachJoin(ws, '-', IsSlugSeparator);
    assert SlugWords(slug) == ws;
    forall w | w in ws ensures exists s :: s in SlugWords(slug) && Contains(s, w) {
      ContainsAt(w, w, 0);
      assert w[0..|w|] == w;
    }
  }

  // ---------------------------------------------------------------------------
  // Headings
  // ---------------------------------------------------------------------------

  predicate IsH1(h: HeadingInfo) { h.level == 1 }

  predicate IsSubheading(h: HeadingInfo) { h.level == 2 || h.level == 3 }

  /** A heading whose lower-cased text contains the keyword. */
  predicate HeadingHasKeyword(h: HeadingInfo, lowerKeyword: string) {
    Contains(Lower(h.text), lowerKeyword)
  }

  /** Whether some heading of the list contains the keyword. */
  predicate AnyHeadingHasKeyword(headings: seq<HeadingInfo>, lowerKeyword: string) {
    exists h :: h in headings && HeadingHasKeyword(h, lowerKeyword)
  }

  /** The H1 check, made only when there is an H1. */
  function H1KeywordIssues(headings: seq<HeadingInfo>, lowerKeyword: string): seq<Issue> {
    var h1s := Filter(headings, IsH1);
    if h1s == [] then []
    else [Raise(if AnyHeadingHasKeyword(h1s, lowerKeyword) then KeywordInH1 else KeywordNotInH1)]
  }

  /** The H2/H3 check, made only when there is an H2 or H3. */
  function SubheadingKeywordIssues(headings: seq<HeadingInfo>, lowerKeyword: string): seq<Issue> {
    var subheadings := Filter(headings, IsSubheading);
    if subheadings == [] then []
    else [Raise(if AnyHeadingHasKeyword(subheadings, lowerKeyword) then KeywordInSubheadings else KeywordNotInSubheadings)]
  }

  /**
   * The H1 check says nothing without an H1, and otherwise reports the
   * keyword found exactly when some H1 of the whole list contains it.
   */
  lemma H1KeywordCheck(headings: seq<HeadingInfo>, lowerKeyword: string)
    ensures H1KeywordIssues(headings, lowerKeyword) == [] <==> forall h :: h in headings ==> !IsH1(h)
    ensures H1KeywordIssues(headings, lowerKeyword) == [Raise(KeywordInH1)] <==>
            exists h :: h in headings && IsH1(h) && HeadingHasKeyword(h, lowerKeyword)
  {
    FilterEmptyIff(headings, IsH1);
    if exists h :: h in headings && IsH1(h) && HeadingHasKeyword(h, lowerKeyword) {
      var g :| g in headings && IsH1(g) && HeadingHasKeyword(g, lowerKeyword);
      FilterHas(headings, IsH1, g);
    }
  }

  /**
   * The H2/H3 check says nothing without such a heading, and otherwise
   * reports the keyword found exactly when some H2 or H3 contains it.
   */
  lemma SubheadingKeywordCheck(headings: seq<HeadingInfo>, lowerKeyword: string)
    ensures SubheadingKeywordIssues(headings, lowerKeyword) == [] <==> forall h :: h in headings ==> !IsSubheading(h)
    ensures SubheadingKeywordIssues(headings, lowerKeyword) == [Raise(KeywordInSubheadings)] <==>
            exists h :: h in headings && IsSubheading(h) && HeadingHasKeyword(h, lowerKeyword)
  {
    FilterEmptyIff(headings, IsSubheading);
    if exists h :: h in headings && IsSubheading(h) && HeadingHasKeyword(h, lowerKeyword) {
      var g :| g in headings && IsSubheading(g) && HeadingHasKeyword(g, lowerKeyword);
      FilterHas(headings, IsSubheading, g);
    }
  }

  // ---------------------------------------------------------------------------
  // Opening
  // ---------------------------------------------------------------------------

  /** The first tenth of the words, rounded up, joined by single spaces. */
  function OpeningPart(text: string): string {
    var words := SplitRuns(text, IsSpace);
    Join(Take(words, CeilDiv(|words|, 10)), " ")
  }

  /** The opening check, made only when the cache holds text. */
  function OpeningKeywordIssues(text: string, lowerKeyword: string): seq<Issue> {
    if text == [] then []
    else [Raise(if Contains(Lower(OpeningPart(text)), lowerKeyword) then KeywordInOpening else KeywordNotInOpening)]
  }

  /** The opening always starts with the text's first word, however short the text. */
  lemma OpeningStartsWithFirstWord(text: string)
    ensures Contains(OpeningPart(text), SplitRuns(text, IsSpace)[0])
  {
    var words := SplitRuns(text, IsSpace);
    var n := CeilDiv(|words|, 10);
    assert n >= 1;
    var opening := Take(words, n);
    assert opening[0] == words[0];
    if |opening| == 1 {
      ContainsAt(OpeningPart(text), words[0], 0);
    } else {
      var rest := " " + Join(opening[1..], " ");
      assert OpeningPart(text) == words[0] + rest;
      assert OpeningPart(text)[0..|words[0]|] == words[0];
      ContainsAt(OpeningPart(text), words[0], 0);
    }
  }

  /** A keyword inside the first word of the text is always found in the opening. */
  lemma OpeningFindsFirstWord(text: string, lowerKeyword: string)
    requires text != []
    requires Contains(Lower(SplitRuns(text, IsSpace)[0]), lowerKeyword)
    ensures OpeningKeywordIssues(text, lowerKeyword) == [Raise(KeywordInOpening)]
  {
    var first := SplitRuns(text, IsSpace)[0];
    OpeningStartsWithFirstWord(text);
    ContainsLower(OpeningPart(text), first);
    ContainsTransitive(Lower(OpeningPart(text)), Lower(first), lowerKeyword);
  }

  // ---------------------------------------------------------------------------
  // analyzeKeywordPlacement
  // ---------------------------------------------------------------------------

  /**
   * What `analyzeKeywordPlacement` reports, in push order: the slug, then the
   * headings when the page has a root element and a cache, then the opening
   * when the cache holds text.
   */
  function KeywordPlacementIssues(keyword: string, slug: string, hasRoot: bool, cache: Option<CacheEntry>): seq<Issue> {
    var lowerKeyword := Lower(keyword);
    SlugKeywordIssues(slug, lowerKeyword)
    + (if hasRoot && cache.Some? then
         H1KeywordIssues(cache.value.headings, lowerKeyword) + SubheadingKeywordIssues(cache.value.headings, lowerKeyword)
       else [])
    + (if cache.Some? then OpeningKeywordIssues(cache.value.text, lowerKeyword) else [])
  }

  /** `analyzeKeywordPlacement`: the three checks, pushed in order. */
  method AnalyzeKeywordPlacement(keyword: string, slug: string, hasRoot: bool, cache: Option<CacheEntry>)
    returns (issues: seq<Issue>)
    ensures issues == KeywordPlacementIssues(keyword, slug, hasRoot, cache)
  {
    var lowerKeyword := Lower(keyword);
    issues := CheckSlugKeyword(slug, lowerKeyword);
    if hasRoot && cache.Some? {
      var headingIssues := CheckHeadingKeyword(cache.value.headings, lowerKeyword);
      issues := issues + headingIssues;
    }
    if cache.Some? && cache.value.text != [] {
      var firstPart := Lower(OpeningPart(cache.value.text));
      if Contains(firstPart, lowerKeyword) {
        issues := issues + [Raise(KeywordInOpening)];
      } else {
        issues := issues + [Raise(KeywordNotInOpening)];
      }
    }
  }

  /** The slug step of `analyzeKeywordPlacement`. */
  method CheckSlugKeyword(slug: string, lowerKeyword: string) returns (issues: seq<Issue>)
    ensures issues == SlugKeywordIssues(slug, lowerKeyword)
  {
    issues := [];
    if slug != [] {
      var slugWords := SlugWords(slug);
      var keywordWords := KeywordWords(lowerKeyword);
      var keywordInSlug := forall w :: w in keywordWords ==> exists s :: s in slugWords && Contains(s, w);
      if keywordInSlug {
        issues := issues + [Raise(KeywordInSlug)];
      } else {
        issues := issues + [Raise(KeywordNotInSlug)];
      }
    }
  }

  /** The H1 and H2/H3 steps of `analyzeKeywordPlacement`. */
  method CheckHeadingKeyword(headings: seq<HeadingInfo>, lowerKeyword: string) returns (issues: seq<Issue>)
    ensures issues == H1KeywordIssues(headings, lowerKeyword) + SubheadingKeywordIssues(headings, lowerKeyword)
  {
    issues := [];
    var h1Headings := Filter(headings, IsH1);
    var h1WithKeyword := AnyHeadingHasKeyword(h1Headings, lowerKeyword);
    if |h1Headings| > 0 {
      if h1WithKeyword {
        issues := issues + [Raise(KeywordInH1)];
      } else {
        issues := issues + [Raise(KeywordNotInH1)];
      }
    }
    assert issues == H1KeywordIssues(headings, lowerKeyword);
    var subheadings := Filter(headings, IsSubheading);
    var subheadingWithKeyword := AnyHeadingHasKeyword(subheadings, lowerKeyword);
    if |subheadings| > 0 {
      if subheadingWithKeyword {
        issues := issues + [Raise(KeywordInSubheadings)];
      } else {
        issues := issues + [Raise(KeywordNotInSubheadings)];
      }
    }
  }
}
