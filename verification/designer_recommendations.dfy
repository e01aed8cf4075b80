/**
 * `displayRecommendations`: the Designer extension's advice list. Each group
 * of rules pushes recommendations, mostly by looking for words in the issue
 * messages; the list is then sorted by priority, keeping the push order among
 * equal priorities, before it is rendered.
 */
module DesignerRecommendations {
  import opened Wrappers
  import opened Seqs
  import opened Text
  import opened DesignerIssues
  import opened DesignerTree
  import opened DesignerHierarchy
  import opened ContentCache
  import opened DesignerPage
  import opened DesignerScore

  /** A keyword density in percent; a keyword found in a text of no words has an unbounded one. */
  datatype Density = Percent(value: real) | Unbounded

  /** What a recommendation asks for: its title, with the values its description shows. */
  datatype Advice =
    | AddFocusKeyword
    | AddH1
    | AddPageTitle
    | AddMetaDescription
    | FixMultipleH1(count: string)
    | ExpandContent(missingWords: nat)
    | OptimizeContentLength(missingWords: nat)
    | AddH2Subheadings
    | FixHeadingOrder(message: string)
    | IncreaseKeywordUsage(keyword: string, occurrences: nat, density: real)
    | ReduceKeywordStuffing(keyword: string, stuffed: Density)
    | AddKeywordToTitle(keyword: string)
    | AddKeywordToH1(keyword: string)
    | OptimizeUrlSlug(keyword: string)
    | AddKeywordEarly(keyword: string)
    | AddInternalLinks
    | AddMoreInternalLinks(message: string)
    | LinkToSources
    | FixGenericLinkText
    | ShortenLongSentences
    | BreakUpParagraphs(message: string)
    | UseActiveVoice
    | AddTransitionWords
    | VarySentenceStarts(message: string)
    | AddMissingAlt(message: string)
    | ImproveAltDescriptions
    | ExpandShortAlt
    | ShortenLongAlt
    | UseSeoFilenames
    | AddMoreImages(message: string)
    | ReduceKeywordInAlt
    | ShortenUrlSlug
    | CleanUpUrl
    | FixUrlFormat
    | FixDoubleHyphens
    | PageInDraft
    | AddSocialTags
    | AddArticleSchema
    | AddFaqSchema
    | ImproveReadability(message: string)

  /** A recommendation: the sort priority, the type it is shown with, and the advice. */
  datatype Recommendation = Recommendation(priority: real, kind: Severity, advice: Advice)

  function Priority(r: Recommendation): real { r.priority }

  /** One pushed recommendation. */
  function Push(priority: real, kind: Severity, advice: Advice): seq<Recommendation> {
    [Recommendation(priority, kind, advice)]
  }

  /** Every priority of the list lies between `lo` and `hi`. */
  predicate PrioritiesWithin(recs: seq<Recommendation>, lo: real, hi: real) {
    forall j :: 0 <= j < |recs| ==> lo <= recs[j].priority <= hi
  }

  lemma PrioritiesConcat(a: seq<Recommendation>, b: seq<Recommendation>, lo: real, hi: real)
    requires PrioritiesWithin(a, lo, hi) && PrioritiesWithin(b, lo, hi)
    ensures PrioritiesWithin(a + b, lo, hi)
  {
    forall j | 0 <= j < |a + b| ensures lo <= (a + b)[j].priority <= hi {
      if j >= |a| {
        assert (a + b)[j] == b[j - |a|];
      }
    }
  }

  // ---------------------------------------------------------------------------
  // `issues.forEach(issue => ...)`
  // ---------------------------------------------------------------------------

  /** What the rule pushes for each issue, in issue order. */
  function Collect(issues: seq<Issue>, rule: Issue -> seq<Recommendation>): seq<Recommendation>
    decreases |issues|
  {
    if issues == [] then [] else Collect(issues[..|issues| - 1], rule) + rule(issues[|issues| - 1])
  }

  /** The loop itself. */
  method ForEachIssue(issues: seq<Issue>, rule: Issue -> seq<Recommendation>) returns (recs: seq<Recommendation>)
    ensures recs == Collect(issues, rule)
  {
    recs := [];
    var i := 0;
    while i < |issues|
      invariant 0 <= i <= |issues|
      invariant recs == Collect(issues[..i], rule)
    {
      assert issues[..i + 1][..i] == issues[..i];
      recs := recs + rule(issues[i]);
      i := i + 1;
    }
    assert issues[..|issues|] == issues;
  }

  /** Everything the rule pushes for one of the issues is among what the loop collects. */
  lemma {:induction false} CollectHas(issues: seq<Issue>, rule: Issue -> seq<Recommendation>, i: nat, r: Recommendation)
    requires i < |issues| && r in rule(issues[i])
    ensures r in Collect(issues, rule)
    decreases |issues|
  {
    var last := |issues| - 1;
    if i < last {
      assert issues[..last][i] == issues[i];
      CollectHas(issues[..last], rule, i, r);
    }
  }

  /** Bounds every pushed priority obeys hold for the whole collection. */
  lemma {:induction false} CollectWithin(issues: seq<Issue>, rule: Issue -> seq<Recommendation>, lo: real, hi: real)
    requires forall issue :: PrioritiesWithin(rule(issue), lo, hi)
    ensures PrioritiesWithin(Collect(issues, rule), lo, hi)
    decreases |issues|
  {
    if issues != [] {
      CollectWithin(issues[..|issues| - 1], rule, lo, hi);
      PrioritiesConcat(Collect(issues[..|issues| - 1], rule), rule(issues[|issues| - 1]), lo, hi);
    }
  }

  /** The loop over no issues pushes nothing. */
  lemma CollectNone(rule: Issue -> seq<Recommendation>)
    ensures Collect([], rule) == []
  {
  }

  // ---------------------------------------------------------------------------
  // Critical errors (priorities 2 and 2.5)
  // ---------------------------------------------------------------------------

  /** The errors about a missing H1, title or description. */
  function ErrorRule(issue: Issue): (r: seq<Recommendation>)
    ensures PrioritiesWithin(r, 2.0, 2.0)
  {
    if issue.severity != Error then []
    else if Mentions(issue, "No H1") then Push(2.0, Error, AddH1)
    else if Mentions(issue, "Missing page title") then Push(2.0, Error, AddPageTitle)
    else if Mentions(issue, "Missing meta description") then Push(2.0, Error, AddMetaDescription)
    else []
  }

  /** The length of the run of decimal digits `s` starts with. */
  function DigitRun(s: string): (n: nat)
    ensures n <= |s|
    ensures forall i :: 0 <= i < n ==> IsDigit(s[i])
    ensures n < |s| ==> !IsDigit(s[n])
    decreases |s|
  {
    if s != [] && IsDigit(s[0]) then 1 + DigitRun(s[1..]) else 0
  }

  /** `s.match(/\((\d+)\)/)?.[1]`: the digits of the leftmost parenthesised number. */
  function ParenNumber(s: string): (r: Option<string>)
    ensures r.Some? ==> r.value != [] && forall i :: 0 <= i < |r.value| ==> IsDigit(r.value[i])
    decreases |s|
  {
    if s == [] then None
    else
      var d := DigitRun(s[1..]);
      if s[0] == '(' && d > 0 && 1 + d < |s| && s[1 + d] == ')' then Some(s[1..1 + d])
      else ParenNumber(s[1..])
  }

  /** A parenthesised number after a text without parentheses is the one found. */
  lemma {:induction false} ParenNumberAfter(prefix: string, digits: string, rest: string)
    requires forall i :: 0 <= i < |prefix| ==> prefix[i] != '('
    requires digits != [] && forall i :: 0 <= i < |digits| ==> IsDigit(digits[i])
    ensures ParenNumber(prefix + "(" + digits + ")" + rest) == Some(digits)
    decreases |prefix|
  {
    var s := prefix + "(" + digits + ")" + rest;
    if prefix == [] {
      assert s[1..] == digits + ")" + rest;
      DigitsThenClose(digits, rest);
      assert s[1..1 + |digits|] == digits;
    } else {
      assert s[1..] == prefix[1..] + "(" + digits + ")" + rest;
      ParenNumberAfter(prefix[1..], digits, rest);
    }
  }

  lemma DigitsThenClose(digits: string, rest: string)
    requires forall i :: 0 <= i < |digits| ==> IsDigit(digits[i])
    ensures DigitRun(digits + ")" + rest) == |digits|
  {
    var s := digits + ")" + rest;
    assert forall i :: 0 <= i < |digits| ==> s[i] == digits[i];
    assert s[|digits|] == ')';
  }

  /** The count the multiple-H1 advice shows is the number of H1s the warning reports. */
  lemma MultipleH1Count(c: nat)
    ensures ParenNumber(Render(MultipleH1(c))) == Some(N(c))
    ensures ParseNat(ParenNumber(Render(MultipleH1(c))).value) == c
  {
    NatToStringRoundTrip(c);
    var prefix := "Multiple H1 tags found ";
    assert Render(MultipleH1(c)) == prefix + "(" + N(c) + ")" + "";
    ParenNumberAfter(prefix, N(c), "");
  }

  /** The multiple-H1 warnings, shown as errors between the errors and the other warnings. */
  function MultipleH1Rule(issue: Issue): (r: seq<Recommendation>)
    ensures PrioritiesWithin(r, 2.5, 2.5)
  {
    if issue.severity == Warning && Mentions(issue, "Multiple H1") then
      var count := match ParenNumber(Render(issue.message)) case Some(digits) => digits case None => "multiple";
      Push(2.5, Error, FixMultipleH1(count))
    else []
  }

  // ---------------------------------------------------------------------------
  // Content length, headings and the focus keyword (priorities 3 to 5)
  // ---------------------------------------------------------------------------

  /** The word-count advice on the number the panel shows. */
  function WordCountAdvice(wordCount: nat): (r: seq<Recommendation>)
    ensures PrioritiesWithin(r, 3.0, 3.0)
    ensures r == [] <==> wordCount >= TargetWords
    ensures r != [] && wordCount < MinWords ==> r[0].advice == ExpandContent(MinWords - wordCount)
    ensures r != [] && wordCount >= MinWords ==> r[0].advice == OptimizeContentLength(TargetWords - wordCount)
  {
    if wordCount < MinWords then Push(3.0, Warning, ExpandContent(MinWords - wordCount))
    else if wordCount < TargetWords then Push(3.0, Info, OptimizeContentLength(TargetWords - wordCount))
    else []
  }

  /** The advice on the hierarchy issues. */
  function HierarchyRule(issue: Issue): (r: seq<Recommendation>)
    ensures PrioritiesWithin(r, 4.0, 4.0)
  {
    if Mentions(issue, "Missing H2") then Push(4.0, Warning, AddH2Subheadings)
    else if Mentions(issue, "hierarchy issue") then Push(4.0, Warning, FixHeadingOrder(Render(issue.message)))
    else []
  }

  /** `if (c) recommendations.push(r)`. */
  function PushIf(c: bool, r: Recommendation): (s: seq<Recommendation>)
    ensures PrioritiesWithin(s, r.priority, r.priority)
  {
    if c then [r] else []
  }

  /** `issues.some(i => i.message.includes(needle))`. */
  predicate SomeMentions(issues: seq<Issue>, needle: string) {
    exists i :: 0 <= i < |issues| && Mentions(issues[i], needle)
  }

  /**
   * The density advice: too rare below 0.5% on a text of more than 50 words,
   * too frequent above 3%. With no words the density is unbounded when the
   * keyword occurs and undefined (no advice) when it does not.
   */
  function DensityAdvice(keyword: string, occurrences: nat, wordCount: nat): (r: seq<Recommendation>)
    ensures PrioritiesWithin(r, 5.0, 5.0)
    ensures |r| <= 1
    ensures (r != [] && r[0].advice.IncreaseKeywordUsage?) <==> wordCount > 50 && 200 * occurrences < wordCount
    ensures (r != [] && r[0].advice.ReduceKeywordStuffing?) <==> 100 * occurrences > 3 * wordCount
  {
    if wordCount == 0 then
      if occurrences > 0 then Push(5.0, Warning, ReduceKeywordStuffing(keyword, Unbounded)) else []
    else
      var density := (occurrences as real / wordCount as real) * 100.0;
      DensityBounds(occurrences, wordCount);
      if density < 0.5 && wordCount > 50 then Push(5.0, Warning, IncreaseKeywordUsage(keyword, occurrences, density))
      else if density > 3.0 then Push(5.0, Warning, ReduceKeywordStuffing(keyword, Percent(density)))
      else []
  }

  /** The percentage thresholds in whole numbers. */
  lemma DensityBounds(occurrences: nat, wordCount: nat)
    requires wordCount > 0
    ensures (occurrences as real / wordCount as real) * 100.0 < 0.5 <==> 200 * occurrences < wordCount
    ensures (occurrences as real / wordCount as real) * 100.0 > 3.0 <==> 100 * occurrences > 3 * wordCount
  {
    var o, w := occurrences as real, wordCount as real;
    var d := (o / w) * 100.0;
    PercentTimes(o, w);
    DensityThresholds(d, o, w);
    assert (200 * occurrences) as real == 200.0 * o;
    assert (100 * occurrences) as real == 100.0 * o;
    assert (3 * wordCount) as real == 3.0 * w;
  }

  /** The thresholds for a density `d` with `d × w = 100 × o`. */
  lemma DensityThresholds(d: real, o: real, w: real)
    requires w > 0.0 && d * w == 100.0 * o
    ensures d < 0.5 <==> 200.0 * o < w
    ensures d > 3.0 <==> 100.0 * o > 3.0 * w
  {
    ScaleLess(d, 0.5, w);
    ScaleLess(3.0, d, w);
  }

  /** A percentage times the whole is a hundred times the part. */
  lemma PercentTimes(o: real, w: real)
    requires w > 0.0
    ensures ((o / w) * 100.0) * w == 100.0 * o
  {
    assert (o / w) * w == o;
  }

  /** Multiplying by a positive number keeps a strict order. */
  lemma ScaleLess(a: real, b: real, c: real)
    requires c > 0.0
    ensures a < b <==> a * c < b * c
  {
    if a < b {
      assert (b - a) * c > 0.0;
    } else {
      assert (a - b) * c >= 0.0;
    }
  }

  /**
   * The keyword checks, made when a keyword is typed and the cache holds a
   * text: density, then the title, H1, slug and opening advice read off the
   * issue messages.
   */
  function KeywordAdvice(issues: seq<Issue>, keywordInput: string, wordCount: nat, cache: Option<CacheEntry>): (r: seq<Recommendation>)
    ensures PrioritiesWithin(r, 5.0, 5.0)
  {
    if Trim(keywordInput) != [] && cache.Some? && cache.value.text != [] then
      var keyword := FocusKeyword(keywordInput);
      TrimOfLower(keywordInput);
      var density := DensityAdvice(keyword, CountOccurrences(Lower(cache.value.text), keyword), wordCount);
      var placement := PlacementAdvice(issues, keyword);
      PrioritiesConcat(density, placement, 5.0, 5.0);
      density + placement
    else []
  }

  /** The title, H1, slug and opening advice, read off the issue messages. */
  function PlacementAdvice(issues: seq<Issue>, keyword: string): (r: seq<Recommendation>)
    ensures PrioritiesWithin(r, 5.0, 5.0)
  {
    var title := PushIf(!SomeMentions(issues, "keyword found in title"), Recommendation(5.0, Warning, AddKeywordToTitle(keyword)));
    var h1 := PushIf(SomeMentions(issues, "keyword not found in H1"), Recommendation(5.0, Warning, AddKeywordToH1(keyword)));
    var slug := PushIf(SomeMentions(issues, "keyword not found in URL slug"), Recommendation(5.0, Info, OptimizeUrlSlug(keyword)));
    var opening := PushIf(SomeMentions(issues, "keyword not found in opening content"), Recommendation(5.0, Warning, AddKeywordEarly(keyword)));
    Within4(title, h1, slug, opening, 5.0, 5.0);
    title + h1 + slug + opening
  }

  // ---------------------------------------------------------------------------
  // Links, content quality, images and technical checks (priorities 3 to 10)
  // ---------------------------------------------------------------------------

  /** The link advice: internal links (4.5), external links (4.5), anchor texts (6). */
  function LinkRule(issue: Issue): (r: seq<Recommendation>)
    ensures PrioritiesWithin(r, 4.5, 6.0)
  {
    var internal :=
      if Mentions(issue, "No internal links") then Push(4.5, Warning, AddInternalLinks)
      else if Mentions(issue, "internal link") && Mentions(issue, "consider adding more") then
        Push(4.5, Info, AddMoreInternalLinks(Render(issue.message)))
      else [];
    var external := if Mentions(issue, "No external links") then Push(4.5, Info, LinkToSources) else [];
    var anchors := if Mentions(issue, "generic anchor text") then Push(6.0, Warning, FixGenericLinkText) else [];
    PrioritiesConcat(internal, external, 4.5, 6.0);
    PrioritiesConcat(internal + external, anchors, 4.5, 6.0);
    internal + external + anchors
  }

  /** The content-quality advice, the first matching rule only. */
  function QualityRule(issue: Issue): (r: seq<Recommendation>)
    ensures PrioritiesWithin(r, 7.0, 7.0)
  {
    var message := Render(issue.message);
    if Mentions(issue, "sentences are too long") then Push(7.0, Warning, ShortenLongSentences)
    else if Mentions(issue, "paragraph") && Mentions(issue, "too long") then
      Push(7.0, Warning, BreakUpParagraphs(message + " - split into smaller paragraphs"))
    else if Mentions(issue, "passive voice") then Push(7.0, Info, UseActiveVoice)
    else if Mentions(issue, "transition word") then Push(7.0, Info, AddTransitionWords)
    else if Mentions(issue, "consecutive sentences start") then
      Push(7.0, Warning, VarySentenceStarts(message + " - rewrite for variety"))
    else []
  }

  /** The image advice, the first matching rule only; missing alt text comes early, at 3. */
  function ImageRule(issue: Issue): (r: seq<Recommendation>)
    ensures PrioritiesWithin(r, 3.0, 8.0)
  {
    var message := Render(issue.message);
    if Mentions(issue, "images missing alt text") then
      Push(3.0, Error, AddMissingAlt(message + " - critical for accessibility and SEO"))
    else if Mentions(issue, "generic alt text") then Push(8.0, Warning, ImproveAltDescriptions)
    else if Mentions(issue, "alt text that's too short") then Push(8.0, Warning, ExpandShortAlt)
    else if Mentions(issue, "alt text that's too long") then Push(8.0, Info, ShortenLongAlt)
    else if Mentions(issue, "non-descriptive filenames") then Push(8.0, Info, UseSeoFilenames)
    else if Mentions(issue, "Consider adding") && Mentions(issue, "more image") then Push(8.0, Info, AddMoreImages(message))
    else if Mentions(issue, "avoid over-optimization") then Push(8.0, Warning, ReduceKeywordInAlt)
    else []
  }

  /** The technical advice, the first matching rule only. */
  function TechnicalRule(issue: Issue): (r: seq<Recommendation>)
    ensures PrioritiesWithin(r, 9.0, 9.0)
  {
    if Mentions(issue, "URL slug is too long") then Push(9.0, Warning, ShortenUrlSlug)
    else if Mentions(issue, "stop words") then Push(9.0, Info, CleanUpUrl)
    else if Mentions(issue, "special characters or uppercase") then Push(9.0, Warning, FixUrlFormat)
    else if Mentions(issue, "duplicate hyphens") then Push(9.0, Warning, FixDoubleHyphens)
    else if Mentions(issue, "draft mode") then Push(9.0, Info, PageInDraft)
    else if Mentions(issue, "Open Graph tags") then Push(9.0, Info, AddSocialTags)
    else if Mentions(issue, "Article schema") then Push(9.0, Info, AddArticleSchema)
    else if Mentions(issue, "FAQ schema") then Push(9.0, Info, AddFaqSchema)
    else []
  }

  /** The readability advice on warnings and notes that mention readability but no sentence or paragraph. */
  function ReadabilityRule(issue: Issue): (r: seq<Recommendation>)
    ensures PrioritiesWithin(r, 10.0, 10.0)
  {
    if (issue.severity == Warning || issue.severity == Info)
       && Mentions(issue, "readability") && !Mentions(issue, "sentence") && !Mentions(issue, "paragraph")
    then Push(10.0, Info, ImproveReadability(Render(issue.message)))
    else []
  }

  // ---------------------------------------------------------------------------
  // The whole list
  // ---------------------------------------------------------------------------

  /** The focus-keyword advice, first of all when no keyword is typed. */
  function FocusKeywordAdvice(keywordInput: string): seq<Recommendation> {
    if Trim(keywordInput) == [] then Push(1.0, Error, AddFocusKeyword) else []
  }

  /** The pushes up to the heading hierarchy, in order. */
  function EarlyAdvice(issues: seq<Issue>, headings: seq<HeadingInfo>, wordCount: nat): seq<Recommendation> {
    Collect(issues, ErrorRule) + Collect(issues, MultipleH1Rule) + WordCountAdvice(wordCount)
    + Collect(HierarchyIssues(headings), HierarchyRule)
  }

  /** The pushes from the keyword checks on, in order. */
  function LateAdvice(issues: seq<Issue>, keywordInput: string, wordCount: nat, cache: Option<CacheEntry>): seq<Recommendation> {
    KeywordAdvice(issues, keywordInput, wordCount, cache)
    + Collect(issues, LinkRule) + Collect(issues, QualityRule) + Collect(issues, ImageRule)
    + Collect(issues, TechnicalRule) + Collect(issues, ReadabilityRule)
  }

  /** Everything pushed, before the sort. */
  function Pushed(issues: seq<Issue>, headings: seq<HeadingInfo>, keywordInput: string, wordCount: nat,
                  cache: Option<CacheEntry>): seq<Recommendation> {
    FocusKeywordAdvice(keywordInput)
    + (EarlyAdvice(issues, headings, wordCount) + LateAdvice(issues, keywordInput, wordCount, cache))
  }

  /** The list as shown: the pushes sorted by priority, equal priorities in push order. */
  function Recommendations(issues: seq<Issue>, headings: seq<HeadingInfo>, keywordInput: string, wordCount: nat,
                           cache: Option<CacheEntry>): seq<Recommendation> {
    SortBy(Pushed(issues, headings, keywordInput, wordCount, cache), Priority)
  }

  /**
   * `displayRecommendations(issues, headings)`, with the keyword box, the
   * word count the panel shows and the content cache as parameters.
   */
  method DisplayRecommendations(issues: seq<Issue>, headings: seq<HeadingInfo>, keywordInput: string, wordCount: nat,
                                cache: Option<CacheEntry>) returns (recommendations: seq<Recommendation>)
    ensures recommendations == Recommendations(issues, headings, keywordInput, wordCount, cache)
  {
    recommendations := [];
    if Trim(keywordInput) == [] {
      recommendations := recommendations + [Recommendation(1.0, Error, AddFocusKeyword)];
    }
    var early := PushEarly(issues, headings, wordCount);
    var late := PushLate(issues, keywordInput, wordCount, cache);
    var rest := early + late;
    recommendations := recommendations + rest;
    recommendations := SortBy(recommendations, Priority);
  }

  /** The pushes of the error, multiple-H1, word-count and hierarchy rules. */
  method PushEarly(issues: seq<Issue>, headings: seq<HeadingInfo>, wordCount: nat) returns (recs: seq<Recommendation>)
    ensures recs == EarlyAdvice(issues, headings, wordCount)
  {
    recs := ForEachIssue(issues, ErrorRule);
    var multipleH1 := ForEachIssue(issues, MultipleH1Rule);
    recs := recs + multipleH1;
    if wordCount < MinWords {
      recs := recs + [Recommendation(3.0, Warning, ExpandContent(MinWords - wordCount))];
    } else if wordCount < TargetWords {
      recs := recs + [Recommendation(3.0, Info, OptimizeContentLength(TargetWords - wordCount))];
    }
    var hierarchyIssues := AnalyzeHeadingHierarchy(headings);
    var hierarchy := ForEachIssue(hierarchyIssues, HierarchyRule);
    recs := recs + hierarchy;
  }

  /** The pushes of the keyword, link, quality, image, technical and readability rules. */
  method PushLate(issues: seq<Issue>, keywordInput: string, wordCount: nat, cache: Option<CacheEntry>)
    returns (recs: seq<Recommendation>)
    ensures recs == LateAdvice(issues, keywordInput, wordCount, cache)
  {
    recs := KeywordAdvice(issues, keywordInput, wordCount, cache);
    var links := ForEachIssue(issues, LinkRule);
    recs := recs + links;
    var quality := ForEachIssue(issues, QualityRule);
    recs := recs + quality;
    var images := ForEachIssue(issues, ImageRule);
    recs := recs + images;
    var technical := ForEachIssue(issues, TechnicalRule);
    recs := recs + technical;
    var readability := ForEachIssue(issues, ReadabilityRule);
    recs := recs + readability;
  }

  // ---------------------------------------------------------------------------
  // Properties of the list
  // ---------------------------------------------------------------------------

  lemma Within4(a: seq<Recommendation>, b: seq<Recommendation>, c: seq<Recommendation>, d: seq<Recommendation>,
                lo: real, hi: real)
    requires PrioritiesWithin(a, lo, hi) && PrioritiesWithin(b, lo, hi)
    requires PrioritiesWithin(c, lo, hi) && PrioritiesWithin(d, lo, hi)
    ensures PrioritiesWithin(a + b + c + d, lo, hi)
  {
    PrioritiesConcat(a, b, lo, hi);
    PrioritiesConcat(a + b, c, lo, hi);
    PrioritiesConcat(a + b + c, d, lo, hi);
  }

  /** The early pushes have priorities from 2 to 10. */
  lemma EarlyWithin(issues: seq<Issue>, headings: seq<HeadingInfo>, wordCount: nat)
    ensures PrioritiesWithin(EarlyAdvice(issues, headings, wordCount), 2.0, 10.0)
  {
    CollectWithin(issues, ErrorRule, 2.0, 10.0);
    CollectWithin(issues, MultipleH1Rule, 2.0, 10.0);
    CollectWithin(HierarchyIssues(headings), HierarchyRule, 2.0, 10.0);
    Within4(Collect(issues, ErrorRule), Collect(issues, MultipleH1Rule), WordCountAdvice(wordCount),
            Collect(HierarchyIssues(headings), HierarchyRule), 2.0, 10.0);
  }

  lemma Within6(a: seq<Recommendation>, b: seq<Recommendation>, c: seq<Recommendation>, d: seq<Recommendation>,
                e: seq<Recommendation>, f: seq<Recommendation>, lo: real, hi: real)
    requires PrioritiesWithin(a, lo, hi) && PrioritiesWithin(b, lo, hi) && PrioritiesWithin(c, lo, hi)
    requires PrioritiesWithin(d, lo, hi) && PrioritiesWithin(e, lo, hi) && PrioritiesWithin(f, lo, hi)
    ensures PrioritiesWithin(a + b + c + d + e + f, lo, hi)
  {
    Within4(a, b, c, d, lo, hi);
    PrioritiesConcat(a + b + c + d, e, lo, hi);
    PrioritiesConcat(a + b + c + d + e, f, lo, hi);
  }

  /** The late pushes have priorities from 2 to 10. */
  lemma LateWithin(issues: seq<Issue>, keywordInput: string, wordCount: nat, cache: Option<CacheEntry>)
    ensures PrioritiesWithin(LateAdvice(issues, keywordInput, wordCount, cache), 2.0, 10.0)
  {
    CollectWithin(issues, LinkRule, 2.0, 10.0);
    CollectWithin(issues, QualityRule, 2.0, 10.0);
    CollectWithin(issues, ImageRule, 2.0, 10.0);
    CollectWithin(issues, TechnicalRule, 2.0, 10.0);
    CollectWithin(issues, ReadabilityRule, 2.0, 10.0);
    Within6(KeywordAdvice(issues, keywordInput, wordCount, cache), Collect(issues, LinkRule),
            Collect(issues, QualityRule), Collect(issues, ImageRule), Collect(issues, TechnicalRule),
            Collect(issues, ReadabilityRule), 2.0, 10.0);
  }

  /** Everything but the focus-keyword advice has a priority from 2 to 10. */
  lemma RestWithin(issues: seq<Issue>, headings: seq<HeadingInfo>, keywordInput: string, wordCount: nat,
                   cache: Option<CacheEntry>)
    ensures PrioritiesWithin(EarlyAdvice(issues, headings, wordCount) + LateAdvice(issues, keywordInput, wordCount, cache), 2.0, 10.0)
  {
    EarlyWithin(issues, headings, wordCount);
    LateWithin(issues, keywordInput, wordCount, cache);
    PrioritiesConcat(EarlyAdvice(issues, headings, wordCount), LateAdvice(issues, keywordInput, wordCount, cache), 2.0, 10.0);
  }

  /** Sorting keeps every element and the bounds on the priorities. */
  lemma SortKeeps(s: seq<Recommendation>, lo: real, hi: real)
    requires PrioritiesWithin(s, lo, hi)
    ensures PrioritiesWithin(SortBy(s, Priority), lo, hi) && SortedBy(SortBy(s, Priority), Priority)
    ensures multiset(SortBy(s, Priority)) == multiset(s)
  {
    SortByProperties(s, Priority);
    var r := SortBy(s, Priority);
    forall j | 0 <= j < |r| ensures lo <= r[j].priority <= hi {
      assert r[j] in multiset(s);
    }
  }

  /** A pushed recommendation is shown. */
  lemma SortHas(s: seq<Recommendation>, x: Recommendation)
    requires x in s
    ensures x in SortBy(s, Priority)
  {
    SortByProperties(s, Priority);
    assert x in multiset(SortBy(s, Priority));
  }

  /**
   * The recommendations are the pushed ones, each with a priority from 1 to
   * 10, in order of priority.
   */
  lemma RecommendationsOrdered(issues: seq<Issue>, headings: seq<HeadingInfo>, keywordInput: string, wordCount: nat,
                               cache: Option<CacheEntry>)
    ensures var r := Recommendations(issues, headings, keywordInput, wordCount, cache);
            PrioritiesWithin(r, 1.0, 10.0) && SortedBy(r, Priority)
            && multiset(r) == multiset(Pushed(issues, headings, keywordInput, wordCount, cache))
  {
    var rest := EarlyAdvice(issues, headings, wordCount) + LateAdvice(issues, keywordInput, wordCount, cache);
    RestWithin(issues, headings, keywordInput, wordCount, cache);
    PrioritiesConcat(FocusKeywordAdvice(keywordInput), rest, 1.0, 10.0);
    SortKeeps(FocusKeywordAdvice(keywordInput) + rest, 1.0, 10.0);
  }

  /** A lone least priority sorts to the front. */
  lemma LeastFirst(first: Recommendation, rest: seq<Recommendation>)
    requires first.priority == 1.0 && PrioritiesWithin(rest, 2.0, 10.0)
    ensures var r := SortBy([first] + rest, Priority); |r| >= 1 && r[0] == first
  {
    var s := [first] + rest;
    SortByProperties(s, Priority);
    var r := SortBy(s, Priority);
    assert first in multiset(r);
    var k :| 0 <= k < |r| && r[k] == first;
    assert Priority(r[0]) <= Priority(r[k]);
    assert r[0] in multiset(s);
  }

  /**
   * Without a focus keyword, the advice to add one heads the list: it is the
   * only recommendation with priority 1.
   */
  lemma MissingKeywordFirst(issues: seq<Issue>, headings: seq<HeadingInfo>, keywordInput: string, wordCount: nat,
                            cache: Option<CacheEntry>)
    requires Trim(keywordInput) == []
    ensures var r := Recommendations(issues, headings, keywordInput, wordCount, cache);
            |r| >= 1 && r[0] == Recommendation(1.0, Error, AddFocusKeyword)
  {
    RestWithin(issues, headings, keywordInput, wordCount, cache);
    LeastFirst(Recommendation(1.0, Error, AddFocusKeyword),
               EarlyAdvice(issues, headings, wordCount) + LateAdvice(issues, keywordInput, wordCount, cache));
  }

  /** The error rule's advice for a page without an H1. */
  lemma NoH1Rule()
    ensures ErrorRule(Raise(NoH1)) == Push(2.0, Error, AddH1)
  {
    var text := "No H1 tag found on page";
    assert Render(NoH1) == text;
    assert text[0..5] == "No H1";
    ContainsAt(text, "No H1", 0);
  }

  /** A recommendation of the early pushes is shown. */
  lemma EarlyShown(issues: seq<Issue>, headings: seq<HeadingInfo>, keywordInput: string, wordCount: nat,
                   cache: Option<CacheEntry>, x: Recommendation)
    requires x in EarlyAdvice(issues, headings, wordCount)
    ensures x in Recommendations(issues, headings, keywordInput, wordCount, cache)
  {
    SortHas(Pushed(issues, headings, keywordInput, wordCount, cache), x);
  }

  /** A recommendation of the late pushes is shown. */
  lemma LateShown(issues: seq<Issue>, headings: seq<HeadingInfo>, keywordInput: string, wordCount: nat,
                  cache: Option<CacheEntry>, x: Recommendation)
    requires x in LateAdvice(issues, keywordInput, wordCount, cache)
    ensures x in Recommendations(issues, headings, keywordInput, wordCount, cache)
  {
    SortHas(Pushed(issues, headings, keywordInput, wordCount, cache), x);
  }

  /** A page with no H1 is told to add one, at priority 2. */
  lemma NoH1Advised(issues: seq<Issue>, headings: seq<HeadingInfo>, keywordInput: string, wordCount: nat,
                    cache: Option<CacheEntry>, i: nat)
    requires i < |issues| && issues[i] == Raise(NoH1)
    ensures Recommendation(2.0, Error, AddH1) in Recommendations(issues, headings, keywordInput, wordCount, cache)
  {
    var rec := Recommendation(2.0, Error, AddH1);
    NoH1Rule();
    CollectHas(issues, ErrorRule, i, rec);
    EarlyShown(issues, headings, keywordInput, wordCount, cache, rec);
  }

  /**
   * With a keyword typed, no issue, enough words, no hierarchy issue and no
   * cached text to check the keyword against, there is nothing to
   * recommend and the panel shows its all-good message.
   */
  lemma NothingToRecommend(headings: seq<HeadingInfo>, keywordInput: string, wordCount: nat, cache: Option<CacheEntry>)
    requires Trim(keywordInput) != [] && wordCount >= TargetWords
    requires HierarchyIssues(headings) == []
    requires cache.None? || cache.value.text == []
    ensures Recommendations([], headings, keywordInput, wordCount, cache) == []
  {
    assert EarlyAdvice([], headings, wordCount) == [];
    assert LateAdvice([], keywordInput, wordCount, cache) == [];
  }

  /** The title advice the keyword checks give when no issue reports the keyword in the title. */
  lemma TitleAdvice(issues: seq<Issue>, keywordInput: string, wordCount: nat, cache: Option<CacheEntry>)
    requires Trim(keywordInput) != [] && cache.Some? && cache.value.text != []
    requires !SomeMentions(issues, "keyword found in title")
    ensures Recommendation(5.0, Warning, AddKeywordToTitle(FocusKeyword(keywordInput)))
            in KeywordAdvice(issues, keywordInput, wordCount, cache)
  {
    var keyword := FocusKeyword(keywordInput);
    assert PlacementAdvice(issues, keyword)[0] == Recommendation(5.0, Warning, AddKeywordToTitle(keyword));
  }

  /**
   * With a keyword typed and a cached text, a list of issues none of which
   * reports the keyword found in the title always draws the advice to put
   * the keyword in the title.
   */
  lemma TitleKeywordAdvised(issues: seq<Issue>, headings: seq<HeadingInfo>, keywordInput: string, wordCount: nat,
                            cache: Option<CacheEntry>)
    requires Trim(keywordInput) != [] && cache.Some? && cache.value.text != []
    requires !SomeMentions(issues, "keyword found in title")
    ensures Recommendation(5.0, Warning, AddKeywordToTitle(FocusKeyword(keywordInput)))
            in Recommendations(issues, headings, keywordInput, wordCount, cache)
  {
    var rec := Recommendation(5.0, Warning, AddKeywordToTitle(FocusKeyword(keywordInput)));
    TitleAdvice(issues, keywordInput, wordCount, cache);
    assert rec in LateAdvice(issues, keywordInput, wordCount, cache);
    LateShown(issues, headings, keywordInput, wordCount, cache, rec);
  }
}
