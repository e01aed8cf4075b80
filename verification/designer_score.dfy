/**
 * `calculateSEOScore`: the Designer extension's 0 to 100 score, a weighted
 * sum of five components read off the issue list and the cached content
 * metrics; with no focus keyword typed the score is "not available" (-1).
 */
module DesignerScore {
  import opened Wrappers
  import opened Seqs
  import opened Text
  import opened JsMath
  import opened DesignerIssues
  import opened DesignerTree
  import opened DesignerText
  import opened DesignerImages
  import opened ContentCache
  import opened DesignerLinks
  import opened DesignerKeyword
  import opened DesignerTechnical
  import opened DesignerPage

  const MinWords := 300
  const TargetWords := 600
  const OptimalWords := 1500

  /** The word count and readability the score reads from the cache, when there is one. */
  datatype ContentAnalysis = ContentAnalysis(wordCount: nat, readabilityScore: int)

  datatype Breakdown = Breakdown(meta: int, headings: int, images: int, content: int)

  datatype SeoScore = SeoScore(total: int, breakdown: Breakdown)

  /** Some issue on the field is a success. */
  predicate FieldSucceeds(issues: seq<Issue>, f: Field) {
    exists i :: 0 <= i < |issues| && issues[i].field == Some(f) && issues[i].severity == Success
  }

  /** 50 for a successful title check and 50 for a successful description check. */
  function MetaComponent(issues: seq<Issue>): (m: int)
    ensures m == 0 || m == 50 || m == 100
  {
    (if FieldSucceeds(issues, TitleField) then 50 else 0) + (if FieldSucceeds(issues, DescriptionField) then 50 else 0)
  }

  /** 100 when a success mentions the word, else 50 when a warning does, else 0. */
  function MentionComponent(issues: seq<Issue>, needle: string): (m: int)
    ensures m == 0 || m == 50 || m == 100
    ensures m == 100 <==> AnyMentions(issues, Success, needle)
  {
    if AnyMentions(issues, Success, needle) then 100
    else if AnyMentions(issues, Warning, needle) then 50
    else 0
  }

  /** The word-count score: steps at 300, 600 and 1500 words, proportional below 300. */
  function WordScore(wordCount: nat): (s: real)
    ensures 0.0 <= s <= 100.0
    ensures wordCount < MinWords ==> s < 60.0
    ensures wordCount >= MinWords ==> s >= 60.0
  {
    if wordCount >= OptimalWords then 100.0
    else if wordCount >= TargetWords then 85.0
    else if wordCount >= MinWords then 60.0
    else (wordCount as real / MinWords as real) * 60.0
  }

  /** The readability score: best for 60 to 70, then 50 to 60 and 70 to 80, then 30 to 50, else 50. */
  function ReadScore(readability: int): (s: real)
    ensures 50.0 <= s <= 100.0
    ensures s == 100.0 <==> 60 <= readability <= 70
  {
    if 60 <= readability <= 70 then 100.0
    else if 50 <= readability < 60 then 85.0
    else if 30 <= readability < 50 then 70.0
    else if 70 <= readability <= 80 then 85.0
    else 50.0
  }

  /** The mean of the two content scores, or 0 without content metrics. */
  function ContentComponent(content: Option<ContentAnalysis>): (c: real)
    ensures content.None? ==> c == 0.0
    ensures content.Some? ==> 25.0 <= c <= 100.0
  {
    if content.None? then 0.0
    else (WordScore(content.value.wordCount) + ReadScore(content.value.readabilityScore)) / 2.0
  }

  /** 60 when a success says the keyword is in the title, plus 40 for the description. */
  function KeywordComponent(issues: seq<Issue>): (k: int)
    ensures k == 0 || k == 40 || k == 60 || k == 100
  {
    (if AnyMentions(issues, Success, "keyword found in title") then 60 else 0)
    + (if AnyMentions(issues, Success, "keyword found in description") then 40 else 0)
  }

  /** The weights 0.20, 0.15, 0.10, 0.35 and 0.20, which add up to 1. */
  function WeightedTotal(meta: int, headings: int, images: int, content: real, keyword: int): real {
    meta as real * 0.20 + headings as real * 0.15 + images as real * 0.10 + content * 0.35 + keyword as real * 0.20
  }

  /** Weights adding up to 1 keep the total between the least and the greatest component. */
  lemma WeightedTotalWithin(meta: int, headings: int, images: int, content: real, keyword: int)
    requires 0 <= meta <= 100 && 0 <= headings <= 100 && 0 <= images <= 100 && 0.0 <= content <= 100.0
    requires 0 <= keyword <= 100
    ensures 0.0 <= WeightedTotal(meta, headings, images, content, keyword) <= 100.0
  {
  }

  /**
   * `calculateSEOScore(issues, contentAnalysis)`, with the keyword box's raw
   * text: -1 and an all-zero breakdown when it is blank, else a rounded total
   * between 0 and 100 and components from the fixed sets.
   */
  function CalculateSEOScore(issues: seq<Issue>, keywordInput: string, content: Option<ContentAnalysis>): (s: SeoScore)
    ensures Trim(keywordInput) == [] <==> s.total == -1
    ensures Trim(keywordInput) == [] ==> s.breakdown == Breakdown(0, 0, 0, 0)
    ensures Trim(keywordInput) != [] ==>
              0 <= s.total <= 100
              && s.breakdown.meta == MetaComponent(issues)
              && s.breakdown.headings == MentionComponent(issues, "H1")
              && s.breakdown.images == MentionComponent(issues, "image")
              && (content.None? ==> s.breakdown.content == 0)
              && (content.Some? ==> 25 <= s.breakdown.content <= 100)
  {
    if Trim(keywordInput) == [] then SeoScore(-1, Breakdown(0, 0, 0, 0))
    else
      var meta := MetaComponent(issues);
      var headings := MentionComponent(issues, "H1");
      var images := MentionComponent(issues, "image");
      var contentScore := ContentComponent(content);
      var keyword := KeywordComponent(issues);
      WeightedTotalWithin(meta, headings, images, contentScore, keyword);
      SeoScore(Round(WeightedTotal(meta, headings, images, contentScore, keyword)),
               Breakdown(meta, headings, images, Round(contentScore)))
  }

  // ---------------------------------------------------------------------------
  // The components on a page's own issues
  // ---------------------------------------------------------------------------

  /**
   * A success that mentions "H1" decides the heading component, whatever
   * warnings there are: the keyword found in an H1 scores 100 even on a page
   * with several H1s.
   */
  lemma KeywordInH1DecidesHeadings(issues: seq<Issue>)
    requires exists i :: 0 <= i < |issues| && issues[i] == Raise(KeywordInH1)
    ensures MentionComponent(issues, "H1") == 100
  {
    var i :| 0 <= i < |issues| && issues[i] == Raise(KeywordInH1);
    var text := Render(KeywordInH1);
    assert text[23..25] == "H1";
    ContainsAt(text, "H1", 23);
  }

  /** The success that every image has alt text gives the image component 100. */
  lemma AllAltDecidesImages(issues: seq<Issue>, n: nat)
    requires exists i :: 0 <= i < |issues| && issues[i] == Raise(AllImagesHaveAlt(n))
    ensures MentionComponent(issues, "image") == 100
  {
    var i :| 0 <= i < |issues| && issues[i] == Raise(AllImagesHaveAlt(n));
    var tail := " images have alt text";
    assert tail[1..6] == "image";
    ContainsAt(tail, "image", 1);
    ContainsInConcat("All " + N(n), tail, "", "image");
    assert ("All " + N(n)) + tail + "" == Render(AllImagesHaveAlt(n));
  }

  /** The success that the keyword is in the title is worth 60 keyword points. */
  lemma KeywordInTitleScores(issues: seq<Issue>)
    requires exists i :: 0 <= i < |issues| && issues[i] == Raise(KeywordInTitle)
    ensures KeywordComponent(issues) >= 60
  {
    var i :| 0 <= i < |issues| && issues[i] == Raise(KeywordInTitle);
    TitleFoundMessage();
  }

  /** The message of the keyword found in the title is the one the score looks for. */
  lemma TitleFoundMessage()
    ensures Contains(Render(KeywordInTitle), "keyword found in title")
  {
    var text := "Focus keyword found in title";
    assert Render(KeywordInTitle) == text;
    assert text[6..] == "keyword found in title";
    ContainsAt(text, "keyword found in title", 6);
  }

  /** No issue of the list is attached to a field. */
  predicate Unfielded(issues: seq<Issue>) {
    Filter(issues, HasField) == []
  }

  predicate HasField(issue: Issue) { issue.field.Some? }

  lemma UnfieldedConcat(a: seq<Issue>, b: seq<Issue>)
    requires Unfielded(a) && Unfielded(b)
    ensures Unfielded(a + b)
  {
    FilterConcat(a, b, HasField);
  }

  lemma Unfielded3(a: seq<Issue>, b: seq<Issue>, c: seq<Issue>)
    requires Unfielded(a) && Unfielded(b) && Unfielded(c)
    ensures Unfielded(a + b + c)
  {
    UnfieldedConcat(a, b);
    UnfieldedConcat(a + b, c);
  }

  lemma Unfielded5(a: seq<Issue>, b: seq<Issue>, c: seq<Issue>, d: seq<Issue>, e: seq<Issue>)
    requires Unfielded(a) && Unfielded(b) && Unfielded(c) && Unfielded(d) && Unfielded(e)
    ensures Unfielded(a + b + c + d + e)
  {
    Unfielded3(a, b, c);
    Unfielded3(a + b + c, d, e);
  }

  lemma OneUnfielded(m: Message)
    requires FieldOf(m) == None
    ensures Unfielded([Raise(m)])
  {
  }

  lemma WhenUnfielded(c: bool, m: Message)
    requires FieldOf(m) == None
    ensures Unfielded(When(c, m))
  {
  }

  lemma AltSummaryUnfielded(n: nat, c: ImageCounts)
    ensures Unfielded([AltSummary(n, c)])
  {
  }

  lemma CountIssuesUnfielded(n: nat, c: ImageCounts)
    ensures Unfielded(CountIssues(n, c))
  {
    AltSummaryUnfielded(n, c);
    WhenUnfielded(c.genericAltTexts > 0, GenericAlt(c.genericAltTexts));
    WhenUnfielded(c.tooShortAlt > 0, AltTooShort(c.tooShortAlt));
    WhenUnfielded(c.tooLongAlt > 0, AltTooLong(c.tooLongAlt));
    WhenUnfielded(c.poorFilenames > 0, PoorFilenames(c.poorFilenames));
    Unfielded5([AltSummary(n, c)], When(c.genericAltTexts > 0, GenericAlt(c.genericAltTexts)),
               When(c.tooShortAlt > 0, AltTooShort(c.tooShortAlt)), When(c.tooLongAlt > 0, AltTooLong(c.tooLongAlt)),
               When(c.poorFilenames > 0, PoorFilenames(c.poorFilenames)));
  }

  lemma KeywordAltUnfielded(n: nat, c: ImageCounts, keyword: string)
    ensures Unfielded(KeywordAltIssues(n, c, keyword))
  {
  }

  lemma ImageCountUnfielded(n: nat, cachedWordCount: nat)
    ensures Unfielded(ImageCountIssues(n, cachedWordCount))
  {
  }

  lemma AltTextUnfielded(images: seq<ImageAnalysis>, keyword: string, cachedWordCount: nat)
    ensures Unfielded(AltTextIssues(images, keyword, cachedWordCount))
  {
    if images == [] {
      OneUnfielded(NoImages);
    } else {
      var n := |images|;
      var c := CountsOf(images, keyword);
      CountIssuesUnfielded(n, c);
      KeywordAltUnfielded(n, c, keyword);
      ImageCountUnfielded(n, cachedWordCount);
      Unfielded3(CountIssues(n, c), KeywordAltIssues(n, c, keyword), ImageCountIssues(n, cachedWordCount));
    }
  }

  lemma H1Unfielded(h1Count: nat)
    ensures Unfielded([H1Issue(h1Count)])
  {
  }

  lemma TreeUnfielded(root: Element, keyword: string, cache: Option<CacheEntry>)
    ensures Unfielded(TreeIssues(root, keyword, cache))
  {
    H1Unfielded(LevelCount(Headings(root), 1));
    AltTextUnfielded(Images(root), keyword, CachedWordCount(cache));
    UnfieldedConcat([H1Issue(LevelCount(Headings(root), 1))], AltTextIssues(Images(root), keyword, CachedWordCount(cache)));
  }

  lemma ExternalUnfielded(external: seq<Link>)
    ensures Unfielded(ExternalIssues(external))
  {
    if external != [] {
      var nofollowCount := |Filter(external, IsNofollow)|;
      UnfieldedConcat([Raise(ExternalLinks(|external|))], When(nofollowCount > 0, NofollowLinks(nofollowCount)));
    }
  }

  lemma InternalUnfielded(count: nat)
    ensures Unfielded([Raise(InternalSummary(count))])
  {
  }

  lemma LinksUnfielded(links: seq<Link>)
    ensures Unfielded(LinkIssues(links))
  {
    if links != [] {
      var generic := |Filter(links, IsGenericAnchor)|;
      var external := Filter(links, IsExternal);
      InternalUnfielded(|Filter(links, IsInternal)|);
      ExternalUnfielded(external);
      WhenUnfielded(generic > 0, GenericAnchors(generic));
      Unfielded3([Raise(InternalSummary(|Filter(links, IsInternal)|))], ExternalIssues(external),
                 When(generic > 0, GenericAnchors(generic)));
    }
  }

  lemma SlugKeywordUnfielded(slug: string, lowerKeyword: string)
    ensures Unfielded(SlugKeywordIssues(slug, lowerKeyword))
  {
  }

  lemma HeadingKeywordUnfielded(headings: seq<HeadingInfo>, lowerKeyword: string)
    ensures Unfielded(H1KeywordIssues(headings, lowerKeyword) + SubheadingKeywordIssues(headings, lowerKeyword))
  {
    assert Unfielded(H1KeywordIssues(headings, lowerKeyword));
    assert Unfielded(SubheadingKeywordIssues(headings, lowerKeyword));
    UnfieldedConcat(H1KeywordIssues(headings, lowerKeyword), SubheadingKeywordIssues(headings, lowerKeyword));
  }

  lemma OpeningKeywordUnfielded(text: string, lowerKeyword: string)
    ensures Unfielded(OpeningKeywordIssues(text, lowerKeyword))
  {
    if text != [] {
      var found := Contains(Lower(OpeningPart(text)), lowerKeyword);
      ChoiceUnfielded(found, KeywordInOpening, KeywordNotInOpening);
    }
  }

  lemma ChoiceUnfielded(b: bool, found: Message, notFound: Message)
    requires FieldOf(found) == None && FieldOf(notFound) == None
    ensures Unfielded([Raise(if b then found else notFound)])
  {
  }

  lemma PlacementUnfielded(keyword: string, slug: string, hasRoot: bool, cache: Option<CacheEntry>)
    ensures Unfielded(KeywordPlacementIssues(keyword, slug, hasRoot, cache))
  {
    var k := Lower(keyword);
    var headings := if hasRoot && cache.Some? then
      H1KeywordIssues(cache.value.headings, k) + SubheadingKeywordIssues(cache.value.headings, k) else [];
    var opening := if cache.Some? then OpeningKeywordIssues(cache.value.text, k) else [];
    SlugKeywordUnfielded(slug, k);
    if hasRoot && cache.Some? {
      HeadingKeywordUnfielded(cache.value.headings, k);
    }
    if cache.Some? {
      OpeningKeywordUnfielded(cache.value.text, k);
    }
    Unfielded3(SlugKeywordIssues(slug, k), headings, opening);
  }

  lemma SlugUnfielded(slug: string)
    ensures Unfielded(SlugIssues(slug))
  {
    if slug != [] {
      var stopWords := StopWordCount(slug);
      var clean := IsCleanSlug(slug);
      var doubled := Contains(slug, "--");
      WhenUnfielded(|slug| > SlugMaxLength, SlugTooLong(|slug|));
      WhenUnfielded(stopWords > 2, SlugStopWords(stopWords));
      WhenUnfielded(!clean, SlugSpecialCharacters);
      WhenUnfielded(doubled, SlugDuplicateHyphens);
      Unfielded3(When(|slug| > SlugMaxLength, SlugTooLong(|slug|)), When(stopWords > 2, SlugStopWords(stopWords)),
                 When(!clean, SlugSpecialCharacters));
      UnfieldedConcat(When(|slug| > SlugMaxLength, SlugTooLong(|slug|)) + When(stopWords > 2, SlugStopWords(stopWords))
                      + When(!clean, SlugSpecialCharacters), When(doubled, SlugDuplicateHyphens));
    }
  }

  lemma SchemaUnfielded(article: bool, faq: bool)
    ensures Unfielded(When(article, ConsiderArticleSchema) + When(faq, ConsiderFaqSchema))
  {
    WhenUnfielded(article, ConsiderArticleSchema);
    WhenUnfielded(faq, ConsiderFaqSchema);
    UnfieldedConcat(When(article, ConsiderArticleSchema), When(faq, ConsiderFaqSchema));
  }

  lemma TechnicalUnfielded(slug: string, isDraft: bool, title: string, description: string,
                           hasRoot: bool, cache: Option<CacheEntry>)
    ensures Unfielded(TechnicalIssues(slug, isDraft, title, description, hasRoot, cache))
  {
    var article := HasArticleContent(cache);
    var faq := HasFaqContent(cache);
    var schema := if hasRoot then When(article, ConsiderArticleSchema) + When(faq, ConsiderFaqSchema) else [];
    SlugUnfielded(slug);
    WhenUnfielded(isDraft, DraftPage);
    WhenUnfielded(title != [] && description != [], ConsiderOpenGraph);
    SchemaUnfielded(article, faq);
    OneUnfielded(LanguageAttributes);
    Unfielded5(SlugIssues(slug), When(isDraft, DraftPage), When(title != [] && description != [], ConsiderOpenGraph),
               schema, [Raise(LanguageAttributes)]);
  }

  lemma QualityUnfielded(cache: Option<CacheEntry>)
    ensures Unfielded(CachedQuality(cache))
  {
    if cache.Some? && cache.value.contentQuality.Some? {
      MetricsUnfielded(cache.value.contentQuality.value);
    }
  }

  lemma MetricsUnfielded(q: QualityMetrics)
    ensures Unfielded(QualityIssues(q))
  {
    var a := When(q.longSentencePercentage > 25.0, LongSentences(q.longSentencePercentage));
    var b := When(q.longParagraphs > 0, LongParagraphs(q.longParagraphs));
    var c := PassiveIssues(q);
    var d := TransitionIssues(q);
    var e := When(q.consecutiveSentenceStarts >= 3, RepeatedStarts(q.consecutiveSentenceStarts));
    WhenUnfielded(q.longSentencePercentage > 25.0, LongSentences(q.longSentencePercentage));
    WhenUnfielded(q.longParagraphs > 0, LongParagraphs(q.longParagraphs));
    PercentagesUnfielded(q);
    WhenUnfielded(q.consecutiveSentenceStarts >= 3, RepeatedStarts(q.consecutiveSentenceStarts));
    Unfielded5(a, b, c, d, e);
  }

  lemma PercentagesUnfielded(q: QualityMetrics)
    ensures Unfielded(PassiveIssues(q)) && Unfielded(TransitionIssues(q))
  {
  }

  /** Everything `analyzePageContent` reports after the meta checks is attached to no field. */
  lemma AfterMetaUnfielded(page: Page, keyword: string, root: Option<Element>, cache: Option<CacheEntry>)
    ensures Unfielded(AfterMeta(page, keyword, root, cache))
  {
    var tree := if root.Some? then TreeIssues(root.value, keyword, cache) else [];
    var placement := if keyword != [] then KeywordPlacementIssues(keyword, page.slug, root.Some?, cache) else [];
    var links := if root.Some? then LinkIssues(Links(root.value)) else [];
    var technical := TechnicalIssues(page.slug, page.isDraft, page.title, page.description, root.Some?, cache);
    if root.Some? {
      TreeUnfielded(root.value, keyword, cache);
      LinksUnfielded(Links(root.value));
    }
    if keyword != [] {
      PlacementUnfielded(keyword, page.slug, root.Some?, cache);
    }
    TechnicalUnfielded(page.slug, page.isDraft, page.title, page.description, root.Some?, cache);
    QualityUnfielded(cache);
    Unfielded5(tree, placement, links, technical, CachedQuality(cache));
  }

  lemma KeywordFieldUnfielded(keyword: string, text: string, found: Message, notFound: Message)
    requires FieldOf(found) == None && FieldOf(notFound) == None
    ensures Unfielded(KeywordInFieldIssues(keyword, text, found, notFound))
  {
    if keyword != [] && text != [] {
      ChoiceUnfielded(Contains(Lower(text), keyword), found, notFound);
    }
  }

  /** Which issue of a list of unfielded issues is attached to a field, by index. */
  lemma UnfieldedAt(s: seq<Issue>, i: int)
    requires Unfielded(s) && 0 <= i < |s|
    ensures s[i].field == None
  {
    FilterEmptyIff(s, HasField);
  }

  /**
   * With the title issue first and the description issue after at most one
   * unfielded issue, and nothing else attached to a field, the two field
   * successes are those of the two issues.
   */
  lemma FieldSuccessesOfMeta(t: Issue, k1: seq<Issue>, d: Issue, k2: seq<Issue>, meta: seq<Issue>, rest: seq<Issue>)
    requires t.field == Some(TitleField) && d.field == Some(DescriptionField)
    requires Unfielded(k1) && Unfielded(k2) && Unfielded(rest)
    requires meta == [t] + k1 + [d] + k2
    ensures FieldSucceeds(meta + rest, TitleField) <==> t.severity == Success
    ensures FieldSucceeds(meta + rest, DescriptionField) <==> d.severity == Success
  {
    var s := meta + rest;
    assert s == [t] + k1 + [d] + k2 + rest;
    var j := 1 + |k1|;
    assert s[0] == t && s[j] == d;
    forall i | 0 <= i < |s| && i != 0 && i != j ensures s[i].field == None {
      if i < j {
        assert s[i] == k1[i - 1];
        UnfieldedAt(k1, i - 1);
      } else if i < j + 1 + |k2| {
        assert s[i] == k2[i - j - 1];
        UnfieldedAt(k2, i - j - 1);
      } else {
        assert s[i] == rest[i - j - 1 - |k2|];
        UnfieldedAt(rest, i - j - 1 - |k2|);
      }
    }
  }

  /**
   * The meta component of a page's own issues is 50 for a title of 30 to 60
   * characters plus 50 for a description of 120 to 160 characters: the
   * length checks are the only issues attached to a field.
   */
  lemma PageMetaComponent(page: Page, keywordInput: string, root: Option<Element>, cache: Option<CacheEntry>)
    ensures MetaComponent(PageIssues(page, keywordInput, root, cache))
         == (if TitleMin <= |page.title| <= TitleMax then 50 else 0)
          + (if DescriptionMin <= |page.description| <= DescriptionMax then 50 else 0)
  {
    var keyword := FocusKeyword(keywordInput);
    AfterMetaUnfielded(page, keyword, root, cache);
    MetaSuccesses(page, keyword, AfterMeta(page, keyword, root, cache));
  }

  /** The field successes of the meta checks followed by unfielded issues. */
  lemma MetaSuccesses(page: Page, keyword: string, rest: seq<Issue>)
    requires Unfielded(rest)
    ensures FieldSucceeds(MetaIssues(page, keyword) + rest, TitleField) <==> TitleMin <= |page.title| <= TitleMax
    ensures FieldSucceeds(MetaIssues(page, keyword) + rest, DescriptionField)
            <==> DescriptionMin <= |page.description| <= DescriptionMax
  {
    var t := TitleIssue(page.title);
    var d := DescriptionIssue(page.description);
    var k1 := KeywordInFieldIssues(keyword, page.title, KeywordInTitle, KeywordNotInTitle);
    var k2 := KeywordInFieldIssues(keyword, page.description, KeywordInDescription, KeywordNotInDescription);
    KeywordFieldUnfielded(keyword, page.title, KeywordInTitle, KeywordNotInTitle);
    KeywordFieldUnfielded(keyword, page.description, KeywordInDescription, KeywordNotInDescription);
    FieldSuccessesOfMeta(t, k1, d, k2, MetaIssues(page, keyword), rest);
  }

  /**
   * A title that contains the typed keyword, in any case, earns the page the
   * 60 keyword points of the title.
   */
  lemma PageKeywordInTitle(page: Page, keywordInput: string, root: Option<Element>, cache: Option<CacheEntry>)
    requires FocusKeyword(keywordInput) != []
    requires Contains(page.title, keywordInput)
    ensures KeywordComponent(PageIssues(page, keywordInput, root, cache)) >= 60
  {
    var keyword := FocusKeyword(keywordInput);
    KeywordFoundIgnoringCase(keywordInput, page.title, KeywordInTitle, KeywordNotInTitle);
    SecondOfMeta(page, keyword, AfterMeta(page, keyword, root, cache));
    KeywordInTitleScores(PageIssues(page, keywordInput, root, cache));
  }

  /** The keyword-in-title issue, when there is one, is the second meta issue. */
  lemma SecondOfMeta(page: Page, keyword: string, rest: seq<Issue>)
    requires KeywordInFieldIssues(keyword, page.title, KeywordInTitle, KeywordNotInTitle) == [Raise(KeywordInTitle)]
    ensures |MetaIssues(page, keyword) + rest| >= 2
    ensures (MetaIssues(page, keyword) + rest)[1] == Raise(KeywordInTitle)
  {
  }

  /** On a page whose images all have alt text, the image component is 100. */
  lemma PageImagesAllAlt(page: Page, keywordInput: string, root: Option<Element>, cache: Option<CacheEntry>)
    requires root.Some? && Images(root.value) != []
    requires forall i :: 0 <= i < |Images(root.value)| ==> Images(root.value)[i].hasAlt
    ensures MentionComponent(PageIssues(page, keywordInput, root, cache), "image") == 100
  {
    var keyword := FocusKeyword(keywordInput);
    var images := Images(root.value);
    var issues := PageIssues(page, keywordInput, root, cache);
    var meta := MetaIssues(page, keyword);
    var tree := TreeIssues(root.value, keyword, cache);
    AltSummaryFirst(images, keyword, CachedWordCount(cache));
    AltSummaryReportsMissingAlt(images, keyword);
    assert tree[1] == Raise(AllImagesHaveAlt(|images|));
    assert issues[|meta| + 1] == tree[1];
    AllAltDecidesImages(issues, |images|);
  }
}
