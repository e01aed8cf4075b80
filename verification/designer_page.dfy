/**
 * `analyzePageContent`: the issue list of one page, built from the page's
 * title, description, slug and draft flag, the focus keyword typed by the
 * user, the page's element tree (when the Designer returns one) and the
 * content cache as it stood when the analysis started.
 */
module DesignerPage {
  import opened Wrappers
  import opened Seqs
  import opened Text
  import opened DesignerIssues
  import opened DesignerText
  import opened DesignerTree
  import opened DesignerImages
  import opened ContentCache
  import opened DesignerLinks
  import opened DesignerKeyword
  import opened DesignerTechnical

  const TitleMin := 30
  const TitleMax := 60
  const DescriptionMin := 120
  const DescriptionMax := 160

  /** What the page getters return; a missing value is the empty string. */
  datatype Page = Page(title: string, description: string, slug: string, isDraft: bool)

  /** `keywordInput?.value.toLowerCase().trim() || ''`. */
  function FocusKeyword(input: string): string {
    Trim(Lower(input))
  }

  // ---------------------------------------------------------------------------
  // Title and description
  // ---------------------------------------------------------------------------

  /** The title check: one issue on the title field, a success exactly for 30 to 60 characters. */
  function TitleIssue(title: string): (r: Issue)
    ensures r.field == Some(TitleField)
    ensures r.severity == Error <==> title == []
    ensures r.severity == Success <==> TitleMin <= |title| <= TitleMax
    ensures r.severity == Warning <==> title != [] && (|title| < TitleMin || |title| > TitleMax)
  {
    if title == [] then Raise(MissingTitle)
    else if |title| < TitleMin then Raise(TitleTooShort(|title|))
    else if |title| > TitleMax then Raise(TitleTooLong(|title|))
    else Raise(TitleOptimal)
  }

  /** The description check: one issue on the description field, a success exactly for 120 to 160 characters. */
  function DescriptionIssue(description: string): (r: Issue)
    ensures r.field == Some(DescriptionField)
    ensures r.severity == Error <==> description == []
    ensures r.severity == Success <==> DescriptionMin <= |description| <= DescriptionMax
    ensures r.severity == Warning <==>
            description != [] && (|description| < DescriptionMin || |description| > DescriptionMax)
  {
    if description == [] then Raise(MissingDescription)
    else if |description| < DescriptionMin then Raise(DescriptionTooShort(|description|))
    else if |description| > DescriptionMax then Raise(DescriptionTooLong(|description|))
    else Raise(DescriptionOptimal)
  }

  /** The keyword check on a field, made only when both the keyword and the field are set. */
  function KeywordInFieldIssues(keyword: string, text: string, found: Message, notFound: Message): seq<Issue> {
    if keyword != [] && text != [] then [Raise(if Contains(Lower(text), keyword) then found else notFound)]
    else []
  }

  /** The title, keyword-in-title, description and keyword-in-description checks, in push order. */
  function MetaIssues(page: Page, keyword: string): seq<Issue> {
    [TitleIssue(page.title)]
    + KeywordInFieldIssues(keyword, page.title, KeywordInTitle, KeywordNotInTitle)
    + [DescriptionIssue(page.description)]
    + KeywordInFieldIssues(keyword, page.description, KeywordInDescription, KeywordNotInDescription)
  }

  /**
   * A field that contains the typed keyword, in whatever case and with
   * whatever surrounding space, is reported as holding it.
   */
  lemma KeywordFoundIgnoringCase(input: string, text: string, found: Message, notFound: Message)
    requires FocusKeyword(input) != []
    requires Contains(text, input)
    ensures KeywordInFieldIssues(FocusKeyword(input), text, found, notFound) == [Raise(found)]
  {
    var i := ContainsWitness(text, input);
    assert text != [];
    ContainsLower(text, input);
    ContainsTrim(Lower(input));
    ContainsTransitive(Lower(text), Lower(input), FocusKeyword(input));
  }

  // ---------------------------------------------------------------------------
  // H1 count
  // ---------------------------------------------------------------------------

  /** The H1 check: an error without an H1, a success for exactly one, a warning for several. */
  function H1Issue(h1Count: nat): (r: Issue)
    ensures r.severity == Error <==> h1Count == 0
    ensures r.severity == Success <==> h1Count == 1
    ensures r.severity == Warning <==> h1Count > 1
  {
    if h1Count == 0 then Raise(NoH1)
    else if h1Count > 1 then Raise(MultipleH1(h1Count))
    else Raise(SingleH1)
  }

  // ---------------------------------------------------------------------------
  // Content quality
  // ---------------------------------------------------------------------------

  /** The passive-voice note: more than 10% of the sentences, when there are sentences. */
  function PassiveIssues(q: QualityMetrics): seq<Issue> {
    if q.totalSentences > 0 then
      var passivePercentage := (q.passiveVoiceCount as real / q.totalSentences as real) * 100.0;
      When(passivePercentage > 10.0, PassiveVoice(passivePercentage))
    else []
  }

  /** The transition-word note: under 30% of the sentences, when there are more than five. */
  function TransitionIssues(q: QualityMetrics): seq<Issue> {
    if q.totalSentences > 5 then
      var transitionPercentage := (q.transitionWordCount as real / q.totalSentences as real) * 100.0;
      When(transitionPercentage < 30.0, FewTransitions(transitionPercentage))
    else []
  }

  /** The content-quality checks on the cached metrics, in push order. */
  function QualityIssues(q: QualityMetrics): seq<Issue> {
    When(q.longSentencePercentage > 25.0, LongSentences(q.longSentencePercentage))
    + When(q.longParagraphs > 0, LongParagraphs(q.longParagraphs))
    + PassiveIssues(q)
    + TransitionIssues(q)
    + When(q.consecutiveSentenceStarts >= 3, RepeatedStarts(q.consecutiveSentenceStarts))
  }

  /**
   * For metrics computed from a text, the repeated-starts note needs at least
   * four sentences, and the long-sentence note at least one.
   */
  lemma QualityNotesNeedSentences(text: string, passiveVoiceCount: nat, transitionWordCount: nat)
    ensures var q := QualityOf(text, passiveVoiceCount, transitionWordCount);
            (q.consecutiveSentenceStarts >= 3 ==> |Sentences(text)| >= 4)
            && (q.longSentencePercentage > 25.0 ==> |Sentences(text)| >= 1)
  {
  }

  /** Without passive constructions there is no passive-voice note. */
  lemma NoPassiveNoNote(q: QualityMetrics)
    requires q.passiveVoiceCount == 0
    ensures PassiveIssues(q) == []
  {
  }

  // ---------------------------------------------------------------------------
  // analyzePageContent
  // ---------------------------------------------------------------------------

  /** `contentCache?.wordCount`, with 0 for no cache. */
  function CachedWordCount(cache: Option<CacheEntry>): nat {
    if cache.Some? then cache.value.wordCount else 0
  }

  /** The cached quality metrics, when the cache holds them. */
  function CachedQuality(cache: Option<CacheEntry>): seq<Issue> {
    if cache.Some? && cache.value.contentQuality.Some? then QualityIssues(cache.value.contentQuality.value) else []
  }

  /** The steps of `analyzePageContent` that need the page's element tree. */
  function TreeIssues(root: Element, keyword: string, cache: Option<CacheEntry>): seq<Issue> {
    [H1Issue(LevelCount(Headings(root), 1))] + AltTextIssues(Images(root), keyword, CachedWordCount(cache))
  }

  /**
   * Everything `analyzePageContent` reports, in push order: the meta checks,
   * then the rest.
   */
  function PageIssues(page: Page, keywordInput: string, root: Option<Element>, cache: Option<CacheEntry>): seq<Issue> {
    var keyword := FocusKeyword(keywordInput);
    MetaIssues(page, keyword) + AfterMeta(page, keyword, root, cache)
  }

  /**
   * The checks after the meta checks, in push order: the H1 count and the
   * image checks (with a root element), the keyword placement (with a
   * keyword), the links (with a root element), the technical checks and the
   * cached content-quality checks.
   */
  function AfterMeta(page: Page, keyword: string, root: Option<Element>, cache: Option<CacheEntry>): seq<Issue> {
    (if root.Some? then TreeIssues(root.value, keyword, cache) else [])
    + (if keyword != [] then KeywordPlacementIssues(keyword, page.slug, root.Some?, cache) else [])
    + (if root.Some? then LinkIssues(Links(root.value)) else [])
    + TechnicalIssues(page.slug, page.isDraft, page.title, page.description, root.Some?, cache)
    + CachedQuality(cache)
  }

  /** `analyzePageContent`. */
  method AnalyzePageContent(page: Page, keywordInput: string, root: Option<Element>, cache: Option<CacheEntry>)
    returns (issues: seq<Issue>)
    ensures issues == PageIssues(page, keywordInput, root, cache)
  {
    var keyword := FocusKeyword(keywordInput);
    issues := CheckMeta(page, keyword);
    var rest := CheckAfterMeta(page, keyword, root, cache);
    issues := issues + rest;
  }

  /** The steps of `analyzePageContent` after the meta checks. */
  method CheckAfterMeta(page: Page, keyword: string, root: Option<Element>, cache: Option<CacheEntry>)
    returns (issues: seq<Issue>)
    ensures issues == AfterMeta(page, keyword, root, cache)
  {
    issues := [];
    if root.Some? {
      var treeIssues := CheckTree(root.value, keyword, cache);
      issues := issues + treeIssues;
    }
    ghost var pushed := issues;
    assert pushed == (if root.Some? then TreeIssues(root.value, keyword, cache) else []);
    if keyword != [] {
      var keywordPlacement := AnalyzeKeywordPlacement(keyword, page.slug, root.Some?, cache);
      issues := issues + keywordPlacement;
    }
    assert issues == pushed + (if keyword != [] then KeywordPlacementIssues(keyword, page.slug, root.Some?, cache) else []);
    pushed := issues;
    if root.Some? {
      var linkAnalysis := AnalyzeLinkStructure(root.value);
      issues := issues + linkAnalysis;
    }
    assert issues == pushed + (if root.Some? then LinkIssues(Links(root.value)) else []);
    var technicalSEO := AnalyzeTechnicalSEO(page.slug, page.isDraft, page.title, page.description, root.Some?, cache);
    issues := issues + technicalSEO;
    pushed := issues;
    if cache.Some? && cache.value.contentQuality.Some? {
      var quality := CheckQuality(cache.value.contentQuality.value);
      issues := issues + quality;
    }
    assert issues == pushed + CachedQuality(cache);
  }

  /** The title and description steps of `analyzePageContent`. */
  method CheckMeta(page: Page, keyword: string) returns (issues: seq<Issue>)
    ensures issues == MetaIssues(page, keyword)
  {
    var title := page.title;
    if title == [] {
      issues := [Raise(MissingTitle)];
    } else if |title| < TitleMin {
      issues := [Raise(TitleTooShort(|title|))];
    } else if |title| > TitleMax {
      issues := [Raise(TitleTooLong(|title|))];
    } else {
      issues := [Raise(TitleOptimal)];
    }
    if keyword != [] && title != [] {
      if Contains(Lower(title), keyword) {
        issues := issues + [Raise(KeywordInTitle)];
      } else {
        issues := issues + [Raise(KeywordNotInTitle)];
      }
    }
    assert issues == [TitleIssue(title)] + KeywordInFieldIssues(keyword, title, KeywordInTitle, KeywordNotInTitle);
    var descriptionIssues := CheckDescription(page.description, keyword);
    issues := issues + descriptionIssues;
  }

  /** The description and keyword-in-description steps of `analyzePageContent`. */
  method CheckDescription(description: string, keyword: string) returns (issues: seq<Issue>)
    ensures issues == [DescriptionIssue(description)]
                      + KeywordInFieldIssues(keyword, description, KeywordInDescription, KeywordNotInDescription)
  {
    if description == [] {
      issues := [Raise(MissingDescription)];
    } else if |description| < DescriptionMin {
      issues := [Raise(DescriptionTooShort(|description|))];
    } else if |description| > DescriptionMax {
      issues := [Raise(DescriptionTooLong(|description|))];
    } else {
      issues := [Raise(DescriptionOptimal)];
    }
    if keyword != [] && description != [] {
      if Contains(Lower(description), keyword) {
        issues := issues + [Raise(KeywordInDescription)];
      } else {
        issues := issues + [Raise(KeywordNotInDescription)];
      }
    }
  }

  /** The H1 and image steps of `analyzePageContent`, taken when the page has a root element. */
  method CheckTree(root: Element, keyword: string, cache: Option<CacheEntry>) returns (issues: seq<Issue>)
    ensures issues == TreeIssues(root, keyword, cache)
  {
    var h1Count := CountHeadingsByLevel(root, 1);
    if h1Count == 0 {
      issues := [Raise(NoH1)];
    } else if h1Count > 1 {
      issues := [Raise(MultipleH1(h1Count))];
    } else {
      issues := [Raise(SingleH1)];
    }
    var images := AnalyzeAllImages(root);
    var imageIssues := CheckImagesForAltText(images, keyword, CachedWordCount(cache));
    issues := issues + imageIssues;
  }

  /** The content-quality step of `analyzePageContent`. */
  method CheckQuality(quality: QualityMetrics) returns (issues: seq<Issue>)
    ensures issues == QualityIssues(quality)
  {
    issues := [];
    if quality.longSentencePercentage > 25.0 {
      issues := issues + [Raise(LongSentences(quality.longSentencePercentage))];
    }
    if quality.longParagraphs > 0 {
      issues := issues + [Raise(LongParagraphs(quality.longParagraphs))];
    }
    assert issues == When(quality.longSentencePercentage > 25.0, LongSentences(quality.longSentencePercentage))
                     + When(quality.longParagraphs > 0, LongParagraphs(quality.longParagraphs));
    ghost var pushed := issues;
    if quality.totalSentences > 0 {
      var passivePercentage := (quality.passiveVoiceCount as real / quality.totalSentences as real) * 100.0;
      if passivePercentage > 10.0 {
        issues := issues + [Raise(PassiveVoice(passivePercentage))];
      }
    }
    assert issues == pushed + PassiveIssues(quality);
    pushed := issues;
    if quality.totalSentences > 5 {
      var transitionPercentage := (quality.transitionWordCount as real / quality.totalSentences as real) * 100.0;
      if transitionPercentage < 30.0 {
        issues := issues + [Raise(FewTransitions(transitionPercentage))];
      }
    }
    assert issues == pushed + TransitionIssues(quality);
    pushed := issues;
    if quality.consecutiveSentenceStarts >= 3 {
      issues := issues + [Raise(RepeatedStarts(quality.consecutiveSentenceStarts))];
    }
    assert issues == pushed + When(quality.consecutiveSentenceStarts >= 3, RepeatedStarts(quality.consecutiveSentenceStarts));
  }
}
