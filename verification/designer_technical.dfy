/**
 * The technical checks of the Designer extension: the shape of the URL slug
 * (length, stop words, characters, doubled hyphens), the draft flag, the
 * Open Graph and structured-data suggestions, and the standing note about
 * language attributes.
 */
module DesignerTechnical {
  import opened Wrappers
  import opened Seqs
  import opened Text
  import opened DesignerIssues
  import opened ContentCache
  import opened DesignerKeyword

  // ---------------------------------------------------------------------------
  // Slug
  // ---------------------------------------------------------------------------

  const SlugMaxLength := 60

  const SlugStopWordList: set<string> := {"a", "an", "the", "and", "or", "but", "in", "on", "at", "to", "for"}

  predicate IsStopWord(w: string) { w in SlugStopWordList }

  /** How many slug words are stop words. */
  function StopWordCount(slug: string): nat {
    |Filter(SlugWords(slug), IsStopWord)|
  }

  /** The class `[a-z0-9-]`. */
  predicate IsSlugChar(c: char) { ('a' <= c <= 'z') || ('0' <= c <= '9') || c == '-' }

  /** `/^[a-z0-9-]+$/.test(slug)`. */
  predicate IsCleanSlug(slug: string) {
    slug != [] && forall i :: 0 <= i < |slug| ==> IsSlugChar(slug[i])
  }

  /** The slug checks, made only for a page with a slug, in push order. */
  function SlugIssues(slug: string): seq<Issue> {
    if slug == [] then []
    else
      var stopWords := StopWordCount(slug);
      When(|slug| > SlugMaxLength, SlugTooLong(|slug|))
      + When(stopWords > 2, SlugStopWords(stopWords))
      + When(!IsCleanSlug(slug), SlugSpecialCharacters)
      + When(Contains(slug, "--"), SlugDuplicateHyphens)
  }

  /** A single-character split yields one piece more than there are separators. */
  lemma {:induction false} SplitEachCount(s: string, sep: char -> bool)
    ensures |SplitEach(s, sep)| == 1 + |Filter(s, sep)|
    decreases |s|
  {
    if s != [] {
      SplitEachCount(s[1..], sep);
    }
  }

  /** More than two stop words need at least two hyphens or underscores in the slug. */
  lemma StopWordsNeedSeparators(slug: string)
    ensures StopWordCount(slug) <= 1 + |Filter(Lower(slug), IsSlugSeparator)|
    ensures StopWordCount(slug) > 2 ==> |Filter(Lower(slug), IsSlugSeparator)| >= 2
  {
    SplitEachCount(Lower(slug), IsSlugSeparator);
  }

  /**
   * A slug of at most 60 lower-case letters, digits and single hyphens draws
   * no warning; at most the note about stop words.
   */
  lemma CleanSlugWarnings(slug: string)
    requires IsCleanSlug(slug) && |slug| <= SlugMaxLength && !Contains(slug, "--")
    ensures SlugIssues(slug) == When(StopWordCount(slug) > 2, SlugStopWords(StopWordCount(slug)))
  {
  }

  // ---------------------------------------------------------------------------
  // Structured data
  // ---------------------------------------------------------------------------

  /** The most characters the FAQ pattern allows between the question mark and the answer word. */
  const FaqWindow := 200

  /** An answer word starts at position `j` of the lower-cased text. */
  predicate AnswerWordAt(t: string, j: nat)
    requires j <= |t|
  {
    StartsWith(t[j..], "answer") || StartsWith(t[j..], "response") || StartsWith(t[j..], "solution")
  }

  /**
   * `/\?[\s\S]{1,200}(answer|response|solution)/i`: a question mark, then one
   * to two hundred characters of any kind, then an answer word in any case.
   */
  predicate FaqPattern(text: string) {
    var t := Lower(text);
    exists i, j :: 0 <= i && i + 2 <= j <= i + 1 + FaqWindow && j <= |t| && t[i] == '?' && AnswerWordAt(t, j)
  }

  /** A question followed closely by a capitalised "Answer" counts as Q&A content. */
  lemma FaqExample()
    ensures FaqPattern("Why? The Answer")
  {
    var t := Lower("Why? The Answer");
    assert t[3] == '?';
    assert t[9..][..6] == "answer";
    assert AnswerWordAt(t, 9);
  }

  /** Q&A content needs a question mark. */
  lemma FaqNeedsQuestionMark(text: string)
    requires FaqPattern(text)
    ensures '?' in text
  {
    var t := Lower(text);
    var i, j :| 0 <= i && i + 2 <= j <= i + 1 + FaqWindow && j <= |t| && t[i] == '?' && AnswerWordAt(t, j);
    assert LowerChar(text[i]) == '?';
    assert text[i] == '?';
  }

  /** Whether the cached content is long enough for the Article suggestion. */
  predicate HasArticleContent(cache: Option<CacheEntry>) {
    cache.Some? && cache.value.wordCount > 500
  }

  /** Whether the cached text looks like questions and answers. */
  predicate HasFaqContent(cache: Option<CacheEntry>) {
    cache.Some? && cache.value.text != [] && FaqPattern(cache.value.text)
  }

  // ---------------------------------------------------------------------------
  // analyzeTechnicalSEO
  // ---------------------------------------------------------------------------

  /**
   * What `analyzeTechnicalSEO` reports, in push order. The page getters'
   * missing values are empty strings.
   */
  function TechnicalIssues(slug: string, isDraft: bool, title: string, description: string,
                           hasRoot: bool, cache: Option<CacheEntry>): seq<Issue> {
    SlugIssues(slug)
    + When(isDraft, DraftPage)
    + When(title != [] && description != [], ConsiderOpenGraph)
    + (if hasRoot then
         When(HasArticleContent(cache), ConsiderArticleSchema) + When(HasFaqContent(cache), ConsiderFaqSchema)
       else [])
    + [Raise(LanguageAttributes)]
  }

  /** The language note always closes the technical checks. */
  lemma LanguageNoteLast(slug: string, isDraft: bool, title: string, description: string,
                         hasRoot: bool, cache: Option<CacheEntry>)
    ensures |TechnicalIssues(slug, isDraft, title, description, hasRoot, cache)| >= 1
    ensures var r := TechnicalIssues(slug, isDraft, title, description, hasRoot, cache);
            r[|r| - 1] == Raise(LanguageAttributes)
  {
  }

  /** `analyzeTechnicalSEO`. */
  method AnalyzeTechnicalSEO(slug: string, isDraft: bool, title: string, description: string,
                             hasRoot: bool, cache: Option<CacheEntry>) returns (issues: seq<Issue>)
    ensures issues == TechnicalIssues(slug, isDraft, title, description, hasRoot, cache)
  {
    issues := CheckSlug(slug);
    if isDraft {
      issues := issues + [Raise(DraftPage)];
    }
    assert issues == SlugIssues(slug) + When(isDraft, DraftPage);
    ghost var pushed := issues;
    if title != [] && description != [] {
      issues := issues + [Raise(ConsiderOpenGraph)];
    }
    assert issues == pushed + When(title != [] && description != [], ConsiderOpenGraph);
    pushed := issues;
    if hasRoot {
      var structured := CheckStructuredData(cache);
      issues := issues + structured;
    }
    assert issues == pushed + (if hasRoot then
      When(HasArticleContent(cache), ConsiderArticleSchema) + When(HasFaqContent(cache), ConsiderFaqSchema) else []);
    issues := issues + [Raise(LanguageAttributes)];
  }

  /** The structured-data step of `analyzeTechnicalSEO`, taken when the page has a root element. */
  method CheckStructuredData(cache: Option<CacheEntry>) returns (issues: seq<Issue>)
    ensures issues == When(HasArticleContent(cache), ConsiderArticleSchema) + When(HasFaqContent(cache), ConsiderFaqSchema)
  {
    var hasArticleContent := cache.Some? && cache.value.wordCount > 500;
    var hasFAQContent := cache.Some? && cache.value.text != [] && FaqPattern(cache.value.text);
    issues := [];
    if hasArticleContent {
      issues := issues + [Raise(ConsiderArticleSchema)];
    }
    if hasFAQContent {
      issues := issues + [Raise(ConsiderFaqSchema)];
    }
  }

  /** The slug step of `analyzeTechnicalSEO`. */
  method CheckSlug(slug: string) returns (issues: seq<Issue>)
    ensures issues == SlugIssues(slug)
  {
    issues := [];
    if slug != [] {
      if |slug| > SlugMaxLength {
        issues := issues + [Raise(SlugTooLong(|slug|))];
      }
      var slugWords := SlugWords(slug);
      var stopWordsInSlug := Filter(slugWords, IsStopWord);
      if |stopWordsInSlug| > 2 {
        issues := issues + [Raise(SlugStopWords(|stopWordsInSlug|))];
      }
      if !IsCleanSlug(slug) {
        issues := issues + [Raise(SlugSpecialCharacters)];
      }
      if Contains(slug, "--") {
        issues := issues + [Raise(SlugDuplicateHyphens)];
      }
    }
  }
}
