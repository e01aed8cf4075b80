/**
 * `analyzePage`, the Designer extension's full analysis: the page's issues,
 * a refresh of the content cache, the score and the recommendations, in
 * that order. The issues are computed against the cache as it was before
 * the refresh; the score and the recommendations read the refreshed cache.
 */
module DesignerFlow {
  import opened Wrappers
  import opened Text
  import opened DesignerIssues
  import opened DesignerTree
  import opened DesignerText
  import opened ContentCache
  import opened DesignerPage
  import opened DesignerScore
  import opened DesignerRecommendations

  /** What an analysis shows. */
  datatype Analysis =
    | NoPageSelected
    | Analysed(issues: seq<Issue>, score: SeoScore, recommendations: seq<Recommendation>)

  /** The cache after `analyzeContentQuality`. */
  function Refreshed(entry: Option<CacheEntry>, root: Option<Element>, now: int,
                     passiveVoice: string -> nat, transitions: string -> nat): Option<CacheEntry> {
    if Fresh(entry, now) || root.None? || ExtractText(root.value) == [] then entry
    else Some(Snapshot(root.value, now, passiveVoice, transitions))
  }

  /** The metrics the score reads off the cache. */
  function ContentOf(entry: Option<CacheEntry>): Option<ContentAnalysis> {
    if entry.Some? then Some(ContentAnalysis(entry.value.wordCount, entry.value.readabilityScore)) else None
  }

  /** `contentCache?.headings || []`. */
  function HeadingsOf(entry: Option<CacheEntry>): seq<HeadingInfo> {
    if entry.Some? then entry.value.headings else []
  }

  /** The word count the panel shows after the refresh. */
  function WordCountAfter(shown: nat, entry: Option<CacheEntry>, root: Option<Element>, now: int): nat {
    match ShownWordCount(entry, root, now)
    case Some(n) => n
    case None => shown
  }

  /**
   * What `analyzePage` shows for a page, given the cache before the
   * analysis and the word count the panel showed before it.
   */
  function PageAnalysis(page: Page, keywordInput: string, root: Option<Element>, entry: Option<CacheEntry>, now: int,
                        passiveVoice: string -> nat, transitions: string -> nat, shown: nat): (a: Analysis)
    ensures a.Analysed?
    ensures a.issues == PageIssues(page, keywordInput, root, entry)
    ensures Trim(keywordInput) == [] <==> a.score.total == -1
    ensures Trim(keywordInput) != [] ==> 0 <= a.score.total <= 100
  {
    var issues := PageIssues(page, keywordInput, root, entry);
    Outcome(issues, keywordInput, Refreshed(entry, root, now, passiveVoice, transitions), WordCountAfter(shown, entry, root, now))
  }

  /** The score and the recommendations for the issues, over the refreshed cache. */
  function Outcome(issues: seq<Issue>, keywordInput: string, entry: Option<CacheEntry>, wordCount: nat): Analysis {
    Analysed(issues,
             CalculateSEOScore(issues, keywordInput, ContentOf(entry)),
             Recommendations(issues, HeadingsOf(entry), keywordInput, wordCount, entry))
  }

  /**
   * `analyzePage`: without a page, the error and nothing else; otherwise the
   * issues against the cache as it was, the cache refreshed, and the score
   * and recommendations over the refreshed cache. `shown` is the word count
   * the panel showed before.
   */
  method AnalyzePage(cache: Cache, page: Option<Page>, keywordInput: string, root: Option<Element>, now: int,
                     passiveVoice: string -> nat, transitions: string -> nat, shown: nat)
    returns (analysis: Analysis)
    requires cache.Valid()
    modifies cache
    ensures cache.Valid()
    ensures page.None? ==> analysis == NoPageSelected && cache.entry == old(cache.entry)
    ensures page.Some? ==>
      cache.entry == Refreshed(old(cache.entry), root, now, passiveVoice, transitions)
      && analysis == PageAnalysis(page.value, keywordInput, root, old(cache.entry), now, passiveVoice, transitions, shown)
  {
    if page.None? {
      return NoPageSelected;
    }
    var issues := AnalyzePageContent(page.value, keywordInput, root, cache.entry);
    var displayed := cache.AnalyzeContentQuality(root, now, passiveVoice, transitions);
    var wordCount := if displayed.Some? then displayed.value else shown;
    analysis := ShowResults(issues, keywordInput, cache.entry, wordCount);
  }

  /** The score and recommendation steps of `analyzePage`. */
  method ShowResults(issues: seq<Issue>, keywordInput: string, entry: Option<CacheEntry>, wordCount: nat)
    returns (analysis: Analysis)
    ensures analysis == Outcome(issues, keywordInput, entry, wordCount)
  {
    var contentAnalysis: Option<ContentAnalysis> := None;
    if entry.Some? {
      contentAnalysis := Some(ContentAnalysis(entry.value.wordCount, entry.value.readabilityScore));
    }
    var score := CalculateSEOScore(issues, keywordInput, contentAnalysis);
    var headings := if entry.Some? then entry.value.headings else [];
    var recommendations := DisplayRecommendations(issues, headings, keywordInput, wordCount, entry);
    analysis := Analysed(issues, score, recommendations);
  }

  /**
   * Without a focus keyword the score shows -1 and the first
   * recommendation asks for a keyword, whatever the page and the cache.
   */
  lemma NoKeywordAnalysis(page: Page, keywordInput: string, root: Option<Element>, entry: Option<CacheEntry>, now: int,
                          passiveVoice: string -> nat, transitions: string -> nat, shown: nat)
    requires Trim(keywordInput) == []
    ensures var a := PageAnalysis(page, keywordInput, root, entry, now, passiveVoice, transitions, shown);
            a.score.total == -1 && |a.recommendations| >= 1
            && a.recommendations[0] == Recommendation(1.0, Error, AddFocusKeyword)
  {
    var refreshed := Refreshed(entry, root, now, passiveVoice, transitions);
    MissingKeywordFirst(PageIssues(page, keywordInput, root, entry), HeadingsOf(refreshed), keywordInput,
                        WordCountAfter(shown, entry, root, now), refreshed);
  }

  /** A fresh cache entry is kept, and the score's content part reads its metrics. */
  lemma FreshEntryKept(entry: Option<CacheEntry>, root: Option<Element>, now: int,
                       passiveVoice: string -> nat, transitions: string -> nat, shown: nat)
    requires Fresh(entry, now)
    ensures Refreshed(entry, root, now, passiveVoice, transitions) == entry
    ensures WordCountAfter(shown, entry, root, now) == entry.value.wordCount
  {
  }

  /**
   * On a stale or empty cache and a page with text, the score's content
   * part and the recommendations read the metrics of the page's own text.
   */
  lemma StaleEntryRecomputed(entry: Option<CacheEntry>, root: Option<Element>, now: int,
                             passiveVoice: string -> nat, transitions: string -> nat, shown: nat)
    requires !Fresh(entry, now) && root.Some? && ExtractText(root.value) != []
    ensures var r := Refreshed(entry, root, now, passiveVoice, transitions);
            r.Some? && Describes(r.value) && r.value.timestamp == now
            && ContentOf(r) == Some(ContentAnalysis(CountWords(ExtractText(root.value)), r.value.readabilityScore))
            && WordCountAfter(shown, entry, root, now) == r.value.wordCount
  {
  }
}
