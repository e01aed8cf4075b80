/**
 * The Designer extension's content cache: the text extracted from the page
 * with its word count, reading time, readability score, heading list and
 * quality metrics, kept for 30 seconds so that repeated analyses do not walk
 * the page again. The refresh button and every edit of the focus keyword
 * drop it.
 */
module ContentCache {
  import opened Wrappers
  import opened DesignerText
  import opened DesignerTree

  /** How long, in milliseconds, an entry is reused. */
  const CacheDuration: int := 30000

  datatype CacheEntry = CacheEntry(
    text: string,
    wordCount: nat,
    readingTime: nat,
    readabilityScore: int,
    headings: seq<HeadingInfo>,
    timestamp: int,
    contentQuality: Option<QualityMetrics>)

  /**
   * The entry an analysis of the page under `root` stores at time `now`.
   * The passive-voice and transition-word counts are regular-expression
   * counts over the text, given here as functions of it.
   */
  function Snapshot(root: Element, now: int, passiveVoice: string -> nat, transitions: string -> nat): CacheEntry {
    var text := ExtractText(root);
    var wordCount := CountWords(text);
    CacheEntry(text, wordCount, ReadingTime(wordCount), Readability(text), Headings(root), now,
               Some(QualityOf(text, passiveVoice(text), transitions(text))))
  }

  /** An entry holds a non-empty text and the metrics of that text. */
  predicate Describes(e: CacheEntry) {
    e.text != [] && e.wordCount == CountWords(e.text) && e.readingTime == ReadingTime(e.wordCount)
    && e.readabilityScore == Readability(e.text) && e.contentQuality.Some?
  }

  /** `contentCache && Date.now() - contentCache.timestamp < CACHE_DURATION`. */
  predicate Fresh(entry: Option<CacheEntry>, now: int) {
    entry.Some? && now - entry.value.timestamp < CacheDuration
  }

  /**
   * The word count the panel shows after an analysis: the cached one when
   * the entry is fresh, nothing new without a root, zero for a page without
   * text, else the count of the new text.
   */
  function ShownWordCount(entry: Option<CacheEntry>, root: Option<Element>, now: int): Option<nat> {
    if Fresh(entry, now) then Some(entry.value.wordCount)
    else if root.None? then None
    else Some(CountWords(ExtractText(root.value)))
  }

  class Cache {
    var entry: Option<CacheEntry>

    /** Every entry the cache holds was computed from its own text. */
    predicate Valid()
      reads this
    {
      entry.Some? ==> Describes(entry.value)
    }

    /** `contentCache && Date.now() - contentCache.timestamp < CACHE_DURATION`. */
    predicate IsFresh(now: int)
      reads this
    {
      entry.Some? && now - entry.value.timestamp < CacheDuration
    }

    constructor()
      ensures entry == None && Valid()
    {
      entry := None;
    }

    /** `contentCache = null`, as the refresh button and the keyword input do. */
    method Clear()
      modifies this
      ensures entry == None && Valid()
    {
      entry := None;
    }

    /**
     * `analyzeContentQuality`: a fresh entry is reused; otherwise, when the
     * page has a root and its extracted text is not empty, every metric is
     * recomputed and stored with the time of the analysis. Without a root or
     * without text the cache is left as it was.
     */
    method AnalyzeContentQuality(root: Option<Element>, now: int, passiveVoice: string -> nat, transitions: string -> nat)
      returns (shownWordCount: Option<nat>)
      requires Valid()
      modifies this
      ensures Valid()
      ensures old(IsFresh(now)) ==> entry == old(entry)
      ensures !old(IsFresh(now)) && (root.None? || ExtractText(root.value) == []) ==> entry == old(entry)
      ensures !old(IsFresh(now)) && root.Some? && ExtractText(root.value) != [] ==>
        entry == Some(Snapshot(root.value, now, passiveVoice, transitions))
      ensures shownWordCount == ShownWordCount(old(entry), root, now)
    {
      if entry.Some? && now - entry.value.timestamp < CacheDuration {
        return Some(entry.value.wordCount);
      }
      if root.None? {
        return None;
      }
      var textContent := ExtractTextContent(root.value);
      if |textContent| == 0 {
        CountWordsBlank(textContent);
        return Some(0);
      }
      var wordCount := CountWords(textContent);
      var readingTime := ReadingTime(wordCount);
      var readabilityScore := Readability(textContent);
      var contentQuality := AnalyzeContentQualityMetrics(textContent, passiveVoice(textContent), transitions(textContent));
      var headingStructure := AnalyzeHeadingStructure(root.value, []);
      assert headingStructure == Headings(root.value);
      entry := Some(CacheEntry(textContent, wordCount, readingTime, readabilityScore, headingStructure, now, Some(contentQuality)));
      shownWordCount := Some(wordCount);
    }
  }
}
