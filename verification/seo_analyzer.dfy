/**
 * The server-side analyzer (`SEOAnalyzer`). It scores a page that has already
 * been parsed into its title text, its meta-description attribute, its body
 * text, its headings and its images, in document order.
 */
module SeoAnalyzer {
  import opened Wrappers
  import opened Seqs
  import opened Text
  import opened JsMath
  import JsMap

  // The analyzer's configuration.
  const TitleMinLength := 30
  const TitleMaxLength := 60
  const DescriptionMinLength := 120
  const DescriptionMaxLength := 160
  const MinDensity: real := 1.0
  const MaxDensity: real := 3.0
  const MinContentWords := 300
  const TopKeywordLimit := 10
  const MissingAltListLimit := 10

  type HeadingLevel = l: int | 1 <= l <= 6 witness 1

  /** An `<h1>`…`<h6>` element: its level and its text before trimming. */
  datatype ParsedHeading = ParsedHeading(level: HeadingLevel, text: string)

  /** An `<img>` element's `src` and `alt` attributes, absent or present. */
  datatype ParsedImage = ParsedImage(src: Option<string>, alt: Option<string>)

  datatype ParsedPage = ParsedPage(
    titleText: string,
    descriptionContent: Option<string>,
    bodyText: string,
    headings: seq<ParsedHeading>,
    images: seq<ParsedImage>)

  /** One issue per message the analyzer can report, with the numbers the message shows. */
  datatype Issue =
    | MissingTitle
    | TitleTooShort(titleLength: nat)
    | TitleTooLong(titleLength: nat)
    | MissingDescription
    | DescriptionTooShort(descriptionLength: nat)
    | DescriptionTooLong(descriptionLength: nat)
    | ContentTooShort
    | DensityTooLow(avgDensity: real)
    | DensityTooHigh(avgDensity: real)
    | MissingH1
    | MultipleH1(h1Count: nat)
    | HierarchyBroken
    | NoHeadingStructure
    | LimitedHeadingStructure
    | NoImages
    | MissingAltText(imagesWithoutAlt: nat, percentageMissing: real)

  // ---------------------------------------------------------------------------
  // Meta tags
  // ---------------------------------------------------------------------------

  datatype FieldAnalysis = FieldAnalysis(content: string, length: nat, score: int, issues: seq<Issue>)

  datatype MetaTagAnalysis = MetaTagAnalysis(title: FieldAnalysis, description: FieldAnalysis)

  /** The length rule shared by the title and the description. */
  function CheckLength(content: string, minLength: nat, maxLength: nat,
                       missing: Issue, tooShort: Issue, tooLong: Issue): (f: FieldAnalysis)
    requires 0 < minLength <= maxLength
    ensures f.content == content && f.length == |content|
    ensures |content| == 0 ==> f.score == 0 && f.issues == [missing]
    ensures 0 < |content| < minLength ==> f.score == 70 && f.issues == [tooShort]
    ensures |content| > maxLength ==> f.score == 80 && f.issues == [tooLong]
    ensures f.issues == [] <==> minLength <= |content| <= maxLength
    ensures f.issues == [] <==> f.score == 100
    ensures |f.issues| <= 1
  {
    var n := |content|;
    if n == 0 then FieldAnalysis(content, n, 0, [missing])
    else if n < minLength then FieldAnalysis(content, n, Max(0, 100 - 30), [tooShort])
    else if n > maxLength then FieldAnalysis(content, n, Max(0, 100 - 20), [tooLong])
    else FieldAnalysis(content, n, 100, [])
  }

  /** `analyzeMetaTags`: the trimmed title and the untrimmed description, each scored by length. */
  function AnalyzeMetaTags(titleText: string, descriptionContent: Option<string>): (m: MetaTagAnalysis)
    ensures m.title.content == Trim(titleText)
    ensures m.description.content == descriptionContent.GetOr("")
    ensures Trim(titleText) == [] ==> m.title.score == 0 && m.title.issues == [MissingTitle]
    ensures TitleMinLength <= |Trim(titleText)| <= TitleMaxLength <==> m.title.score == 100 && m.title.issues == []
    ensures 0 < |Trim(titleText)| < TitleMinLength ==> m.title.score == 70 && m.title.issues == [TitleTooShort(|Trim(titleText)|)]
    ensures |Trim(titleText)| > TitleMaxLength ==> m.title.score == 80 && m.title.issues == [TitleTooLong(|Trim(titleText)|)]
    ensures m.description.content == [] ==> m.description.score == 0 && m.description.issues == [MissingDescription]
    ensures DescriptionMinLength <= m.description.length <= DescriptionMaxLength <==> m.description.score == 100 && m.description.issues == []
    ensures 0 < m.description.length < DescriptionMinLength ==>
      m.description.score == 70 && m.description.issues == [DescriptionTooShort(m.description.length)]
    ensures m.description.length > DescriptionMaxLength ==>
      m.description.score == 80 && m.description.issues == [DescriptionTooLong(m.description.length)]
    ensures |m.title.issues| <= 1 && |m.description.issues| <= 1
    ensures m.title.issues == [] <==> m.title.score == 100
    ensures m.description.issues == [] <==> m.description.score == 100
  {
    var title := Trim(titleText);
    var description := descriptionContent.GetOr("");
    MetaTagAnalysis(
      CheckLength(title, TitleMinLength, TitleMaxLength,
                  MissingTitle, TitleTooShort(|title|), TitleTooLong(|title|)),
      CheckLength(description, DescriptionMinLength, DescriptionMaxLength,
                  MissingDescription, DescriptionTooShort(|description|), DescriptionTooLong(|description|)))
  }

  // ---------------------------------------------------------------------------
  // Keywords
  // ---------------------------------------------------------------------------

  predicate IsTokenChar(c: char) { ('a' <= c <= 'z') || ('0' <= c <= '9') }

  /** `replace(/[^a-z0-9\s]/g, ' ')` on one character. */
  function Sanitize(c: char): char {
    if IsTokenChar(c) || IsSpace(c) then c else ' '
  }

  predicate LongerThanThree(w: string) { |w| > 3 }

  /** `toLowerCase()` followed by `replace(/[^a-z0-9\s]/g, ' ')`. */
  function Cleaned(bodyText: string): (r: string)
    ensures |r| == |bodyText|
    ensures forall i :: 0 <= i < |r| ==> IsTokenChar(r[i]) || IsSpace(r[i])
  {
    var lowered := Lower(bodyText);
    seq(|lowered|, i requires 0 <= i < |lowered| => Sanitize(lowered[i]))
  }

  /**
   * `totalWords`' words: the cleaned body text split on white space, keeping
   * the words longer than three characters.
   */
  function Tokens(bodyText: string): seq<string> {
    Filter(SplitRuns(Cleaned(bodyText), IsSpace), LongerThanThree)
  }

  /** Every counted word has more than three characters, all of them in `[a-z0-9]`. */
  lemma TokensShape(bodyText: string)
    ensures forall w :: w in Tokens(bodyText) ==> |w| > 3 && forall c :: c in w ==> IsTokenChar(c)
  {
    var cleaned := Cleaned(bodyText);
    SplitRunsPieces(cleaned, IsSpace);
    forall w, c | w in Tokens(bodyText) && c in w ensures IsTokenChar(c) {
      var k :| 0 <= k < |cleaned| && cleaned[k] == c;
    }
  }

  type Occurrences = JsMap.Entries<string, nat>

  /** `keywordMap.set(word, (keywordMap.get(word) || 0) + 1)`. */
  function Bump(m: Occurrences, w: string): Occurrences {
    JsMap.Set(m, w, JsMap.Get(m, w).GetOr(0) + 1)
  }

  /** The `keywordMap` after counting `words` one by one into an empty `Map`. */
  function Tally(words: seq<string>): Occurrences
    decreases |words|
  {
    if words == [] then [] else Bump(Tally(words[..|words| - 1]), words[|words| - 1])
  }

  lemma TallyStep(prev: seq<string>, w: string)
    ensures Tally(prev + [w]) == Bump(Tally(prev), w)
  {
    var words := prev + [w];
    assert words[..|words| - 1] == prev;
  }

  function Count(e: (string, nat)): int { e.1 }

  /** The index of the first occurrence of `w`, or `|words|` if it does not occur. */
  function FirstIndex(words: seq<string>, w: string): (i: nat)
    ensures i <= |words|
    ensures i < |words| <==> w in words
    ensures i < |words| ==> words[i] == w && w !in words[..i]
    decreases |words|
  {
    if words == [] then 0
    else if words[0] == w then 0
    else
      assert words[1..][..FirstIndex(words[1..], w)] == words[1..FirstIndex(words[1..], w) + 1];
      1 + FirstIndex(words[1..], w)
  }

  lemma FirstIndexSnoc(words: seq<string>, x: string, w: string)
    requires w in words
    ensures FirstIndex(words + [x], w) == FirstIndex(words, w)
  {
    var i := FirstIndex(words, w);
    assert (words + [x])[i] == w;
    assert (words + [x])[..i] == words[..i];
  }

  /** The map holds one entry per distinct word. */
  lemma {:induction false} TallyKeys(words: seq<string>)
    ensures JsMap.DistinctKeys(Tally(words))
    ensures forall w :: JsMap.HasKey(Tally(words), w) <==> w in words
    decreases |words|
  {
    if words != [] {
      var prev := words[..|words| - 1];
      var w := words[|words| - 1];
      assert words == prev + [w];
      TallyKeys(prev);
      var m := Tally(prev);
      JsMap.SetUpdates(m, w, JsMap.Get(m, w).GetOr(0) + 1);
    }
  }

  /** Each entry counts the occurrences of its word. */
  lemma {:induction false} TallyCounts(words: seq<string>)
    ensures CountsMatch(Tally(words), words)
    decreases |words|
  {
    if words != [] {
      var prev := words[..|words| - 1];
      var w := words[|words| - 1];
      assert words == prev + [w];
      TallyCounts(prev);
      TallyKeys(prev);
      TallyCountsStep(prev, w);
    }
  }

  /** Every entry holds the number of occurrences of its word, at least one. */
  ghost predicate CountsMatch(m: Occurrences, words: seq<string>) {
    forall i :: 0 <= i < |m| ==> m[i].1 == multiset(words)[m[i].0] >= 1
  }

  lemma TallyCountsStep(prev: seq<string>, w: string)
    requires CountsMatch(Tally(prev), prev)
    requires JsMap.DistinctKeys(Tally(prev))
    requires forall k :: JsMap.HasKey(Tally(prev), k) <==> k in prev
    ensures CountsMatch(Tally(prev + [w]), prev + [w])
  {
    var words := prev + [w];
    var m := Tally(prev);
    TallyStep(prev, w);
    var r := Tally(words);
    assert multiset(words) == multiset(prev) + multiset{w};
    JsMap.GetFinds(m, w);
    JsMap.SetUpdates(m, w, JsMap.Get(m, w).GetOr(0) + 1);
    if JsMap.HasKey(m, w) {
      forall i | 0 <= i < |r| ensures r[i].1 == multiset(words)[r[i].0] >= 1 {
        if m[i].0 != w {
          assert r[i] == m[i];
        }
      }
    } else {
      assert w !in prev;
      forall i | 0 <= i < |r| ensures r[i].1 == multiset(words)[r[i].0] >= 1 {
        if i < |m| {
          assert JsMap.HasKey(m, m[i].0);
        }
      }
    }
  }

  /** The counts add up to the number of words. */
  lemma {:induction false} TallySum(words: seq<string>)
    ensures SumOf(Tally(words), Count) == |words|
    decreases |words|
  {
    if words != [] {
      var prev := words[..|words| - 1];
      var w := words[|words| - 1];
      assert words == prev + [w];
      TallySum(prev);
      TallyKeys(prev);
      var m := Tally(prev);
      var r := Tally(words);
      JsMap.GetFinds(m, w);
      JsMap.SetUpdates(m, w, JsMap.Get(m, w).GetOr(0) + 1);
      if JsMap.HasKey(m, w) {
        var p :| 0 <= p < |m| && m[p].0 == w;
        var e: (string, nat) := (w, m[p].1 + 1);
        assert r == m[p := e];
        SumOfUpdate(m, p, e, Count);
      } else {
        var e: (string, nat) := (w, 1);
        SumOfSnoc(m, e, Count);
      }
    }
  }

  /** The entries' words appear in the order in which they first occur in `words`. */
  ghost predicate FirstSeenOrder(entries: Occurrences, words: seq<string>) {
    forall i, j :: 0 <= i < j < |entries| ==> FirstIndex(words, entries[i].0) < FirstIndex(words, entries[j].0)
  }

  /** Entries appear in the order in which their words first occur. */
  lemma {:induction false} TallyOrder(words: seq<string>)
    ensures FirstSeenOrder(Tally(words), words)
    decreases |words|
  {
    if words != [] {
      var prev := words[..|words| - 1];
      var w := words[|words| - 1];
      assert words == prev + [w];
      TallyOrder(prev);
      TallyKeys(prev);
      var m := Tally(prev);
      var r := Tally(words);
      JsMap.SetUpdates(m, w, JsMap.Get(m, w).GetOr(0) + 1);
      forall i | 0 <= i < |m| ensures FirstIndex(words, m[i].0) == FirstIndex(prev, m[i].0) < |prev| {
        assert JsMap.HasKey(m, m[i].0);
        FirstIndexSnoc(prev, w, m[i].0);
      }
      forall i, j | 0 <= i < j < |r| ensures FirstIndex(words, r[i].0) < FirstIndex(words, r[j].0) {
        if j < |m| {
          assert r[i].0 == m[i].0 && r[j].0 == m[j].0;
        } else {
          assert w !in prev && r[j].0 == w;
        }
      }
    }
  }

  const StopWords: set<string> :=
    {"that", "this", "with", "from", "have", "been", "will", "your", "their", "they", "which", "would"}

  predicate NotStopWord(e: (string, nat)) { e.0 !in StopWords }

  /** Sorting by this key in ascending order puts the highest counts first. */
  function ByCountDescending(e: (string, nat)): real { -(e.1 as real) }

  datatype KeywordDensity = KeywordDensity(keyword: string, count: nat, density: real)

  /** The keyword-map entries that are not stop words, by count, most frequent first, ties in map order. */
  function RankedCandidates(occurrences: Occurrences): (ranked: Occurrences)
    ensures multiset(ranked) == multiset(Filter(occurrences, NotStopWord))
    ensures forall i, j :: 0 <= i < j < |ranked| ==> ranked[i].1 >= ranked[j].1
    ensures forall c :: Filter(ranked, KeyIs(ByCountDescending, c)) ==
                        Filter(Filter(occurrences, NotStopWord), KeyIs(ByCountDescending, c))
  {
    var candidates := Filter(occurrences, NotStopWord);
    SortByProperties(candidates, ByCountDescending);
    SortBy(candidates, ByCountDescending)
  }

  /** `(count / totalWords) * 100`. */
  function DensityOf(count: nat, totalWords: nat): real
    requires totalWords > 0
  {
    (count as real / totalWords as real) * 100.0
  }

  /** Each entry with its density. */
  function WithDensities(entries: Occurrences, totalWords: nat): (top: seq<KeywordDensity>)
    requires entries != [] ==> totalWords > 0
    ensures |top| == |entries|
    ensures forall i :: 0 <= i < |top| ==>
      totalWords > 0 && top[i] == KeywordDensity(entries[i].0, entries[i].1, DensityOf(entries[i].1, totalWords))
  {
    if entries == [] then []
    else Map(entries, (e: (string, nat)) requires totalWords > 0 =>
      KeywordDensity(e.0, e.1, DensityOf(e.1, totalWords)))
  }

  function Density(k: KeywordDensity): real { k.density }

  /** The mean density of the top keywords, 0 when there are none. */
  function AverageDensity(top: seq<KeywordDensity>): (avg: real)
    ensures top == [] ==> avg == 0.0
  {
    if |top| > 0 then RealSumOf(top, Density) / |top| as real else 0.0
  }

  /** The score and issues from the word count and the average density. */
  function KeywordVerdict(totalWords: nat, avgDensity: real): (v: (int, seq<Issue>))
    ensures v.0 in {100, 80, 75, 70, 50, 45}
    ensures totalWords < MinContentWords <==> ContentTooShort in v.1
    ensures DensityTooLow(avgDensity) in v.1 <==> avgDensity < MinDensity
    ensures DensityTooHigh(avgDensity) in v.1 <==> avgDensity > MaxDensity
    ensures !(DensityTooLow(avgDensity) in v.1 && DensityTooHigh(avgDensity) in v.1)
    ensures v.0 == 100 <==> v.1 == []
  {
    var (s1, i1) := if totalWords < MinContentWords then (Max(0, 100 - 30), [ContentTooShort]) else (100, []);
    if avgDensity < MinDensity then (Max(0, s1 - 20), i1 + [DensityTooLow(avgDensity)])
    else if avgDensity > MaxDensity then (Max(0, s1 - 25), i1 + [DensityTooHigh(avgDensity)])
    else (s1, i1)
  }

  datatype KeywordAnalysis = KeywordAnalysis(
    totalWords: nat,
    keywordOccurrences: Occurrences,
    density: real,
    score: int,
    issues: seq<Issue>,
    topKeywords: seq<KeywordDensity>)

  /** The ten best-ranked entries with their densities. */
  function TopKeywords(occurrences: Occurrences, totalWords: nat): (top: seq<KeywordDensity>)
    requires SumOf(occurrences, Count) == totalWords
    requires forall i :: 0 <= i < |occurrences| ==> occurrences[i].1 >= 1
    ensures |top| <= TopKeywordLimit
    ensures forall i :: 0 <= i < |top| ==>
      top[i].keyword !in StopWords &&
      (top[i].keyword, top[i].count) in occurrences &&
      totalWords > 0 && top[i].density == DensityOf(top[i].count, totalWords)
    ensures forall i, j :: 0 <= i < j < |top| ==> top[i].count >= top[j].count
  {
    var best := Take(RankedCandidates(occurrences), TopKeywordLimit);
    BestAreCandidates(occurrences, totalWords);
    var top := WithDensities(best, totalWords);
    assert forall i :: 0 <= i < |top| ==> (top[i].keyword, top[i].count) == best[i];
    top
  }

  lemma BestAreCandidates(occurrences: Occurrences, totalWords: nat)
    requires SumOf(occurrences, Count) == totalWords
    requires forall i :: 0 <= i < |occurrences| ==> occurrences[i].1 >= 1
    ensures var best := Take(RankedCandidates(occurrences), TopKeywordLimit);
      (best != [] ==> totalWords > 0) &&
      forall i :: 0 <= i < |best| ==> best[i] in occurrences && NotStopWord(best[i])
  {
    var ranked := RankedCandidates(occurrences);
    var best := Take(ranked, TopKeywordLimit);
    forall i | 0 <= i < |best| ensures best[i] in occurrences && NotStopWord(best[i]) {
      assert best[i] == ranked[i];
      assert ranked[i] in multiset(Filter(occurrences, NotStopWord));
    }
    CountsAtLeastLength(occurrences);
    if best != [] {
      assert best[0] in occurrences;
    }
  }

  /** The analysis built from the word count and the filled keyword map. */
  function Summarize(totalWords: nat, occurrences: Occurrences): (k: KeywordAnalysis)
    requires SumOf(occurrences, Count) == totalWords
    requires forall i :: 0 <= i < |occurrences| ==> occurrences[i].1 >= 1
    ensures k.totalWords == totalWords && k.keywordOccurrences == occurrences
    ensures k.topKeywords == TopKeywords(occurrences, totalWords)
    ensures k.topKeywords == [] ==> k.density == 0.0
    ensures (k.score, k.issues) == KeywordVerdict(totalWords, k.density)
  {
    var top := TopKeywords(occurrences, totalWords);
    var avg := AverageDensity(top);
    var (score, issues) := KeywordVerdict(totalWords, avg);
    KeywordAnalysis(totalWords, occurrences, avg, score, issues, top)
  }

  /** Bounds on every density bound their sum. */
  lemma {:induction false} DensitySumWithin(top: seq<KeywordDensity>, lo: real, hi: real)
    requires forall i :: 0 <= i < |top| ==> lo <= top[i].density <= hi
    ensures |top| as real * lo <= RealSumOf(top, Density) <= |top| as real * hi
    decreases |top|
  {
    if top != [] {
      DensitySumWithin(top[1..], lo, hi);
      assert RealSumOf(top, Density) == top[0].density + RealSumOf(top[1..], Density);
    }
  }

  /** The mean lies between any lower and upper bound of the densities it averages. */
  lemma MeanDensityWithin(top: seq<KeywordDensity>, lo: real, hi: real)
    requires top != []
    requires forall i :: 0 <= i < |top| ==> lo <= top[i].density <= hi
    ensures lo <= AverageDensity(top) <= hi
  {
    DensitySumWithin(top, lo, hi);
    var n := |top| as real;
    var s := RealSumOf(top, Density);
    DivideWithin(s, n, lo, hi);
  }

  lemma DivideWithin(s: real, n: real, lo: real, hi: real)
    requires n > 0.0 && n * lo <= s <= n * hi
    ensures lo <= s / n <= hi
  {
    var q := s / n;
    assert q * n == s;
    ScaleBelow(q, lo, n);
    ScaleBelow(hi, q, n);
  }

  lemma ScaleBelow(a: real, b: real, n: real)
    requires n > 0.0 && b * n <= a * n
    ensures b <= a
  {
  }

  /**
   * The density of a keyword analysis lies between the least and the
   * greatest density of its top keywords: it is their mean.
   */
  lemma SummarizeDensityBetween(totalWords: nat, occurrences: Occurrences)
    requires SumOf(occurrences, Count) == totalWords
    requires forall i :: 0 <= i < |occurrences| ==> occurrences[i].1 >= 1
    ensures var k := Summarize(totalWords, occurrences);
      k.topKeywords != [] ==>
        (exists i :: 0 <= i < |k.topKeywords| && k.topKeywords[i].density <= k.density) &&
        (exists j :: 0 <= j < |k.topKeywords| && k.density <= k.topKeywords[j].density)
  {
    var k := Summarize(totalWords, occurrences);
    var top := k.topKeywords;
    if top != [] {
      var lo := LeastDensity(top);
      var hi := GreatestDensity(top);
      MeanDensityWithin(top, top[lo].density, top[hi].density);
    }
  }

  function LeastDensity(top: seq<KeywordDensity>): (i: nat)
    requires top != []
    ensures i < |top| && forall j :: 0 <= j < |top| ==> top[i].density <= top[j].density
  {
    if |top| == 1 then 0
    else
      var r := LeastDensity(top[1..]);
      if top[0].density <= top[1 + r].density then 0 else 1 + r
  }

  function GreatestDensity(top: seq<KeywordDensity>): (i: nat)
    requires top != []
    ensures i < |top| && forall j :: 0 <= j < |top| ==> top[j].density <= top[i].density
  {
    if |top| == 1 then 0
    else
      var r := GreatestDensity(top[1..]);
      if top[0].density >= top[1 + r].density then 0 else 1 + r
  }

  lemma {:induction false} CountsAtLeastLength(occurrences: Occurrences)
    requires forall i :: 0 <= i < |occurrences| ==> occurrences[i].1 >= 1
    ensures SumOf(occurrences, Count) >= |occurrences|
    decreases |occurrences|
  {
    if occurrences != [] {
      CountsAtLeastLength(occurrences[1..]);
    }
  }

  /** What `analyzeKeywords` computes from the body text. */
  function KeywordAnalysisOf(bodyText: string): (k: KeywordAnalysis)
    ensures k.totalWords == |Tokens(bodyText)|
    ensures SumOf(k.keywordOccurrences, Count) == k.totalWords
  {
    var words := Tokens(bodyText);
    TallySum(words);
    TallyCounts(words);
    Summarize(|words|, Tally(words))
  }

  /** Among keywords with equal counts, the ranking keeps the order in which the words first occur. */
  lemma RankingKeepsFirstSeenOrder(words: seq<string>, c: nat)
    ensures FirstSeenOrder(Filter(RankedCandidates(Tally(words)), KeyIs(ByCountDescending, -(c as real))), words)
  {
    var m := Tally(words);
    TallyOrder(words);
    var p := KeyIs(ByCountDescending, -(c as real));
    var tied := Filter(RankedCandidates(m), p);
    assert tied == Filter(Filter(m, NotStopWord), p);
    FilterKeepsOrder(m, NotStopWord, words);
    FilterKeepsOrder(Filter(m, NotStopWord), p, words);
  }

  /** Filtering entries keeps them in first-occurrence order. */
  lemma {:induction false} FilterKeepsOrder(m: Occurrences, q: ((string, nat)) -> bool, words: seq<string>)
    requires FirstSeenOrder(m, words)
    ensures FirstSeenOrder(Filter(m, q), words)
    decreases |m|
  {
    if m != [] {
      FilterKeepsOrder(m[1..], q, words);
      var rest := Filter(m[1..], q);
      assert FirstSeenOrder(rest, words);
      forall e | e in rest ensures FirstIndex(words, m[0].0) < FirstIndex(words, e.0) {
        var k :| 0 <= k < |m[1..]| && m[1..][k] == e;
        assert m[k + 1] == e;
      }
      var f := Filter(m, q);
      if q(m[0]) {
        assert f == [m[0]] + rest;
        forall i, j | 0 <= i < j < |f| ensures FirstIndex(words, f[i].0) < FirstIndex(words, f[j].0) {
          assert f[j] == rest[j - 1] && f[j] in rest;
          if i > 0 {
            assert f[i] == rest[i - 1];
          }
        }
      } else {
        assert f == rest;
      }
    }
  }

  /** `analyzeKeywords`: counts every token into an insertion-ordered map, then ranks. */
  method AnalyzeKeywords(bodyText: string) returns (k: KeywordAnalysis)
    ensures k == KeywordAnalysisOf(bodyText)
  {
    var words := Tokens(bodyText);
    var keywordMap: Occurrences := [];
    var i := 0;
    while i < |words|
      invariant i <= |words|
      invariant keywordMap == Tally(words[..i])
    {
      var word := words[i];
      assert words[..i + 1][..i] == words[..i];
      keywordMap := JsMap.Set(keywordMap, word, JsMap.Get(keywordMap, word).GetOr(0) + 1);
      i := i + 1;
    }
    assert words[..i] == words;
    TallySum(words);
    TallyCounts(words);
    k := Summarize(|words|, keywordMap);
  }

  // ---------------------------------------------------------------------------
  // Headings
  // ---------------------------------------------------------------------------

  datatype HeadingHierarchy = HeadingHierarchy(level: HeadingLevel, text: string, order: nat)

  /** `headingCounts`: how many headings there are at each level. */
  datatype HeadingCounts = HeadingCounts(
    h1Count: nat, h2Count: nat, h3Count: nat, h4Count: nat, h5Count: nat, h6Count: nat)

  datatype HeadingStructure = HeadingStructure(
    counts: HeadingCounts,
    hierarchy: seq<HeadingHierarchy>,
    score: int,
    issues: seq<Issue>)

  /** The `switch (level)` that bumps one counter. */
  function Increment(counts: HeadingCounts, level: HeadingLevel): HeadingCounts {
    match level
    case 1 => counts.(h1Count := counts.h1Count + 1)
    case 2 => counts.(h2Count := counts.h2Count + 1)
    case 3 => counts.(h3Count := counts.h3Count + 1)
    case 4 => counts.(h4Count := counts.h4Count + 1)
    case 5 => counts.(h5Count := counts.h5Count + 1)
    case 6 => counts.(h6Count := counts.h6Count + 1)
  }

  /** The hierarchy entry for a heading: its level, its trimmed text and its position. */
  function Entry(heading: ParsedHeading, order: nat): HeadingHierarchy {
    HeadingHierarchy(heading.level, Trim(heading.text), order)
  }

  function LevelIs(l: HeadingLevel): ParsedHeading -> bool {
    (h: ParsedHeading) => h.level == l
  }

  /** The number of headings at level `l`. */
  function LevelCount(headings: seq<ParsedHeading>, l: HeadingLevel): nat {
    |Filter(headings, LevelIs(l))|
  }

  /** The heading at index `i` is more than one level deeper than the one before it. */
  predicate SkipsAt(headings: seq<ParsedHeading>, i: int) {
    0 < i < |headings| && headings[i].level > headings[i - 1].level + 1
  }

  /** Some heading before index `n` skips a level. */
  predicate SkipBefore(headings: seq<ParsedHeading>, n: nat) {
    exists i :: 0 < i < n && SkipsAt(headings, i)
  }

  predicate HasLevelSkip(headings: seq<ParsedHeading>) {
    SkipBefore(headings, |headings|)
  }

  lemma SkipBeforeStep(headings: seq<ParsedHeading>, n: nat)
    ensures SkipBefore(headings, n + 1) <==> SkipBefore(headings, n) || SkipsAt(headings, n)
  {
    if SkipsAt(headings, n) {
      assert 0 < n < n + 1;
    }
  }

  /** The score and issues from the H1 count, the skip check and the number of headings. */
  function HeadingVerdict(h1Count: nat, broken: bool, total: nat): (v: (int, seq<Issue>))
    ensures 0 <= v.0 <= 100
    ensures total == 0 ==> v.0 == 0 && NoHeadingStructure in v.1
    ensures MissingH1 in v.1 <==> h1Count == 0
    ensures MultipleH1(h1Count) in v.1 <==> h1Count > 1
    ensures HierarchyBroken in v.1 <==> broken
    ensures LimitedHeadingStructure in v.1 <==> 0 < total < 3
    ensures |v.1| <= 3 && forall i, j :: 0 <= i < j < |v.1| ==> v.1[i] != v.1[j]
    ensures v.0 == 100 <==> v.1 == []
    ensures v.1 == [] <==> h1Count == 1 && !broken && total >= 3
  {
    var (s1, i1) :=
      if h1Count == 0 then (Max(0, 100 - 40), [MissingH1])
      else if h1Count > 1 then (Max(0, 100 - 30), [MultipleH1(h1Count)])
      else (100, []);
    var (s2, i2) := if broken then (Max(0, s1 - 20), i1 + [HierarchyBroken]) else (s1, i1);
    if total == 0 then (0, i2 + [NoHeadingStructure])
    else if total < 3 then (Max(0, s2 - 20), i2 + [LimitedHeadingStructure])
    else (s2, i2)
  }

  /** `headings`: one entry per heading, numbered by `order++` in document order. */
  function HierarchyOf(headings: seq<ParsedHeading>): (r: seq<HeadingHierarchy>)
    ensures |r| == |headings|
    decreases |headings|
  {
    if headings == [] then []
    else
      var n := |headings| - 1;
      HierarchyOf(headings[..n]) + [Entry(headings[n], n)]
  }

  lemma HierarchyStep(headings: seq<ParsedHeading>, i: nat)
    requires i < |headings|
    ensures HierarchyOf(headings[..i + 1]) == HierarchyOf(headings[..i]) + [Entry(headings[i], i)]
  {
    assert headings[..i + 1][..i] == headings[..i];
  }

  /** Entry `i` of the hierarchy is heading `i` with its trimmed text and `order` equal to `i`. */
  lemma {:induction false} HierarchyEntries(headings: seq<ParsedHeading>)
    ensures forall i :: 0 <= i < |headings| ==> HierarchyOf(headings)[i] == Entry(headings[i], i)
    decreases |headings|
  {
    if headings != [] {
      var n := |headings| - 1;
      var prefix := headings[..n];
      HierarchyEntries(prefix);
      var r := HierarchyOf(headings);
      assert r == HierarchyOf(prefix) + [Entry(headings[n], n)];
      forall i | 0 <= i < |headings| ensures r[i] == Entry(headings[i], i) {
        if i < n {
          assert prefix[i] == headings[i];
          assert r[i] == HierarchyOf(prefix)[i];
        }
      }
    }
  }

  lemma HierarchyLevels(headings: seq<ParsedHeading>)
    ensures forall i :: 0 <= i < |headings| ==> HierarchyOf(headings)[i].level == headings[i].level
  {
    HierarchyEntries(headings);
  }

  /** What `analyzeHeadings` computes from the headings in document order. */
  function HeadingStructureOf(headings: seq<ParsedHeading>): (h: HeadingStructure)
    ensures h.hierarchy == HierarchyOf(headings)
    ensures h.counts == CountsOf(headings)
    ensures (h.score, h.issues) == HeadingVerdict(h.counts.h1Count, HasLevelSkip(headings), |headings|)
  {
    var (score, issues) := HeadingVerdict(LevelCount(headings, 1), HasLevelSkip(headings), |headings|);
    HeadingStructure(CountsOf(headings), HierarchyOf(headings), score, issues)
  }

  /** The counts of each level, as the `switch` accumulates them. */
  function CountsOf(headings: seq<ParsedHeading>): HeadingCounts {
    HeadingCounts(LevelCount(headings, 1), LevelCount(headings, 2), LevelCount(headings, 3),
                  LevelCount(headings, 4), LevelCount(headings, 5), LevelCount(headings, 6))
  }

  /** The six level counts add up to the number of headings. */
  lemma {:induction false} LevelCountsSum(headings: seq<ParsedHeading>)
    ensures var c := CountsOf(headings);
      c.h1Count + c.h2Count + c.h3Count + c.h4Count + c.h5Count + c.h6Count == |headings|
    decreases |headings|
  {
    if headings != [] {
      LevelCountsSum(headings[1..]);
    }
  }

  lemma CountsOfSnoc(headings: seq<ParsedHeading>, h: ParsedHeading)
    ensures CountsOf(headings + [h]) == Increment(CountsOf(headings), h.level)
  {
    LevelCountSnoc(headings, h, 1);
    LevelCountSnoc(headings, h, 2);
    LevelCountSnoc(headings, h, 3);
    LevelCountSnoc(headings, h, 4);
    LevelCountSnoc(headings, h, 5);
    LevelCountSnoc(headings, h, 6);
  }

  lemma LevelCountSnoc(headings: seq<ParsedHeading>, h: ParsedHeading, l: HeadingLevel)
    ensures LevelCount(headings + [h], l) == LevelCount(headings, l) + if h.level == l then 1 else 0
  {
    FilterSnoc(headings, h, LevelIs(l));
  }

  /** `analyzeHeadings`: numbers and counts the headings, then walks them looking for a skipped level. */
  method AnalyzeHeadings(headings: seq<ParsedHeading>) returns (h: HeadingStructure)
    ensures h == HeadingStructureOf(headings)
  {
    var hierarchy: seq<HeadingHierarchy> := [];
    var headingCounts := HeadingCounts(0, 0, 0, 0, 0, 0);
    var order := 0;
    var i := 0;
    while i < |headings|
      invariant i <= |headings| && order == i
      invariant hierarchy == HierarchyOf(headings[..i])
      invariant headingCounts == CountsOf(headings[..i])
    {
      var heading := headings[i];
      HierarchyStep(headings, i);
      PrefixSnoc(headings, i);
      CountsOfSnoc(headings[..i], heading);
      hierarchy := hierarchy + [Entry(heading, order)];
      order := order + 1;
      headingCounts := Increment(headingCounts, heading.level);
      i := i + 1;
    }
    assert headings[..i] == headings;
    HierarchyLevels(headings);

    var previousLevel: int := 0;
    var hierarchyBroken := false;
    i := 0;
    while i < |hierarchy|
      invariant i <= |hierarchy| == |headings|
      invariant forall j :: 0 <= j < |hierarchy| ==> hierarchy[j].level == headings[j].level
      invariant previousLevel == if i == 0 then 0 else headings[i - 1].level
      invariant hierarchyBroken <==> SkipBefore(headings, i)
    {
      SkipBeforeStep(headings, i);
      if previousLevel > 0 && hierarchy[i].level > previousLevel + 1 {
        hierarchyBroken := true;
      }
      previousLevel := hierarchy[i].level;
      i := i + 1;
    }

    var (score, issues) := HeadingVerdict(headingCounts.h1Count, hierarchyBroken, |hierarchy|);
    h := HeadingStructure(headingCounts, hierarchy, score, issues);
  }

  // ---------------------------------------------------------------------------
  // Images
  // ---------------------------------------------------------------------------

  datatype ImageAnalysis = ImageAnalysis(
    totalImages: nat,
    imagesWithAlt: nat,
    imagesWithoutAlt: nat,
    score: real,
    issues: seq<Issue>,
    missingAltImages: seq<string>)

  /** `alt && alt.trim().length > 0`. */
  predicate HasAltText(image: ParsedImage) {
    image.alt.Some? && Trim(image.alt.value) != []
  }

  predicate LacksAltText(image: ParsedImage) { !HasAltText(image) }

  /** `attr('src') || 'unknown'`. */
  function SrcOrUnknown(image: ParsedImage): string {
    if image.src.Some? && image.src.value != [] then image.src.value else "unknown"
  }

  /** The sources of the images without alt text, in document order. */
  function MissingAltSources(images: seq<ParsedImage>): seq<string> {
    Map(Filter(images, LacksAltText), SrcOrUnknown)
  }

  lemma MissingAltSourcesSnoc(images: seq<ParsedImage>, image: ParsedImage)
    ensures MissingAltSources(images + [image]) ==
      MissingAltSources(images) + if LacksAltText(image) then [SrcOrUnknown(image)] else []
  {
    FilterSnoc(images, image, LacksAltText);
  }

  /** The score and issues from the image counts. */
  function ImageVerdict(totalImages: nat, imagesWithoutAlt: nat): (v: (real, seq<Issue>))
    requires imagesWithoutAlt <= totalImages
    ensures 0.0 <= v.0 <= 100.0
    ensures totalImages == 0 ==> v == (100.0, [NoImages])
    ensures totalImages > 0 && imagesWithoutAlt == 0 ==> v == (100.0, [])
    ensures totalImages > 0 && imagesWithoutAlt > 0 ==>
      v.0 * totalImages as real == (totalImages - imagesWithoutAlt) as real * 100.0 &&
      v.1 == [MissingAltText(imagesWithoutAlt, 100.0 - v.0)]
  {
    if totalImages == 0 then (100.0, [NoImages])
    else if imagesWithoutAlt > 0 then
      var percentageMissing := (imagesWithoutAlt as real / totalImages as real) * 100.0;
      MissingPercentageBounds(imagesWithoutAlt, totalImages);
      (100.0 - percentageMissing, [MissingAltText(imagesWithoutAlt, percentageMissing)])
    else (100.0, [])
  }

  lemma MissingPercentageBounds(part: nat, total: nat)
    requires 0 < part <= total
    ensures 0.0 < (part as real / total as real) * 100.0 <= 100.0
    ensures (100.0 - (part as real / total as real) * 100.0) * total as real == (total - part) as real * 100.0
  {
    var q := part as real / total as real;
    assert q * total as real == part as real;
  }

  /** What `analyzeImages` computes from the images in document order. */
  function ImageAnalysisOf(images: seq<ParsedImage>): (a: ImageAnalysis)
    ensures a.totalImages == |images|
    ensures a.imagesWithAlt == |Filter(images, HasAltText)|
    ensures a.imagesWithoutAlt == |Filter(images, LacksAltText)|
    ensures a.imagesWithAlt + a.imagesWithoutAlt == a.totalImages
    ensures a.missingAltImages == Take(MissingAltSources(images), MissingAltListLimit)
    ensures (a.score, a.issues) == ImageVerdict(a.totalImages, a.imagesWithoutAlt)
  {
    var withAlt := |Filter(images, HasAltText)|;
    FilterPartition(images, HasAltText, LacksAltText);
    var (score, issues) := ImageVerdict(|images|, |images| - withAlt);
    ImageAnalysis(|images|, withAlt, |images| - withAlt, score, issues,
                  Take(MissingAltSources(images), MissingAltListLimit))
  }

  /** `analyzeImages`: counts the images with alt text and collects the sources of the others. */
  method AnalyzeImages(images: seq<ParsedImage>) returns (a: ImageAnalysis)
    ensures a == ImageAnalysisOf(images)
  {
    var imagesWithAlt := 0;
    var missingAltImages: seq<string> := [];
    var i := 0;
    while i < |images|
      invariant i <= |images|
      invariant imagesWithAlt == |Filter(images[..i], HasAltText)|
      invariant missingAltImages == MissingAltSources(images[..i])
    {
      var image := images[i];
      assert images[..i + 1] == images[..i] + [image];
      FilterSnoc(images[..i], image, HasAltText);
      MissingAltSourcesSnoc(images[..i], image);
      if HasAltText(image) {
        imagesWithAlt := imagesWithAlt + 1;
      } else {
        missingAltImages := missingAltImages + [SrcOrUnknown(image)];
      }
      i := i + 1;
    }
    assert images[..i] == images;
    FilterPartition(images, HasAltText, LacksAltText);
    var imagesWithoutAlt := |images| - imagesWithAlt;
    var (score, issues) := ImageVerdict(|images|, imagesWithoutAlt);
    a := ImageAnalysis(|images|, imagesWithAlt, imagesWithoutAlt, score, issues,
                       Take(missingAltImages, MissingAltListLimit));
  }

  // ---------------------------------------------------------------------------
  // Overall score
  // ---------------------------------------------------------------------------

  // The five weights of the configuration, each 20% of the total.
  const TitleWeight: real := 0.2
  const DescriptionWeight: real := 0.2
  const KeywordsWeight: real := 0.2
  const HeadingsWeight: real := 0.2
  const ImagesWeight: real := 0.2

  datatype ScoreBreakdown = ScoreBreakdown(metaTags: int, keywords: int, headings: int, images: real)

  datatype SeoScore = SeoScore(overall: int, breakdown: ScoreBreakdown)

  /** The mean of the title and description scores. */
  function MetaScore(metaTags: MetaTagAnalysis): real {
    (metaTags.title.score + metaTags.description.score) as real / 2.0
  }

  /** The weighted sum before rounding; the meta mean is weighted by both the title and the description weight. */
  function WeightedSum(meta: real, keywords: int, headings: int, images: real): real {
    meta * TitleWeight + meta * DescriptionWeight + keywords as real * KeywordsWeight +
    headings as real * HeadingsWeight + images * ImagesWeight
  }

  /** `calculateOverallScore`: the rounded weighted sum, clamped to [0, 100]. */
  function CalculateOverallScore(metaTags: MetaTagAnalysis, keywords: KeywordAnalysis,
                                 headings: HeadingStructure, images: ImageAnalysis): (s: SeoScore)
    ensures 0 <= s.overall <= 100
    ensures var w := WeightedSum(MetaScore(metaTags), keywords.score, headings.score, images.score);
      (-0.5 <= w < 100.5 ==> s.overall as real - 0.5 <= w < s.overall as real + 0.5) &&
      (w < -0.5 ==> s.overall == 0) &&
      (w >= 100.5 ==> s.overall == 100)
    ensures s.breakdown.metaTags as real - 0.5 <= MetaScore(metaTags) < s.breakdown.metaTags as real + 0.5
    ensures s.breakdown.keywords == keywords.score
    ensures s.breakdown.headings == headings.score
    ensures s.breakdown.images == images.score
  {
    var metaScore := MetaScore(metaTags);
    var overall := Round(WeightedSum(metaScore, keywords.score, headings.score, images.score));
    SeoScore(Clamp(overall, 0, 100),
             ScoreBreakdown(Round(metaScore), keywords.score, headings.score, images.score))
  }

  /** When every component score lies in [0, 100], the clamp never acts: the total is the rounded weighted sum. */
  lemma OverallUnclamped(metaTags: MetaTagAnalysis, keywords: KeywordAnalysis,
                         headings: HeadingStructure, images: ImageAnalysis)
    requires 0 <= metaTags.title.score <= 100 && 0 <= metaTags.description.score <= 100
    requires 0 <= keywords.score <= 100 && 0 <= headings.score <= 100 && 0.0 <= images.score <= 100.0
    ensures CalculateOverallScore(metaTags, keywords, headings, images).overall ==
      Round(0.4 * MetaScore(metaTags) + 0.2 * (keywords.score + headings.score) as real + 0.2 * images.score)
  {
    var w := WeightedSum(MetaScore(metaTags), keywords.score, headings.score, images.score);
    assert 0.0 <= w <= 100.0;
    var r := Round(w);
    assert 0 <= r <= 100;
  }

  /** A page with a perfect score in every component scores 100 overall. */
  lemma PerfectComponentsScorePerfect(metaTags: MetaTagAnalysis, keywords: KeywordAnalysis,
                                      headings: HeadingStructure, images: ImageAnalysis)
    requires metaTags.title.score == 100 && metaTags.description.score == 100
    requires keywords.score == 100 && headings.score == 100 && images.score == 100.0
    ensures CalculateOverallScore(metaTags, keywords, headings, images) ==
      SeoScore(100, ScoreBreakdown(100, 100, 100, 100.0))
  {
    assert WeightedSum(MetaScore(metaTags), 100, 100, 100.0) == 100.0;
  }

  /** Raising any one component score never lowers the overall score. */
  lemma OverallMonotone(m: MetaTagAnalysis, k: KeywordAnalysis, h: HeadingStructure, i: ImageAnalysis,
                        m': MetaTagAnalysis, k': KeywordAnalysis, h': HeadingStructure, i': ImageAnalysis)
    requires MetaScore(m) <= MetaScore(m') && k.score <= k'.score && h.score <= h'.score && i.score <= i'.score
    ensures CalculateOverallScore(m, k, h, i).overall <= CalculateOverallScore(m', k', h', i').overall
  {
    var w := WeightedSum(MetaScore(m), k.score, h.score, i.score);
    var w' := WeightedSum(MetaScore(m'), k'.score, h'.score, i'.score);
    assert w <= w';
    assert Round(w) <= Round(w');
  }

  // ---------------------------------------------------------------------------
  // Recommendations
  // ---------------------------------------------------------------------------

  /** The prefix of a recommendation: `Title:`, `Description:`, `Keywords:`, `Headings:` or `Images:`. */
  datatype Category = TitleAdvice | DescriptionAdvice | KeywordsAdvice | HeadingsAdvice | ImagesAdvice

  /** One recommendation: an issue under its prefix, or the single "well optimized" message. */
  datatype Recommendation = Advice(category: Category, issue: Issue) | WellOptimized

  /** The position of a category in the recommendation list. */
  function Rank(c: Category): nat {
    match c
    case TitleAdvice => 0
    case DescriptionAdvice => 1
    case KeywordsAdvice => 2
    case HeadingsAdvice => 3
    case ImagesAdvice => 4
  }

  /** `issues.map(issue => `<prefix>: ${issue}`)`. */
  function Prefixed(c: Category, issues: seq<Issue>): (r: seq<Recommendation>)
    ensures |r| == |issues|
    ensures forall j :: 0 <= j < |r| ==> r[j] == Advice(c, issues[j])
  {
    seq(|issues|, j requires 0 <= j < |issues| => Advice(c, issues[j]))
  }

  /** The issues filed under one category, in list order. */
  function IssuesUnder(r: seq<Recommendation>, c: Category): seq<Issue>
    decreases |r|
  {
    if r == [] then []
    else (if r[0].Advice? && r[0].category == c then [r[0].issue] else []) + IssuesUnder(r[1..], c)
  }

  /** The categories never go back: all title advice first, then description, keywords, headings, images. */
  predicate CategoriesInOrder(r: seq<Recommendation>) {
    forall a, b :: 0 <= a < b < |r| && r[a].Advice? && r[b].Advice? ==> Rank(r[a].category) <= Rank(r[b].category)
  }

  /** The issue list each category is built from. */
  function IssuesOf(c: Category, metaTags: MetaTagAnalysis, keywords: KeywordAnalysis,
                    headings: HeadingStructure, images: ImageAnalysis): seq<Issue> {
    match c
    case TitleAdvice => metaTags.title.issues
    case DescriptionAdvice => metaTags.description.issues
    case KeywordsAdvice => keywords.issues
    case HeadingsAdvice => headings.issues
    case ImagesAdvice => images.issues
  }

  /** The five prefixed issue lists, concatenated in the order of the categories. */
  function AllAdvice(metaTags: MetaTagAnalysis, keywords: KeywordAnalysis,
                     headings: HeadingStructure, images: ImageAnalysis): (r: seq<Recommendation>)
    ensures |r| == |metaTags.title.issues| + |metaTags.description.issues| + |keywords.issues| +
                   |headings.issues| + |images.issues|
    ensures WellOptimized !in r
  {
    var r := Prefixed(TitleAdvice, metaTags.title.issues) +
      Prefixed(DescriptionAdvice, metaTags.description.issues) +
      Prefixed(KeywordsAdvice, keywords.issues) +
      Prefixed(HeadingsAdvice, headings.issues) +
      Prefixed(ImagesAdvice, images.issues);
    assert forall x :: x in r ==> x.Advice?;
    r
  }

  /** `generateRecommendations`. */
  function GenerateRecommendations(metaTags: MetaTagAnalysis, keywords: KeywordAnalysis,
                                   headings: HeadingStructure, images: ImageAnalysis): (r: seq<Recommendation>)
    ensures var n := |metaTags.title.issues| + |metaTags.description.issues| + |keywords.issues| +
                     |headings.issues| + |images.issues|;
      (n == 0 ==> r == [WellOptimized]) && (n > 0 ==> |r| == n && WellOptimized !in r)
  {
    var advice := AllAdvice(metaTags, keywords, headings, images);
    if advice == [] then [WellOptimized] else advice
  }

  lemma {:induction false} IssuesUnderConcat(a: seq<Recommendation>, b: seq<Recommendation>, c: Category)
    ensures IssuesUnder(a + b, c) == IssuesUnder(a, c) + IssuesUnder(b, c)
    decreases |a|
  {
    if a == [] {
      assert a + b == b;
    } else {
      assert (a + b)[0] == a[0];
      assert (a + b)[1..] == a[1..] + b;
      IssuesUnderConcat(a[1..], b, c);
    }
  }

  lemma {:induction false} IssuesUnderPrefixed(d: Category, issues: seq<Issue>, c: Category)
    ensures IssuesUnder(Prefixed(d, issues), c) == if c == d then issues else []
    decreases |issues|
  {
    if issues != [] {
      assert Prefixed(d, issues)[1..] == Prefixed(d, issues[1..]);
      IssuesUnderPrefixed(d, issues[1..], c);
    }
  }

  /** Each category of the concatenation holds exactly its own analysis's issues, in their order. */
  lemma AllAdviceIssues(metaTags: MetaTagAnalysis, keywords: KeywordAnalysis,
                        headings: HeadingStructure, images: ImageAnalysis, c: Category)
    ensures IssuesUnder(AllAdvice(metaTags, keywords, headings, images), c) ==
      IssuesOf(c, metaTags, keywords, headings, images)
  {
    var p0 := Prefixed(TitleAdvice, metaTags.title.issues);
    var p1 := Prefixed(DescriptionAdvice, metaTags.description.issues);
    var p2 := Prefixed(KeywordsAdvice, keywords.issues);
    var p3 := Prefixed(HeadingsAdvice, headings.issues);
    var p4 := Prefixed(ImagesAdvice, images.issues);
    assert AllAdvice(metaTags, keywords, headings, images) == p0 + p1 + p2 + p3 + p4;
    IssuesUnderConcat(p0 + p1 + p2 + p3, p4, c);
    IssuesUnderConcat(p0 + p1 + p2, p3, c);
    IssuesUnderConcat(p0 + p1, p2, c);
    IssuesUnderConcat(p0, p1, c);
    IssuesUnderPrefixed(TitleAdvice, metaTags.title.issues, c);
    IssuesUnderPrefixed(DescriptionAdvice, metaTags.description.issues, c);
    IssuesUnderPrefixed(KeywordsAdvice, keywords.issues, c);
    IssuesUnderPrefixed(HeadingsAdvice, headings.issues, c);
    IssuesUnderPrefixed(ImagesAdvice, images.issues, c);
  }

  /** The categories of the concatenation never go back. */
  lemma AllAdviceInOrder(metaTags: MetaTagAnalysis, keywords: KeywordAnalysis,
                         headings: HeadingStructure, images: ImageAnalysis)
    ensures CategoriesInOrder(AllAdvice(metaTags, keywords, headings, images))
  {
    var r := AllAdvice(metaTags, keywords, headings, images);
    var e1 := |metaTags.title.issues|;
    var e2 := e1 + |metaTags.description.issues|;
    var e3 := e2 + |keywords.issues|;
    var e4 := e3 + |headings.issues|;
    assert forall a :: 0 <= a < |r| ==>
      (r[a].Advice? && Rank(r[a].category) ==
        (if a < e1 then 0 else if a < e2 then 1 else if a < e3 then 2 else if a < e4 then 3 else 4));
  }

  /**
   * Each prefix carries exactly that analysis's issues in their order, the
   * prefixes come in the fixed order, and the "well optimized" message is
   * given exactly when no analysis reported anything.
   */
  lemma RecommendationsProperties(metaTags: MetaTagAnalysis, keywords: KeywordAnalysis,
                                  headings: HeadingStructure, images: ImageAnalysis)
    ensures var r := GenerateRecommendations(metaTags, keywords, headings, images);
      (forall c :: IssuesUnder(r, c) == IssuesOf(c, metaTags, keywords, headings, images)) &&
      CategoriesInOrder(r)
    ensures (GenerateRecommendations(metaTags, keywords, headings, images) == [WellOptimized]) <==>
      metaTags.title.issues == [] && metaTags.description.issues == [] && keywords.issues == [] &&
      headings.issues == [] && images.issues == []
  {
    var advice := AllAdvice(metaTags, keywords, headings, images);
    var r := GenerateRecommendations(metaTags, keywords, headings, images);
    forall c ensures IssuesUnder(r, c) == IssuesOf(c, metaTags, keywords, headings, images) {
      AllAdviceIssues(metaTags, keywords, headings, images, c);
      if advice == [] {
        assert IssuesUnder(r[1..], c) == [];
      }
    }
    AllAdviceInOrder(metaTags, keywords, headings, images);
  }

  // ---------------------------------------------------------------------------
  // The whole analysis
  // ---------------------------------------------------------------------------

  datatype AnalysisResult = AnalysisResult(
    pageId: string,
    siteId: string,
    score: SeoScore,
    metaTags: MetaTagAnalysis,
    keywords: KeywordAnalysis,
    headings: HeadingStructure,
    images: ImageAnalysis,
    recommendations: seq<Recommendation>)

  /** Every score the four analyses produce lies in [0, 100]. */
  lemma ComponentScoresInRange(page: ParsedPage)
    ensures var m := AnalyzeMetaTags(page.titleText, page.descriptionContent);
      m.title.score in {0, 70, 80, 100} && m.description.score in {0, 70, 80, 100}
    ensures 0 <= KeywordAnalysisOf(page.bodyText).score <= 100
    ensures 0 <= HeadingStructureOf(page.headings).score <= 100
    ensures 0.0 <= ImageAnalysisOf(page.images).score <= 100.0
  {
    var k := KeywordAnalysisOf(page.bodyText);
    assert k.score in {100, 80, 75, 70, 50, 45};
  }

  /** `analyze`: the four analyses, the overall score and the recommendations for one page. */
  method Analyze(pageId: string, siteId: string, page: ParsedPage) returns (result: AnalysisResult)
    ensures result.pageId == pageId && result.siteId == siteId
    ensures result.metaTags == AnalyzeMetaTags(page.titleText, page.descriptionContent)
    ensures result.keywords == KeywordAnalysisOf(page.bodyText)
    ensures result.headings == HeadingStructureOf(page.headings)
    ensures result.images == ImageAnalysisOf(page.images)
    ensures result.score == CalculateOverallScore(result.metaTags, result.keywords, result.headings, result.images)
    ensures result.score.overall == Round(0.4 * MetaScore(result.metaTags) +
      0.2 * (result.keywords.score + result.headings.score) as real + 0.2 * result.images.score)
    ensures result.recommendations == [WellOptimized] <==>
      result.metaTags.title.score == 100 && result.metaTags.description.score == 100 &&
      result.keywords.score == 100 && result.headings.score == 100 && result.images.issues == []
    ensures result.recommendations == GenerateRecommendations(result.metaTags, result.keywords, result.headings, result.images)
  {
    var metaTags := AnalyzeMetaTags(page.titleText, page.descriptionContent);
    var keywords := AnalyzeKeywords(page.bodyText);
    var headings := AnalyzeHeadings(page.headings);
    var images := AnalyzeImages(page.images);
    ComponentScoresInRange(page);
    OverallUnclamped(metaTags, keywords, headings, images);
    var score := CalculateOverallScore(metaTags, keywords, headings, images);
    var recommendations := GenerateRecommendations(metaTags, keywords, headings, images);
    RecommendationsProperties(metaTags, keywords, headings, images);
    result := AnalysisResult(pageId, siteId, score, metaTags, keywords, headings, images, recommendations);
  }
}
