/**
 * The metadata checklist that both bulk `analyze-seo` handlers run on each
 * page's stored SEO settings, and the summary they return for the site.
 */
module SiteChecklist {
  import opened Wrappers
  import opened Seqs
  import opened JsMath

  const TitleMin := 30
  const TitleMax := 60
  const DescriptionMin := 120
  const DescriptionMax := 160

  datatype OpenGraph = OpenGraph(title: Option<string>, description: Option<string>)

  /** A page's `seo` settings; an absent `seo` object is the record with every field absent. */
  datatype PageSeo = PageSeo(title: Option<string>, description: Option<string>, openGraph: Option<OpenGraph>)

  /** One entry per message the checklist can push, in the order it checks them. */
  datatype ChecklistIssue =
    | TitleTooShort
    | TitleTooLong
    | DescriptionTooShort
    | DescriptionTooLong
    | MissingOgTitle
    | MissingOgDescription

  /** JavaScript falsiness of an optional string: absent, `null` or empty. */
  predicate Falsy(s: Option<string>) { s.None? || s.value == [] }

  function OgTitle(seo: PageSeo): Option<string> {
    if seo.openGraph.Some? then seo.openGraph.value.title else None
  }

  function OgDescription(seo: PageSeo): Option<string> {
    if seo.openGraph.Some? then seo.openGraph.value.description else None
  }

  /** `!s || s.length < min`. */
  predicate TooShort(s: Option<string>, min: nat) { Falsy(s) || |s.value| < min }

  /** `s && s.length > max`. */
  predicate TooLong(s: Option<string>, max: nat) { !Falsy(s) && |s.value| > max }

  /** `[issue]` when the check fires, nothing otherwise. */
  function When(b: bool, issue: ChecklistIssue): seq<ChecklistIssue> {
    if b then [issue] else []
  }

  /** The issues of one page, in the order the handler pushes them. */
  function ChecklistOf(seo: PageSeo): seq<ChecklistIssue> {
    When(TooShort(seo.title, TitleMin), TitleTooShort) +
    When(TooLong(seo.title, TitleMax), TitleTooLong) +
    When(TooShort(seo.description, DescriptionMin), DescriptionTooShort) +
    When(TooLong(seo.description, DescriptionMax), DescriptionTooLong) +
    When(Falsy(OgTitle(seo)), MissingOgTitle) +
    When(Falsy(OgDescription(seo)), MissingOgDescription)
  }

  /** The condition under which the checklist reports an issue. */
  predicate Fires(seo: PageSeo, issue: ChecklistIssue) {
    match issue
    case TitleTooShort => TooShort(seo.title, TitleMin)
    case TitleTooLong => TooLong(seo.title, TitleMax)
    case DescriptionTooShort => TooShort(seo.description, DescriptionMin)
    case DescriptionTooLong => TooLong(seo.description, DescriptionMax)
    case MissingOgTitle => Falsy(OgTitle(seo))
    case MissingOgDescription => Falsy(OgDescription(seo))
  }

  function Flag(b: bool): nat { if b then 1 else 0 }

  /**
   * An issue is reported exactly when its check fires; the too-short and
   * too-long checks of one field never fire together, so at most four
   * issues are reported.
   */
  lemma ChecklistProperties(seo: PageSeo)
    ensures forall issue :: issue in ChecklistOf(seo) <==> Fires(seo, issue)
    ensures !(Fires(seo, TitleTooShort) && Fires(seo, TitleTooLong))
    ensures !(Fires(seo, DescriptionTooShort) && Fires(seo, DescriptionTooLong))
    ensures |ChecklistOf(seo)| <= 4
  {
    assert |ChecklistOf(seo)| ==
      Flag(TooShort(seo.title, TitleMin)) + Flag(TooLong(seo.title, TitleMax)) +
      Flag(TooShort(seo.description, DescriptionMin)) + Flag(TooLong(seo.description, DescriptionMax)) +
      Flag(Falsy(OgTitle(seo))) + Flag(Falsy(OgDescription(seo)));
  }

  /** One entry of the `pages` array: the page's issues and its score. */
  datatype PageReport = PageReport(issues: seq<ChecklistIssue>, score: int)

  datatype Summary = Summary(totalPages: nat, averageScore: Option<int>, totalIssues: nat)

  function Score(p: PageReport): int { p.score }

  function IssueCount(p: PageReport): int { |p.issues| }

  /**
   * The `summary` object: the number of pages, the rounded mean score and the
   * number of issues over all pages. For no pages the mean is `NaN`, which
   * the JSON response carries as `null`: here it is absent.
   */
  function Summarize(pages: seq<PageReport>): (s: Summary)
    ensures s.totalPages == |pages|
    ensures s.totalIssues == SumOf(pages, IssueCount)
    ensures s.averageScore.None? <==> pages == []
    ensures pages != [] ==>
      var mean := SumOf(pages, Score) as real / |pages| as real;
      s.averageScore.value as real - 0.5 <= mean < s.averageScore.value as real + 0.5
  {
    SumOfIssuesNonNegative(pages);
    var average := if pages == [] then None
      else Some(Round(SumOf(pages, Score) as real / |pages| as real));
    Summary(|pages|, average, SumOf(pages, IssueCount))
  }

  lemma {:induction false} SumOfIssuesNonNegative(pages: seq<PageReport>)
    ensures SumOf(pages, IssueCount) >= 0
    decreases |pages|
  {
    if pages != [] {
      SumOfIssuesNonNegative(pages[1..]);
    }
  }

  lemma {:induction false} SumOfScoresBounds(pages: seq<PageReport>, lo: int, hi: int)
    requires forall i :: 0 <= i < |pages| ==> lo <= pages[i].score <= hi
    ensures lo * |pages| <= SumOf(pages, Score) <= hi * |pages|
    decreases |pages|
  {
    if pages != [] {
      SumOfScoresBounds(pages[1..], lo, hi);
    }
  }

  /** When every page scores within [lo, hi], so does the rounded average. */
  lemma AverageWithin(pages: seq<PageReport>, lo: int, hi: int)
    requires pages != []
    requires forall i :: 0 <= i < |pages| ==> lo <= pages[i].score <= hi
    ensures lo <= Summarize(pages).averageScore.value <= hi
  {
    SumOfScoresBounds(pages, lo, hi);
    MeanWithin(SumOf(pages, Score), |pages|, lo, hi);
  }

  /** A sum of `n` values within [lo, hi], divided by `n`, lies within [lo, hi]. */
  lemma MeanWithin(sum: int, n: nat, lo: int, hi: int)
    requires n > 0
    requires lo * n <= sum <= hi * n
    ensures lo as real <= sum as real / n as real <= hi as real
  {
    var m := sum as real / n as real;
    assert m * n as real == sum as real;
    assert lo as real * n as real <= m * n as real <= hi as real * n as real;
  }
}
