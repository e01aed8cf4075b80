/**
 * The checklist logic of `routes/seo.js`: the bulk `analyze-seo` handler,
 * which takes 15 points off for every issue.
 */
module RoutesJs {
  import opened Wrappers
  import opened JsMath
  import opened SiteChecklist

  /** The issues are pushed one check at a time. */
  method CheckIssues(seo: PageSeo) returns (issues: seq<ChecklistIssue>)
    ensures issues == ChecklistOf(seo)
  {
    issues := [];
    // The pushes so far, as the checklist writes them.
    ghost var pushed: seq<ChecklistIssue> := [];
    if TooShort(seo.title, TitleMin) {
      issues := issues + [TitleTooShort];
    }
    pushed := pushed + When(TooShort(seo.title, TitleMin), TitleTooShort);
    assert issues == pushed;
    if TooLong(seo.title, TitleMax) {
      issues := issues + [TitleTooLong];
    }
    pushed := pushed + When(TooLong(seo.title, TitleMax), TitleTooLong);
    assert issues == pushed;
    if TooShort(seo.description, DescriptionMin) {
      issues := issues + [DescriptionTooShort];
    }
    pushed := pushed + When(TooShort(seo.description, DescriptionMin), DescriptionTooShort);
    assert issues == pushed;
    if TooLong(seo.description, DescriptionMax) {
      issues := issues + [DescriptionTooLong];
    }
    pushed := pushed + When(TooLong(seo.description, DescriptionMax), DescriptionTooLong);
    assert issues == pushed;
    if Falsy(OgTitle(seo)) {
      issues := issues + [MissingOgTitle];
    }
    pushed := pushed + When(Falsy(OgTitle(seo)), MissingOgTitle);
    assert issues == pushed;
    if Falsy(OgDescription(seo)) {
      issues := issues + [MissingOgDescription];
    }
    pushed := pushed + When(Falsy(OgDescription(seo)), MissingOgDescription);
    assert issues == pushed;
  }

  /** `Math.max(0, 100 - issues.length * 15)`. */
  function PageScore(issues: seq<ChecklistIssue>): (score: int)
    ensures score >= 0
    ensures |issues| <= 4 ==> score == 100 - 15 * |issues|
  {
    Max(0, 100 - |issues| * 15)
  }

  /** At most four checks fire, so a page scores 100, 85, 70, 55 or 40. */
  lemma ScoreSteps(seo: PageSeo)
    ensures PageScore(ChecklistOf(seo)) in {100, 85, 70, 55, 40}
    ensures PageScore(ChecklistOf(seo)) == 100 <==> ChecklistOf(seo) == []
    ensures 40 <= PageScore(ChecklistOf(seo)) <= 100
  {
    ChecklistProperties(seo);
    var n := |ChecklistOf(seo)|;
    assert n == 0 || n == 1 || n == 2 || n == 3 || n == 4;
  }

  /** One entry of the `pages` array: the page's issues and its score. */
  method CheckPage(seo: PageSeo) returns (report: PageReport)
    ensures report.issues == ChecklistOf(seo)
    ensures report.score == PageScore(report.issues)
  {
    var issues := CheckIssues(seo);
    report := PageReport(issues, PageScore(issues));
  }

  /** The bulk handler: the checklist and score of every page, then the summary. */
  method AnalyzeSite(pages: seq<PageSeo>) returns (reports: seq<PageReport>, summary: Summary)
    ensures |reports| == |pages|
    ensures forall i :: 0 <= i < |pages| ==>
      reports[i].issues == ChecklistOf(pages[i]) && reports[i].score == PageScore(reports[i].issues)
    ensures summary == Summarize(reports)
    ensures pages != [] ==> 40 <= summary.averageScore.value <= 100
  {
    reports := [];
    var i := 0;
    while i < |pages|
      invariant i <= |pages| && |reports| == i
      invariant forall j :: 0 <= j < i ==>
        reports[j].issues == ChecklistOf(pages[j]) && reports[j].score == PageScore(reports[j].issues)
    {
      var report := CheckPage(pages[i]);
      reports := reports + [report];
      i := i + 1;
    }
    summary := Summarize(reports);
    if pages != [] {
      AverageOfChecked(pages, reports);
    }
  }

  /** Every page scores between 40 and 100, and so does the average of a non-empty site. */
  lemma AverageOfChecked(pages: seq<PageSeo>, reports: seq<PageReport>)
    requires pages != [] && |reports| == |pages|
    requires forall i :: 0 <= i < |pages| ==>
      reports[i].issues == ChecklistOf(pages[i]) && reports[i].score == PageScore(reports[i].issues)
    ensures 40 <= Summarize(reports).averageScore.value <= 100
  {
    forall j | 0 <= j < |reports| ensures 40 <= reports[j].score <= 100 {
      ScoreSteps(pages[j]);
    }
    AverageWithin(reports, 40, 100);
  }
}
