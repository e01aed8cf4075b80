/**
 * The checklist logic of `src/routes/seo.ts`: the penalty score of the bulk
 * `analyze-seo` handler and the input checks of the single-page `analyze`
 * endpoint. Routing, authentication and the Webflow API calls are not part
 * of this model.
 */
module RoutesTs {
  import opened Wrappers
  import opened Seqs
  import opened JsMath
  import opened SiteChecklist
  import SeoAnalyzer

  /** What each issue takes off the starting score of 100. */
  function Penalty(issue: ChecklistIssue): int {
    match issue
    case TitleTooShort => 15
    case TitleTooLong => 10
    case DescriptionTooShort => 15
    case DescriptionTooLong => 10
    case MissingOgTitle => 10
    case MissingOgDescription => 10
  }

  /** The checks run one after the other, each pushing its issue and lowering `score`. */
  method CheckPage(seo: PageSeo) returns (report: PageReport)
    ensures report.issues == ChecklistOf(seo)
    ensures report.score == Max(0, 100 - SumOf(report.issues, Penalty))
  {
    var issues: seq<ChecklistIssue> := [];
    var score := 100;
    // The pushes so far, as the checklist writes them.
    ghost var pushed: seq<ChecklistIssue> := [];
    if TooShort(seo.title, TitleMin) {
      issues := issues + [TitleTooShort];
      score := score - 15;
    }
    pushed := pushed + When(TooShort(seo.title, TitleMin), TitleTooShort);
    assert issues == pushed;
    if TooLong(seo.title, TitleMax) {
      issues := issues + [TitleTooLong];
      score := score - 10;
    }
    pushed := pushed + When(TooLong(seo.title, TitleMax), TitleTooLong);
    assert issues == pushed;
    if TooShort(seo.description, DescriptionMin) {
      issues := issues + [DescriptionTooShort];
      score := score - 15;
    }
    pushed := pushed + When(TooShort(seo.description, DescriptionMin), DescriptionTooShort);
    assert issues == pushed;
    if TooLong(seo.description, DescriptionMax) {
      issues := issues + [DescriptionTooLong];
      score := score - 10;
    }
    pushed := pushed + When(TooLong(seo.description, DescriptionMax), DescriptionTooLong);
    assert issues == pushed;
    if Falsy(OgTitle(seo)) {
      issues := issues + [MissingOgTitle];
      score := score - 10;
    }
    pushed := pushed + When(Falsy(OgTitle(seo)), MissingOgTitle);
    assert issues == pushed;
    if Falsy(OgDescription(seo)) {
      issues := issues + [MissingOgDescription];
      score := score - 10;
    }
    pushed := pushed + When(Falsy(OgDescription(seo)), MissingOgDescription);
    assert issues == pushed;
    PenaltySum(seo);
    report := PageReport(issues, Max(0, score));
  }

  /** The penalties of the six checks, in order. */
  lemma PenaltySum(seo: PageSeo)
    ensures SumOf(ChecklistOf(seo), Penalty) ==
      (if TooShort(seo.title, TitleMin) then 15 else 0) +
      (if TooLong(seo.title, TitleMax) then 10 else 0) +
      (if TooShort(seo.description, DescriptionMin) then 15 else 0) +
      (if TooLong(seo.description, DescriptionMax) then 10 else 0) +
      (if Falsy(OgTitle(seo)) then 10 else 0) +
      (if Falsy(OgDescription(seo)) then 10 else 0)
  {
    var s1 := When(TooShort(seo.title, TitleMin), TitleTooShort);
    SumWhen([], TooShort(seo.title, TitleMin), TitleTooShort);
    assert [] + s1 == s1;
    var s2 := s1 + When(TooLong(seo.title, TitleMax), TitleTooLong);
    SumWhen(s1, TooLong(seo.title, TitleMax), TitleTooLong);
    var s3 := s2 + When(TooShort(seo.description, DescriptionMin), DescriptionTooShort);
    SumWhen(s2, TooShort(seo.description, DescriptionMin), DescriptionTooShort);
    var s4 := s3 + When(TooLong(seo.description, DescriptionMax), DescriptionTooLong);
    SumWhen(s3, TooLong(seo.description, DescriptionMax), DescriptionTooLong);
    var s5 := s4 + When(Falsy(OgTitle(seo)), MissingOgTitle);
    SumWhen(s4, Falsy(OgTitle(seo)), MissingOgTitle);
    SumWhen(s5, Falsy(OgDescription(seo)), MissingOgDescription);
  }

  /** One conditional push adds its penalty exactly when it fires. */
  lemma SumWhen(a: seq<ChecklistIssue>, c: bool, issue: ChecklistIssue)
    ensures SumOf(a + When(c, issue), Penalty) == SumOf(a, Penalty) + (if c then Penalty(issue) else 0)
  {
    SumOfConcat(a, When(c, issue));
  }

  lemma SumOfConcat(a: seq<ChecklistIssue>, b: seq<ChecklistIssue>)
    requires |b| <= 1
    ensures SumOf(a + b, Penalty) == SumOf(a, Penalty) + (if b == [] then 0 else Penalty(b[0]))
  {
    if b == [] {
      assert a + b == a;
    } else {
      assert b == [b[0]];
      SumOfSnoc(a, b[0], Penalty);
    }
  }

  /**
   * The two title checks cannot both fire, nor the two description checks,
   * so at most 50 points are taken off and every page scores between 50
   * and 100.
   */
  lemma ScoreBetween50And100(seo: PageSeo)
    ensures 50 <= 100 - SumOf(ChecklistOf(seo), Penalty) <= 100
    ensures Max(0, 100 - SumOf(ChecklistOf(seo), Penalty)) == 100 - SumOf(ChecklistOf(seo), Penalty)
  {
    PenaltySum(seo);
  }

  /** The bulk handler: the checklist of every page, then the summary. */
  method AnalyzeSite(pages: seq<PageSeo>) returns (reports: seq<PageReport>, summary: Summary)
    ensures |reports| == |pages|
    ensures forall i :: 0 <= i < |pages| ==>
      reports[i].issues == ChecklistOf(pages[i]) && 50 <= reports[i].score <= 100
    ensures summary == Summarize(reports)
    ensures pages != [] ==> 50 <= summary.averageScore.value <= 100
  {
    reports := [];
    var i := 0;
    while i < |pages|
      invariant i <= |pages| && |reports| == i
      invariant forall j :: 0 <= j < i ==>
        reports[j].issues == ChecklistOf(pages[j]) && 50 <= reports[j].score <= 100
    {
      var report := CheckPage(pages[i]);
      ScoreBetween50And100(pages[i]);
      reports := reports + [report];
      i := i + 1;
    }
    summary := Summarize(reports);
    if pages != [] {
      AverageWithin(reports, 50, 100);
    }
  }

  /** The body of `POST /pages/:pageId/analyze`. */
  datatype AnalyzeBody = AnalyzeBody(siteId: Option<string>, html: Option<string>)

  datatype RequestError = SiteIdRequired | HtmlRequired

  /** The request handed to the analyzer. */
  datatype AnalysisRequest = AnalysisRequest(pageId: string, siteId: string, html: string)

  /** The 400 answers come first: a missing `siteId`, then missing HTML. */
  function ValidateAnalyze(pageId: string, body: AnalyzeBody): (r: Result<AnalysisRequest, RequestError>)
    ensures Falsy(body.siteId) ==> r == Err(SiteIdRequired)
    ensures !Falsy(body.siteId) && Falsy(body.html) ==> r == Err(HtmlRequired)
    ensures r.Ok? <==> !Falsy(body.siteId) && !Falsy(body.html)
    ensures r.Ok? ==> r.value == AnalysisRequest(pageId, body.siteId.value, body.html.value)
  {
    if Falsy(body.siteId) then Err(SiteIdRequired)
    else if Falsy(body.html) then Err(HtmlRequired)
    else Ok(AnalysisRequest(pageId, body.siteId.value, body.html.value))
  }

  /**
   * The endpoint: the analyzer runs only on a valid request, with the page
   * id taken from the path. `parse` stands for loading the HTML.
   */
  method AnalyzeEndpoint(pageId: string, body: AnalyzeBody, parse: string -> SeoAnalyzer.ParsedPage)
    returns (r: Result<SeoAnalyzer.AnalysisResult, RequestError>)
    ensures r.Err? <==> ValidateAnalyze(pageId, body).Err?
    ensures r.Err? ==> r.error == ValidateAnalyze(pageId, body).error
    ensures r.Ok? ==>
      r.value.pageId == pageId && r.value.siteId == body.siteId.value &&
      r.value.metaTags == SeoAnalyzer.AnalyzeMetaTags(parse(body.html.value).titleText,
                                                      parse(body.html.value).descriptionContent) &&
      r.value.keywords == SeoAnalyzer.KeywordAnalysisOf(parse(body.html.value).bodyText) &&
      r.value.headings == SeoAnalyzer.HeadingStructureOf(parse(body.html.value).headings) &&
      r.value.images == SeoAnalyzer.ImageAnalysisOf(parse(body.html.value).images) &&
      r.value.score == SeoAnalyzer.CalculateOverallScore(r.value.metaTags, r.value.keywords,
                                                         r.value.headings, r.value.images) &&
      r.value.recommendations == SeoAnalyzer.GenerateRecommendations(r.value.metaTags, r.value.keywords,
                                                                     r.value.headings, r.value.images)
  {
    var request := ValidateAnalyze(pageId, body);
    if request.Err? {
      return Err(request.error);
    }
    var req := request.value;
    var result := SeoAnalyzer.Analyze(req.pageId, req.siteId, parse(req.html));
    return Ok(result);
  }
}
