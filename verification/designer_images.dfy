/**
 * The image pass of the Designer extension: what it records about each
 * `img` element (`analyzeAllImages`) and the issues it draws from those
 * records (`checkImagesForAltText`).
 */
module DesignerImages {
  import opened Seqs
  import opened Text
  import opened JsMath
  import opened DesignerIssues

  datatype ImageAnalysis = ImageAnalysis(
    src: string,
    alt: string,
    filename: string,
    hasAlt: bool,
    altLength: nat,
    isGenericAlt: bool,
    isDescriptiveFilename: bool)

  // ---------------------------------------------------------------------------
  // File names
  // ---------------------------------------------------------------------------

  predicate IsSlash(c: char) { c == '/' }

  predicate IsQuery(c: char) { c == '?' }

  /** `src.split('/').pop()?.split('?')[0] || ''`: the last path segment without its query. */
  function Filename(src: string): string {
    var segments := SplitEach(src, IsSlash);
    SplitEach(segments[|segments| - 1], IsQuery)[0]
  }

  /** The file name is made of characters of the source and holds no `/` and no `?`; a plain name is its own file name. */
  lemma FilenameProperties(src: string)
    ensures forall c :: c in Filename(src) ==> c in src && c != '/' && c != '?'
    ensures (forall i :: 0 <= i < |src| ==> src[i] != '/' && src[i] != '?') ==> Filename(src) == src
  {
    var segments := SplitEach(src, IsSlash);
    var last := segments[|segments| - 1];
    SplitEachPieces(src, IsSlash);
    assert last in segments;
    SplitEachPieces(last, IsQuery);
    assert SplitEach(last, IsQuery)[0] in SplitEach(last, IsQuery);
    if forall i :: 0 <= i < |src| ==> src[i] != '/' && src[i] != '?' {
      SplitEachWithoutSeparator(src, IsSlash);
      SplitEachWithoutSeparator(src, IsQuery);
    }
  }

  const ImageExtensions: set<string> := {"jpg", "jpeg", "png", "gif", "webp"}

  const CameraPrefixes: set<string> := {"img", "dsc", "dscn", "image", "photo", "picture", "untitled"}

  predicate IsDigit(c: char) { '0' <= c <= '9' }

  predicate AllDigits(s: string) {
    forall i :: 0 <= i < |s| ==> IsDigit(s[i])
  }

  /** `/^\d+\.(jpg|jpeg|png|gif|webp)$/` on a lower-cased name. */
  predicate NumberedImageName(s: string) {
    exists k :: 0 < k < |s| && AllDigits(s[..k]) && s[k] == '.' && s[k + 1..] in ImageExtensions
  }

  /** `/^(IMG|DSC|DSCN|image|photo|picture|untitled)[-_]?\d+\.(jpg|…)$/` on a lower-cased name. */
  predicate CameraName(s: string) {
    exists p :: p in CameraPrefixes && StartsWith(s, p) &&
      (NumberedImageName(s[|p|..]) ||
       (|s| > |p| && (s[|p|] == '-' || s[|p|] == '_') && NumberedImageName(s[|p| + 1..])))
  }

  /**
   * Neither pattern matches and the name is longer than eight characters.
   * The patterns carry the `i` flag; for these ASCII patterns that is
   * matching the lower-cased name.
   */
  predicate IsDescriptiveFilename(filename: string) {
    !CameraName(Lower(filename)) && |filename| > 8 && !NumberedImageName(Lower(filename))
  }

  lemma NumberedNameHasDot(t: string)
    ensures NumberedImageName(t) ==> '.' in t
  {
    if NumberedImageName(t) {
      var k :| 0 < k < |t| && AllDigits(t[..k]) && t[k] == '.' && t[k + 1..] in ImageExtensions;
      assert t[k] == '.';
    }
  }

  lemma DotFreeSuffix(s: string, i: nat)
    requires '.' !in s && i <= |s|
    ensures '.' !in s[i..]
  {
    assert forall j :: 0 <= j < |s[i..]| ==> s[i..][j] == s[i + j];
  }

  /** Both patterns need a dot, so a name without one is descriptive exactly when it is longer than eight characters. */
  lemma UndottedFilename(f: string)
    requires '.' !in f
    ensures IsDescriptiveFilename(f) <==> |f| > 8
  {
    var l := Lower(f);
    assert forall i :: 0 <= i < |l| ==> l[i] == LowerChar(f[i]) && f[i] != '.';
    assert '.' !in l;
    NumberedNameHasDot(l);
    forall p | p in CameraPrefixes && StartsWith(l, p)
      ensures !NumberedImageName(l[|p|..])
      ensures |l| > |p| ==> !NumberedImageName(l[|p| + 1..])
    {
      DotFreeSuffix(l, |p|);
      NumberedNameHasDot(l[|p|..]);
      if |l| > |p| {
        DotFreeSuffix(l, |p| + 1);
        NumberedNameHasDot(l[|p| + 1..]);
      }
    }
  }

  /** The file name the extension quotes as an example of a poor one is classified as poor. */
  lemma CameraExampleIsPoor()
    ensures !IsDescriptiveFilename("IMG_1234.jpg")
  {
    var l := Lower("IMG_1234.jpg");
    assert l == "img_1234.jpg";
    var t := l[4..];
    assert t[..4] == "1234" && t[4] == '.' && t[5..] == "jpg";
    assert NumberedImageName(t);
    assert StartsWith(l, "img") && l[3] == '_';
    assert CameraName(l);
  }

  // ---------------------------------------------------------------------------
  // Alt text
  // ---------------------------------------------------------------------------

  const GenericAltTerms: set<string> :=
    {"image", "photo", "picture", "img", "pic", "graphic", "banner", "icon", "logo", "untitled", "default"}

  /** The lower-cased, trimmed alt text is one of the generic terms, with or without a final period. */
  predicate IsGenericAlt(alt: string) {
    var a := Trim(Lower(alt));
    exists term :: term in GenericAltTerms && (a == term || a == term + ".")
  }

  /** The record `analyzeAllImages` pushes for an `img` element with these attributes. */
  function AnalyzeImage(src: string, alt: string): ImageAnalysis {
    var filename := Filename(src);
    ImageAnalysis(
      src, alt, filename,
      |Trim(alt)| > 0,
      |Trim(alt)|,
      IsGenericAlt(alt),
      IsDescriptiveFilename(filename))
  }

  /** A generic alt text is present and three to nine characters long after trimming, so never counted as too long. */
  lemma GenericAltIsShort(alt: string)
    requires IsGenericAlt(alt)
    ensures 3 <= |Trim(alt)| <= 9
  {
    TrimLower(alt);
    var a := Trim(Lower(alt));
    var term :| term in GenericAltTerms && (a == term || a == term + ".");
    assert forall t :: t in GenericAltTerms ==> 3 <= |t| <= 8;
  }

  // ---------------------------------------------------------------------------
  // checkImagesForAltText
  // ---------------------------------------------------------------------------

  const WordsPerImage: nat := 300

  predicate MissingAlt(img: ImageAnalysis) { !img.hasAlt }

  predicate GenericAltImage(img: ImageAnalysis) { img.hasAlt && img.isGenericAlt }

  predicate ShortAltImage(img: ImageAnalysis) { img.hasAlt && img.altLength < 5 }

  predicate LongAltImage(img: ImageAnalysis) { img.hasAlt && img.altLength > 125 }

  predicate PoorFilenameImage(img: ImageAnalysis) { !img.isDescriptiveFilename }

  predicate KeywordInAlt(keyword: string, img: ImageAnalysis) {
    img.hasAlt && keyword != [] && Contains(Lower(img.alt), keyword)
  }

  function Count(images: seq<ImageAnalysis>, p: ImageAnalysis -> bool): nat {
    |Filter(images, p)|
  }

  /** The six tallies of the `images.forEach` pass. */
  datatype ImageCounts = ImageCounts(
    imagesWithoutAlt: nat,
    genericAltTexts: nat,
    tooShortAlt: nat,
    tooLongAlt: nat,
    poorFilenames: nat,
    keywordInAltCount: nat)

  /** How many images fall under each tally. */
  function CountsOf(images: seq<ImageAnalysis>, keyword: string): ImageCounts {
    ImageCounts(
      Count(images, MissingAlt),
      Count(images, GenericAltImage),
      Count(images, ShortAltImage),
      Count(images, LongAltImage),
      Count(images, PoorFilenameImage),
      Count(images, img => KeywordInAlt(keyword, img)))
  }

  /**
   * The issues of `checkImagesForAltText`, in the order it raises them, for
   * the (lower-cased, trimmed) focus keyword and the cached word count (0
   * when there is no cache).
   */
  function AltTextIssues(images: seq<ImageAnalysis>, keyword: string, cachedWordCount: nat): seq<Issue> {
    if images == [] then [Raise(NoImages)] else IssuesFromCounts(|images|, CountsOf(images, keyword), keyword, cachedWordCount)
  }

  /** The first push: the error for the images without alt text, or the success when there are none. */
  function AltSummary(n: nat, c: ImageCounts): Issue {
    if c.imagesWithoutAlt > 0 then Raise(ImagesMissingAlt(c.imagesWithoutAlt, n)) else Raise(AllImagesHaveAlt(n))
  }

  /** The summary, then the pushes that follow it, in order. */
  function IssuesFromCounts(n: nat, c: ImageCounts, keyword: string, cachedWordCount: nat): seq<Issue> {
    CountIssues(n, c) + KeywordAltIssues(n, c, keyword) + ImageCountIssues(n, cachedWordCount)
  }

  /** The summary and the alt-text and file-name tallies. */
  function CountIssues(n: nat, c: ImageCounts): seq<Issue> {
    [AltSummary(n, c)]
    + When(c.genericAltTexts > 0, GenericAlt(c.genericAltTexts))
    + When(c.tooShortAlt > 0, AltTooShort(c.tooShortAlt))
    + When(c.tooLongAlt > 0, AltTooLong(c.tooLongAlt))
    + When(c.poorFilenames > 0, PoorFilenames(c.poorFilenames))
  }

  /** With a focus keyword: no alt text holds it, or more than half of them do. */
  function KeywordAltIssues(n: nat, c: ImageCounts, keyword: string): seq<Issue> {
    if keyword == [] then []
    else if c.keywordInAltCount == 0 then [Raise(KeywordNotInAnyAlt)]
    else if 2 * c.keywordInAltCount > n then [Raise(KeywordOverusedInAlt(c.keywordInAltCount, n))]
    else []
  }

  /** Fewer than four images and fewer than one per 300 cached words. */
  function ImageCountIssues(n: nat, cachedWordCount: nat): seq<Issue> {
    var recommended := CeilDiv(cachedWordCount, WordsPerImage);
    if cachedWordCount != 0 && n < recommended && n < 4 then [Raise(ConsiderMoreImages(recommended - n))] else []
  }

  /**
   * The alt-text summary is an error exactly when some image has no alt
   * text, and otherwise the success that all of them have one.
   */
  lemma AltSummaryReportsMissingAlt(images: seq<ImageAnalysis>, keyword: string)
    ensures AltSummary(|images|, CountsOf(images, keyword)).severity == Error <==>
            exists i :: 0 <= i < |images| && !images[i].hasAlt
    ensures (forall i :: 0 <= i < |images| ==> images[i].hasAlt) ==>
            AltSummary(|images|, CountsOf(images, keyword)) == Raise(AllImagesHaveAlt(|images|))
  {
    FilterEmptyIff(images, MissingAlt);
  }

  /** With at least one image the summary comes first. */
  lemma AltSummaryFirst(images: seq<ImageAnalysis>, keyword: string, cachedWordCount: nat)
    requires images != []
    ensures AltTextIssues(images, keyword, cachedWordCount)[0] == AltSummary(|images|, CountsOf(images, keyword))
  {
    var n := |images|;
    var c := CountsOf(images, keyword);
    var head := [AltSummary(n, c)] + When(c.genericAltTexts > 0, GenericAlt(c.genericAltTexts));
    assert head[0] == AltSummary(n, c);
  }

  /** Without any image the pass reports that alone. */
  lemma NoImagesAlone(keyword: string, cachedWordCount: nat)
    ensures AltTextIssues([], keyword, cachedWordCount) == [Raise(NoImages)]
  { }

  /** The `images.forEach` pass: each image adds to the tallies it falls under. */
  method CountImages(images: seq<ImageAnalysis>, keyword: string) returns (c: ImageCounts)
    ensures c == CountsOf(images, keyword)
  {
    c := ImageCounts(0, 0, 0, 0, 0, 0);
    var i := 0;
    while i < |images|
      invariant i <= |images|
      invariant c == CountsOf(images[..i], keyword)
    {
      PrefixSnoc(images, i);
      CountsOfSnoc(images[..i], images[i], keyword);
      c := TallyImage(images[i], keyword, c);
      i := i + 1;
    }
    assert images[..i] == images;
  }

  /** The tallies after one more image: each goes up by one when the image falls under it. */
  function Tallied(c: ImageCounts, img: ImageAnalysis, keyword: string): ImageCounts {
    ImageCounts(
      c.imagesWithoutAlt + (if MissingAlt(img) then 1 else 0),
      c.genericAltTexts + (if GenericAltImage(img) then 1 else 0),
      c.tooShortAlt + (if ShortAltImage(img) then 1 else 0),
      c.tooLongAlt + (if LongAltImage(img) then 1 else 0),
      c.poorFilenames + (if PoorFilenameImage(img) then 1 else 0),
      c.keywordInAltCount + (if KeywordInAlt(keyword, img) then 1 else 0))
  }

  lemma CountsOfSnoc(images: seq<ImageAnalysis>, img: ImageAnalysis, keyword: string)
    ensures CountsOf(images + [img], keyword) == Tallied(CountsOf(images, keyword), img, keyword)
  {
    FilterSnoc(images, img, MissingAlt);
    FilterSnoc(images, img, GenericAltImage);
    FilterSnoc(images, img, ShortAltImage);
    FilterSnoc(images, img, LongAltImage);
    FilterSnoc(images, img, PoorFilenameImage);
    FilterSnoc(images, img, i => KeywordInAlt(keyword, i));
  }

  /** The body of the `images.forEach` pass for one image. */
  method TallyImage(img: ImageAnalysis, keyword: string, c: ImageCounts) returns (r: ImageCounts)
    ensures r == Tallied(c, img, keyword)
  {
    var imagesWithoutAlt, genericAltTexts, tooShortAlt, tooLongAlt, poorFilenames, keywordInAltCount :=
      c.imagesWithoutAlt, c.genericAltTexts, c.tooShortAlt, c.tooLongAlt, c.poorFilenames, c.keywordInAltCount;
    if !img.hasAlt {
      imagesWithoutAlt := imagesWithoutAlt + 1;
    } else {
      if img.isGenericAlt {
        genericAltTexts := genericAltTexts + 1;
      }
      if img.altLength < 5 {
        tooShortAlt := tooShortAlt + 1;
      }
      if img.altLength > 125 {
        tooLongAlt := tooLongAlt + 1;
      }
      if keyword != [] && Contains(Lower(img.alt), keyword) {
        keywordInAltCount := keywordInAltCount + 1;
      }
    }
    if !img.isDescriptiveFilename {
      poorFilenames := poorFilenames + 1;
    }
    r := ImageCounts(imagesWithoutAlt, genericAltTexts, tooShortAlt, tooLongAlt, poorFilenames, keywordInAltCount);
  }


  /** `checkImagesForAltText` on the images `analyzeAllImages` found: the tallies, then the pushes in order. */
  method CheckImagesForAltText(images: seq<ImageAnalysis>, keyword: string, cachedWordCount: nat)
    returns (issues: seq<Issue>)
    ensures issues == AltTextIssues(images, keyword, cachedWordCount)
  {
    if |images| == 0 {
      issues := [Raise(NoImages)];
      return;
    }
    var c := CountImages(images, keyword);
    issues := ReportImageIssues(|images|, c, keyword, cachedWordCount);
  }

  /** The pushes of `checkImagesForAltText` after the tallies, for `n` images. */
  method ReportImageIssues(n: nat, c: ImageCounts, keyword: string, cachedWordCount: nat)
    returns (issues: seq<Issue>)
    ensures issues == IssuesFromCounts(n, c, keyword, cachedWordCount)
  {
    if c.imagesWithoutAlt > 0 {
      issues := [Raise(ImagesMissingAlt(c.imagesWithoutAlt, n))];
    } else {
      issues := [Raise(AllImagesHaveAlt(n))];
    }
    assert issues == [AltSummary(n, c)];
    if c.genericAltTexts > 0 {
      issues := issues + [Raise(GenericAlt(c.genericAltTexts))];
    }
    assert issues == [AltSummary(n, c)] + When(c.genericAltTexts > 0, GenericAlt(c.genericAltTexts));
    ghost var pushed := issues;
    if c.tooShortAlt > 0 {
      issues := issues + [Raise(AltTooShort(c.tooShortAlt))];
    }
    assert issues == pushed + When(c.tooShortAlt > 0, AltTooShort(c.tooShortAlt));
    pushed := issues;
    if c.tooLongAlt > 0 {
      issues := issues + [Raise(AltTooLong(c.tooLongAlt))];
    }
    assert issues == pushed + When(c.tooLongAlt > 0, AltTooLong(c.tooLongAlt));
    pushed := issues;
    if c.poorFilenames > 0 {
      issues := issues + [Raise(PoorFilenames(c.poorFilenames))];
    }
    assert issues == pushed + When(c.poorFilenames > 0, PoorFilenames(c.poorFilenames));
    assert issues == CountIssues(n, c);
    pushed := issues;
    if keyword != [] {
      if c.keywordInAltCount == 0 {
        issues := issues + [Raise(KeywordNotInAnyAlt)];
      } else if 2 * c.keywordInAltCount > n {
        issues := issues + [Raise(KeywordOverusedInAlt(c.keywordInAltCount, n))];
      }
    }
    assert issues == pushed + KeywordAltIssues(n, c, keyword);
    pushed := issues;
    if cachedWordCount != 0 {
      var recommendedImages := CeilDiv(cachedWordCount, WordsPerImage);
      if n < recommendedImages && n < 4 {
        issues := issues + [Raise(ConsiderMoreImages(recommendedImages - n))];
      }
    }
    assert issues == pushed + ImageCountIssues(n, cachedWordCount);
  }
}
