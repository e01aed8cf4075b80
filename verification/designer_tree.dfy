/**
 * The Designer's element tree and the walks the extension makes over it:
 * collecting headings, links and images, counting headings of one level,
 * and extracting the page text. Every walk visits an element and then its
 * children in order; `PreOrder` is that order, and each walk is proved to
 * produce what `PreOrder` gives for its own per-element visit.
 */
module DesignerTree {
  import opened Wrappers
  import opened Seqs
  import opened Text
  import opened DesignerIssues
  import opened DesignerImages

  /** The element types the walks tell apart: text nodes, headings, and everything else. */
  datatype Kind = StringNode(text: string) | Heading(level: nat) | OtherKind

  /**
   * An element as the walks see it: its kind, its tag when it has one, its
   * attributes, whether it supports text content, and its children.
   */
  datatype Element = Element(
    kind: Kind,
    tag: Option<string>,
    attributes: map<string, string>,
    textContent: bool,
    children: seq<Element>)

  /** `getAttribute(name)`, which is null when the attribute is absent. */
  function Attribute(e: Element, name: string): Option<string> {
    if name in e.attributes then Some(e.attributes[name]) else None
  }

  /** `value || ''`. */
  function OrEmpty(s: Option<string>): string {
    if s.Some? then s.value else ""
  }

  predicate HasTag(e: Element, tag: string) {
    e.tag == Some(tag)
  }

  // ---------------------------------------------------------------------------
  // Pre-order walks
  // ---------------------------------------------------------------------------

  /** What a walk gathers: the element's own contribution, then its children's walks in order. */
  function PreOrder<T>(e: Element, visit: Element -> seq<T>): seq<T>
    decreases e, |e.children| + 1
  {
    visit(e) + PreOrderFrom(e, 0, visit)
  }

  /** The walks of the children from index `i` on. */
  function PreOrderFrom<T>(e: Element, i: nat, visit: Element -> seq<T>): seq<T>
    requires i <= |e.children|
    decreases e, |e.children| - i
  {
    if i == |e.children| then [] else PreOrder(e.children[i], visit) + PreOrderFrom(e, i + 1, visit)
  }

  /** Before the loop over the children: what a walk has appended is the element's own contribution. */
  lemma PreOrderLoopEntry<T>(e: Element, visit: Element -> seq<T>, acc: seq<T>, r: seq<T>)
    requires r == acc + visit(e)
    ensures r + PreOrderFrom(e, 0, visit) == acc + PreOrder(e, visit)
  {
  }

  /** One turn of the loop over the children: the walk of child `i` moves from what remains to what is done. */
  lemma PreOrderLoopStep<T>(e: Element, i: nat, visit: Element -> seq<T>, acc: seq<T>, r: seq<T>, r': seq<T>)
    requires i < |e.children|
    requires r + PreOrderFrom(e, i, visit) == acc + PreOrder(e, visit)
    requires r' == r + PreOrder(e.children[i], visit)
    ensures r' + PreOrderFrom(e, i + 1, visit) == acc + PreOrder(e, visit)
  {
    var child := PreOrder(e.children[i], visit);
    var rest := PreOrderFrom(e, i + 1, visit);
    assert PreOrderFrom(e, i, visit) == child + rest;
    assert (r + child) + rest == r + (child + rest);
  }

  /** A property every element contributes only values of, every walk gathers only values of. */
  lemma {:induction false} PreOrderAll<T>(e: Element, visit: Element -> seq<T>, P: T -> bool)
    requires forall n: Element, x :: x in visit(n) ==> P(x)
    ensures forall x :: x in PreOrder(e, visit) ==> P(x)
    decreases e, |e.children| + 1
  {
    PreOrderFromAll(e, 0, visit, P);
  }

  lemma {:induction false} PreOrderFromAll<T>(e: Element, i: nat, visit: Element -> seq<T>, P: T -> bool)
    requires i <= |e.children|
    requires forall n: Element, x :: x in visit(n) ==> P(x)
    ensures forall x :: x in PreOrderFrom(e, i, visit) ==> P(x)
    decreases e, |e.children| - i
  {
    if i < |e.children| {
      PreOrderAll(e.children[i], visit, P);
      PreOrderFromAll(e, i + 1, visit, P);
    }
  }

  // ---------------------------------------------------------------------------
  // Text of String children
  // ---------------------------------------------------------------------------

  /** A String child with text adds that text and a space; any other child adds nothing. */
  function StringPiece(child: Element): string {
    if child.kind.StringNode? && child.kind.text != [] then child.kind.text + " " else []
  }

  /** The text the loops over String children gather, before trimming. */
  function StringText(children: seq<Element>): string {
    if children == [] then [] else StringText(children[..|children| - 1]) + StringPiece(children[|children| - 1])
  }

  /** The `for (const child of children) if (child.type === 'String') …` loop. */
  method CollectStringText(children: seq<Element>) returns (text: string)
    ensures text == StringText(children)
  {
    text := "";
    var i := 0;
    while i < |children|
      invariant i <= |children|
      invariant text == StringText(children[..i])
    {
      var child := children[i];
      assert children[..i + 1][..i] == children[..i];
      if child.kind.StringNode? {
        var childText := child.kind.text;
        if childText != [] {
          text := text + childText + " ";
        }
      }
      i := i + 1;
    }
    assert children[..i] == children;
  }

  // ---------------------------------------------------------------------------
  // analyzeHeadingStructure and countHeadingsByLevel
  // ---------------------------------------------------------------------------

  datatype HeadingInfo = HeadingInfo(level: nat, text: string, tag: string)

  /** The record for a heading of this level whose String children gave `raw`. */
  function HeadingRecord(level: nat, raw: string): HeadingInfo {
    var text := Trim(raw);
    HeadingInfo(level, if text != [] then text else "Empty H" + N(level), "H" + N(level))
  }

  function HeadingVisit(e: Element): seq<HeadingInfo> {
    if e.kind.Heading? then [HeadingRecord(e.kind.level, StringText(e.children))] else []
  }

  /** The headings of the tree in document order. */
  function Headings(root: Element): seq<HeadingInfo> {
    PreOrder(root, HeadingVisit)
  }

  /** Every collected heading has a non-empty text and the tag `H<level>`. */
  lemma HeadingsAreLabelled(root: Element)
    ensures forall h :: h in Headings(root) ==> h.text != [] && h.tag == "H" + N(h.level)
  {
    PreOrderAll(root, HeadingVisit, (h: HeadingInfo) => h.text != [] && h.tag == "H" + N(h.level));
  }

  /** `analyzeHeadingStructure(element, headings)`: appends the headings of the subtree to `headings`. */
  method AnalyzeHeadingStructure(element: Element, headings: seq<HeadingInfo>) returns (r: seq<HeadingInfo>)
    ensures r == headings + PreOrder(element, HeadingVisit)
    decreases element
  {
    r := headings;
    if element.kind.Heading? {
      var level := element.kind.level;
      var text := CollectStringText(element.children);
      r := r + [HeadingRecord(level, text)];
    }
    PreOrderLoopEntry(element, HeadingVisit, headings, r);
    var i := 0;
    while i < |element.children|
      invariant i <= |element.children|
      invariant r + PreOrderFrom(element, i, HeadingVisit) == headings + PreOrder(element, HeadingVisit)
    {
      var r' := AnalyzeHeadingStructure(element.children[i], r);
      PreOrderLoopStep(element, i, HeadingVisit, headings, r, r');
      r := r';
      i := i + 1;
    }
  }

  predicate AtLevel(level: nat, h: HeadingInfo) {
    h.level == level
  }

  /** How many of the collected headings have the given level. */
  function LevelCount(headings: seq<HeadingInfo>, level: nat): nat {
    |Filter(headings, h => AtLevel(level, h))|
  }

  lemma LevelCountConcat(a: seq<HeadingInfo>, b: seq<HeadingInfo>, level: nat)
    ensures LevelCount(a + b, level) == LevelCount(a, level) + LevelCount(b, level)
  {
    FilterConcat(a, b, h => AtLevel(level, h));
  }

  /** An element contributes one heading of a level exactly when it is a heading of that level. */
  lemma HeadingVisitCount(e: Element, level: nat)
    ensures LevelCount(HeadingVisit(e), level) == if e.kind.Heading? && e.kind.level == level then 1 else 0
  {
    if e.kind.Heading? {
      var h := HeadingRecord(e.kind.level, StringText(e.children));
      assert Filter([h], x => AtLevel(level, x)) == (if AtLevel(level, h) then [h] else []) + Filter([h][1..], x => AtLevel(level, x));
    }
  }

  /** The count of a walk splits into the element's own and its children's. */
  lemma LevelCountEntry(e: Element, level: nat)
    ensures LevelCount(PreOrder(e, HeadingVisit), level)
         == (if e.kind.Heading? && e.kind.level == level then 1 else 0) + LevelCount(PreOrderFrom(e, 0, HeadingVisit), level)
  {
    HeadingVisitCount(e, level);
    LevelCountConcat(HeadingVisit(e), PreOrderFrom(e, 0, HeadingVisit), level);
  }

  /** The count over the children from `i` on splits into child `i`'s and the rest's. */
  lemma LevelCountStep(e: Element, i: nat, level: nat)
    requires i < |e.children|
    ensures LevelCount(PreOrderFrom(e, i, HeadingVisit), level)
         == LevelCount(PreOrder(e.children[i], HeadingVisit), level) + LevelCount(PreOrderFrom(e, i + 1, HeadingVisit), level)
  {
    LevelCountConcat(PreOrder(e.children[i], HeadingVisit), PreOrderFrom(e, i + 1, HeadingVisit), level);
  }

  /**
   * `countHeadingsByLevel`: the extension counts the H1s with this walk and
   * reads the keyword placement and hierarchy from `analyzeHeadingStructure`;
   * the count is proved to agree with the headings that walk collects.
   */
  method CountHeadingsByLevel(element: Element, level: nat) returns (count: nat)
    ensures count == LevelCount(PreOrder(element, HeadingVisit), level)
    decreases element, 1
  {
    count := 0;
    if element.kind.Heading? {
      var headingLevel := element.kind.level;
      if headingLevel == level {
        count := count + 1;
      }
    }
    LevelCountEntry(element, level);
    var childCount := CountChildHeadings(element, level);
    count := count + childCount;
  }

  /** The loop of `countHeadingsByLevel` over the children, adding up their counts. */
  method CountChildHeadings(element: Element, level: nat) returns (count: nat)
    ensures count == LevelCount(PreOrderFrom(element, 0, HeadingVisit), level)
    decreases element, 0
  {
    count := 0;
    ghost var total := LevelCount(PreOrderFrom(element, 0, HeadingVisit), level);
    var i := 0;
    while i < |element.children|
      invariant i <= |element.children|
      invariant count + LevelCount(PreOrderFrom(element, i, HeadingVisit), level) == total
    {
      LevelCountStep(element, i, level);
      var childCount := CountHeadingsByLevel(element.children[i], level);
      count := count + childCount;
      i := i + 1;
    }
  }

  // ---------------------------------------------------------------------------
  // collectAllLinks
  // ---------------------------------------------------------------------------

  datatype Link = Link(href: string, text: string, nofollow: bool)

  /** An `a` element with a non-empty `href` gives one link; its `rel` marks it nofollow. */
  function LinkVisit(e: Element): seq<Link> {
    if HasTag(e, "a") then
      var href := Attribute(e, "href");
      var rel := Attribute(e, "rel");
      if href.Some? && href.value != [] then
        [Link(href.value, Trim(StringText(e.children)), rel.Some? && Contains(rel.value, "nofollow"))]
      else []
    else []
  }

  /** The links of the tree in document order. */
  function Links(root: Element): seq<Link> {
    PreOrder(root, LinkVisit)
  }

  /** No collected link has an empty `href`. */
  lemma LinksHaveHref(root: Element)
    ensures forall l :: l in Links(root) ==> l.href != []
  {
    PreOrderAll(root, LinkVisit, (l: Link) => l.href != []);
  }

  /** The `checkElement` walk of `collectAllLinks`, appending to `links`. */
  method CollectLinks(element: Element, links: seq<Link>) returns (r: seq<Link>)
    ensures r == links + PreOrder(element, LinkVisit)
    decreases element
  {
    r := links;
    if element.tag.Some? {
      var tag := element.tag.value;
      if tag == "a" {
        var href := Attribute(element, "href");
        var rel := Attribute(element, "rel");
        var linkText := CollectStringText(element.children);
        if href.Some? && href.value != [] {
          r := r + [Link(href.value, Trim(linkText), rel.Some? && Contains(rel.value, "nofollow"))];
        }
      }
    }
    PreOrderLoopEntry(element, LinkVisit, links, r);
    var i := 0;
    while i < |element.children|
      invariant i <= |element.children|
      invariant r + PreOrderFrom(element, i, LinkVisit) == links + PreOrder(element, LinkVisit)
    {
      var r' := CollectLinks(element.children[i], r);
      PreOrderLoopStep(element, i, LinkVisit, links, r, r');
      r := r';
      i := i + 1;
    }
  }

  /** `collectAllLinks(element)`. */
  method CollectAllLinks(element: Element) returns (links: seq<Link>)
    ensures links == Links(element)
  {
    links := CollectLinks(element, []);
  }

  // ---------------------------------------------------------------------------
  // analyzeAllImages
  // ---------------------------------------------------------------------------

  /** An `img` element gives one record, from its `src` and `alt` (empty when absent). */
  function ImageVisit(e: Element): seq<ImageAnalysis> {
    if HasTag(e, "img") then [AnalyzeImage(OrEmpty(Attribute(e, "src")), OrEmpty(Attribute(e, "alt")))] else []
  }

  /** The images of the tree in document order. */
  function Images(root: Element): seq<ImageAnalysis> {
    PreOrder(root, ImageVisit)
  }

  /** `hasAlt` and `altLength` are read off the trimmed alt text. */
  predicate ConsistentAlt(img: ImageAnalysis) {
    img.altLength == |Trim(img.alt)| && (img.hasAlt <==> Trim(img.alt) != [])
    && (img.hasAlt <==> img.altLength > 0) && img.altLength <= |img.alt|
  }

  /**
   * Every image record has alt text exactly when its trimmed alt is
   * non-empty, and its alt length is the trimmed length, at most the raw one.
   */
  lemma ImagesHaveConsistentAlt(root: Element)
    ensures forall img :: img in Images(root) ==> ConsistentAlt(img)
  {
    forall n: Element, img | img in ImageVisit(n) ensures ConsistentAlt(img) {
      TrimProperties(OrEmpty(Attribute(n, "alt")));
    }
    PreOrderAll(root, ImageVisit, ConsistentAlt);
  }

  /** The `checkElement` walk of `analyzeAllImages`, appending to `images`. */
  method CollectImages(element: Element, images: seq<ImageAnalysis>) returns (r: seq<ImageAnalysis>)
    ensures r == images + PreOrder(element, ImageVisit)
    decreases element
  {
    r := images;
    if element.tag.Some? {
      var tag := element.tag.value;
      if tag == "img" {
        var src := OrEmpty(Attribute(element, "src"));
        var alt := OrEmpty(Attribute(element, "alt"));
        r := r + [AnalyzeImage(src, alt)];
      }
    }
    PreOrderLoopEntry(element, ImageVisit, images, r);
    var i := 0;
    while i < |element.children|
      invariant i <= |element.children|
      invariant r + PreOrderFrom(element, i, ImageVisit) == images + PreOrder(element, ImageVisit)
    {
      var r' := CollectImages(element.children[i], r);
      PreOrderLoopStep(element, i, ImageVisit, images, r, r');
      r := r';
      i := i + 1;
    }
  }

  /** `analyzeAllImages(element)`. */
  method AnalyzeAllImages(element: Element) returns (images: seq<ImageAnalysis>)
    ensures images == Images(element)
  {
    images := CollectImages(element, []);
  }

  // ---------------------------------------------------------------------------
  // extractTextContent
  // ---------------------------------------------------------------------------

  const SkippedTags: set<string> := {"script", "style", "noscript"}

  /**
   * The text of an element: a String element with text is its text as is;
   * a script, style or noscript element has none; otherwise the String
   * children's text (only when the element supports text content) followed
   * by the non-empty text of each non-String child, each with a space,
   * trimmed.
   */
  function ExtractText(e: Element): string
    decreases e, |e.children| + 1
  {
    if e.kind.StringNode? && e.kind.text != [] then e.kind.text
    else if e.tag.Some? && e.tag.value in SkippedTags then []
    else Trim((if e.textContent then StringText(e.children) else []) + ChildText(e, 0))
  }

  /** The text the non-String children from index `i` on add. */
  function ChildText(e: Element, i: nat): string
    requires i <= |e.children|
    decreases e, |e.children| - i
  {
    if i == |e.children| then []
    else
      var child := e.children[i];
      var piece := if child.kind.StringNode? then [] else (var t := ExtractText(child); if t != [] then t + " " else []);
      piece + ChildText(e, i + 1)
  }

  /** Apart from the text of a String element, extracted text starts and ends with no white space. */
  lemma ExtractTextIsTrimmed(e: Element)
    requires !e.kind.StringNode?
    ensures ExtractText(e) != [] ==> !IsSpace(ExtractText(e)[0]) && !IsSpace(ExtractText(e)[|ExtractText(e)| - 1])
  {
    if !(e.tag.Some? && e.tag.value in SkippedTags) {
      TrimProperties((if e.textContent then StringText(e.children) else []) + ChildText(e, 0));
    }
  }

  /** `extractTextContent(element)`. */
  method ExtractTextContent(element: Element) returns (text: string)
    ensures text == ExtractText(element)
    decreases element
  {
    if element.kind.StringNode? {
      var textContent := element.kind.text;
      if textContent != [] {
        return textContent;
      }
    }
    if element.tag.Some? {
      var tag := element.tag.value;
      if tag in SkippedTags {
        return "";
      }
    }
    text := "";
    if element.textContent {
      text := CollectStringText(element.children);
    }
    ghost var start := text;
    var i := 0;
    while i < |element.children|
      invariant i <= |element.children|
      invariant text + ChildText(element, i) == start + ChildText(element, 0)
    {
      var child := element.children[i];
      if !child.kind.StringNode? {
        var childText := ExtractTextContent(child);
        if childText != [] {
          text := text + childText + " ";
        }
      }
      i := i + 1;
    }
    assert text == start + ChildText(element, 0);
    text := Trim(text);
  }
}
