/**
 * The link checks of the Designer extension. Every collected link is sorted
 * into internal and external by the start of its lower-cased `href`; the
 * report then counts the internal links, the external links, the external
 * links marked nofollow and the links with a generic anchor text.
 */
module DesignerLinks {
  import opened Seqs
  import opened Text
  import opened DesignerIssues
  import opened DesignerTree

  /** The internal-link filter: root-relative, hash, dot-relative, or without an absolute scheme. */
  predicate IsInternalHref(href: string) {
    var h := Lower(href);
    StartsWith(h, "/") || StartsWith(h, "#") || StartsWith(h, "../") || StartsWith(h, "./")
    || (!StartsWith(h, "http://") && !StartsWith(h, "https://") && !StartsWith(h, "//"))
  }

  /** The external-link filter: an `http`, `https` or protocol-relative address. */
  predicate IsExternalHref(href: string) {
    var h := Lower(href);
    StartsWith(h, "http://") || StartsWith(h, "https://") || StartsWith(h, "//")
  }

  predicate IsInternal(link: Link) { IsInternalHref(link.href) }

  predicate IsExternal(link: Link) { IsExternalHref(link.href) }

  /** A protocol-relative address, which both filters accept. */
  predicate IsProtocolRelative(link: Link) { StartsWith(Lower(link.href), "//") }

  predicate IsNofollow(link: Link) { link.nofollow }

  const GenericAnchorTexts: set<string> := {"click here", "here", "read more", "learn more", "this", "link"}

  /** An anchor text that says nothing about its target, whatever its case and surrounding space. */
  predicate IsGenericAnchor(link: Link) { Trim(Lower(link.text)) in GenericAnchorTexts }

  /** Every address passes at least one filter, and both exactly when it starts with `//`. */
  lemma HrefClassification(href: string)
    ensures IsInternalHref(href) || IsExternalHref(href)
    ensures IsInternalHref(href) && IsExternalHref(href) <==> StartsWith(Lower(href), "//")
  {
    var h := Lower(href);
    if StartsWith(h, "//") {
      assert h[..1] == "/";
    } else if StartsWith(h, "http://") || StartsWith(h, "https://") {
      assert h[0] == 'h';
      assert !StartsWith(h, "/") && !StartsWith(h, "#") && !StartsWith(h, "../") && !StartsWith(h, "./");
    }
  }

  /** One link's share of the two counts. */
  lemma LinkCountsOne(link: Link)
    ensures (if IsInternal(link) then 1 else 0) + (if IsExternal(link) then 1 else 0)
         == 1 + (if IsProtocolRelative(link) then 1 else 0)
  {
    HrefClassification(link.href);
  }

  /** The internal and external counts add up to every link once, and the protocol-relative ones twice. */
  lemma {:induction false} ClassifiedCounts(links: seq<Link>)
    ensures |Filter(links, IsInternal)| + |Filter(links, IsExternal)|
         == |links| + |Filter(links, IsProtocolRelative)|
    decreases |links|
  {
    if links != [] {
      LinkCountsOne(links[0]);
      ClassifiedCounts(links[1..]);
    }
  }

  /** The message about the internal links, by their number. */
  function InternalSummary(count: nat): Message {
    if count == 0 then NoInternalLinks
    else if count < 3 then FewInternalLinks(count)
    else GoodInternalLinks(count)
  }

  /** The messages about the external links: none found, or how many and how many are nofollow. */
  function ExternalIssues(external: seq<Link>): seq<Issue> {
    if external == [] then [Raise(NoExternalLinks)]
    else
      var nofollowCount := |Filter(external, IsNofollow)|;
      [Raise(ExternalLinks(|external|))] + When(nofollowCount > 0, NofollowLinks(nofollowCount))
  }

  /** What `analyzeLinkStructure` reports for the collected links, in push order. */
  function LinkIssues(links: seq<Link>): seq<Issue> {
    if links == [] then [Raise(NoLinks)]
    else
      var genericCount := |Filter(links, IsGenericAnchor)|;
      [Raise(InternalSummary(|Filter(links, IsInternal)|))]
      + ExternalIssues(Filter(links, IsExternal))
      + When(genericCount > 0, GenericAnchors(genericCount))
  }

  /** A page without links gets the one "no links" note and returns early. */
  lemma NoLinksAlone()
    ensures LinkIssues([]) == [Raise(NoLinks)]
  {
  }

  /**
   * On a page with links the first issue is about the internal links and the
   * second about the external ones: "no internal links" is reported exactly
   * when every link is external, "no external links" exactly when every link
   * is internal, and so the two are never reported together.
   */
  lemma LinkReport(links: seq<Link>)
    requires links != []
    ensures |LinkIssues(links)| >= 2
    ensures LinkIssues(links)[0].message == NoInternalLinks <==> forall l :: l in links ==> !IsInternal(l)
    ensures LinkIssues(links)[1].message == NoExternalLinks <==> forall l :: l in links ==> !IsExternal(l)
    ensures !(LinkIssues(links)[0].message == NoInternalLinks && LinkIssues(links)[1].message == NoExternalLinks)
  {
    var internal := Filter(links, IsInternal);
    var external := Filter(links, IsExternal);
    var generic := |Filter(links, IsGenericAnchor)|;
    var r := LinkIssues(links);
    assert r == [Raise(InternalSummary(|internal|))] + ExternalIssues(external) + When(generic > 0, GenericAnchors(generic));
    assert r[0].message == InternalSummary(|internal|);
    assert r[1] == ExternalIssues(external)[0];
    FilterEmptyIff(links, IsInternal);
    FilterEmptyIff(links, IsExternal);
    ClassifiedCounts(links);
    assert (forall l :: l in links ==> !IsInternal(l)) <==> internal == [];
    assert (forall l :: l in links ==> !IsExternal(l)) <==> external == [];
  }

  /** The generic-anchor test ignores letter case in the link text. */
  lemma GenericAnchorIgnoresCase(link: Link)
    ensures IsGenericAnchor(link) <==> IsGenericAnchor(link.(text := Lower(link.text)))
  {
    LowerIdempotent(link.text);
  }

  /** `analyzeLinkStructure`: collects the links, returns early without any, then pushes in order. */
  method AnalyzeLinkStructure(element: Element) returns (issues: seq<Issue>)
    ensures issues == LinkIssues(Links(element))
  {
    var links := CollectAllLinks(element);
    if |links| == 0 {
      issues := [Raise(NoLinks)];
      return;
    }
    var internalLinks := Filter(links, IsInternal);
    var externalLinks := Filter(links, IsExternal);
    if |internalLinks| == 0 {
      issues := [Raise(NoInternalLinks)];
    } else if |internalLinks| < 3 {
      issues := [Raise(FewInternalLinks(|internalLinks|))];
    } else {
      issues := [Raise(GoodInternalLinks(|internalLinks|))];
    }
    if |externalLinks| == 0 {
      issues := issues + [Raise(NoExternalLinks)];
    } else {
      issues := issues + [Raise(ExternalLinks(|externalLinks|))];
      var nofollowCount := |Filter(externalLinks, IsNofollow)|;
      if nofollowCount > 0 {
        issues := issues + [Raise(NofollowLinks(nofollowCount))];
      }
    }
    assert issues == [Raise(InternalSummary(|internalLinks|))] + ExternalIssues(externalLinks);
    var genericAnchors := Filter(links, IsGenericAnchor);
    if |genericAnchors| > 0 {
      issues := issues + [Raise(GenericAnchors(|genericAnchors|))];
    }
  }
}
