/**
 * The issues the Designer extension reports. An issue is a severity, a
 * message and, for the title and description checks, the field it is about.
 * Messages are tagged variants carrying their numbers; `Render` spells each
 * one out as the extension words it, so that the extension's
 * `message.includes(...)` tests are substring tests on the rendered text.
 */
module DesignerIssues {
  import opened Wrappers
  import opened Text
  import opened JsMath

  datatype Severity = Error | Warning | Success | Info

  datatype Field = TitleField | DescriptionField

  datatype Message =
    // title and description
    | MissingTitle
    | TitleTooShort(titleLength: nat)
    | TitleTooLong(titleLength: nat)
    | TitleOptimal
    | KeywordInTitle
    | KeywordNotInTitle
    | MissingDescription
    | DescriptionTooShort(descriptionLength: nat)
    | DescriptionTooLong(descriptionLength: nat)
    | DescriptionOptimal
    | KeywordInDescription
    | KeywordNotInDescription
    // H1 count
    | NoH1
    | MultipleH1(h1Count: nat)
    | SingleH1
    // images
    | NoImages
    | ImagesMissingAlt(missing: nat, total: nat)
    | AllImagesHaveAlt(total: nat)
    | GenericAlt(count: nat)
    | AltTooShort(count: nat)
    | AltTooLong(count: nat)
    | PoorFilenames(count: nat)
    | KeywordNotInAnyAlt
    | KeywordOverusedInAlt(count: nat, total: nat)
    | ConsiderMoreImages(count: nat)
    // keyword placement
    | KeywordInSlug
    | KeywordNotInSlug
    | KeywordInH1
    | KeywordNotInH1
    | KeywordInSubheadings
    | KeywordNotInSubheadings
    | KeywordInOpening
    | KeywordNotInOpening
    // technical
    | SlugTooLong(slugLength: nat)
    | SlugStopWords(count: nat)
    | SlugSpecialCharacters
    | SlugDuplicateHyphens
    | DraftPage
    | ConsiderOpenGraph
    | ConsiderArticleSchema
    | ConsiderFaqSchema
    | LanguageAttributes
    // links
    | NoLinks
    | NoInternalLinks
    | FewInternalLinks(count: nat)
    | GoodInternalLinks(count: nat)
    | NoExternalLinks
    | ExternalLinks(count: nat)
    | NofollowLinks(count: nat)
    | GenericAnchors(count: nat)
    // content quality
    | LongSentences(percentage: real)
    | LongParagraphs(count: nat)
    | PassiveVoice(percentage: real)
    | FewTransitions(percentage: real)
    | RepeatedStarts(count: nat)
    // heading hierarchy
    | HierarchySkip(level: nat, expected: nat)
    | MissingH2

  datatype Issue = Issue(severity: Severity, message: Message, field: Option<Field>)

  // ---------------------------------------------------------------------------
  // Numbers in messages
  // ---------------------------------------------------------------------------

  function DigitChar(d: nat): char
    requires d < 10
  {
    "0123456789"[d]
  }

  predicate IsDigit(c: char) { '0' <= c <= '9' }

  function DigitValue(c: char): nat
    requires IsDigit(c)
  {
    (c as int - '0' as int) as nat
  }

  /** A number as a template literal writes it: decimal, no leading zeros. */
  function NatToString(n: nat): string
    decreases n
  {
    if n < 10 then [DigitChar(n)] else NatToString(n / 10) + [DigitChar(n % 10)]
  }

  /** Reads back a string of decimal digits. */
  function ParseNat(s: string): nat
    requires forall i :: 0 <= i < |s| ==> IsDigit(s[i])
    decreases |s|
  {
    if s == [] then 0 else ParseNat(s[..|s| - 1]) * 10 + DigitValue(s[|s| - 1])
  }

  /** The decimal spelling is non-empty, all digits, has no leading zero, and reads back to the number. */
  lemma {:induction false} NatToStringRoundTrip(n: nat)
    ensures NatToString(n) != []
    ensures forall i :: 0 <= i < |NatToString(n)| ==> IsDigit(NatToString(n)[i])
    ensures |NatToString(n)| > 1 ==> NatToString(n)[0] != '0'
    ensures ParseNat(NatToString(n)) == n
    decreases n
  {
    if n >= 10 {
      NatToStringRoundTrip(n / 10);
      var s := NatToString(n);
      assert s[..|s| - 1] == NatToString(n / 10);
    }
  }

  function IntToString(i: int): string {
    if i < 0 then "-" + NatToString(-i) else NatToString(i)
  }

  /** `x.toFixed(0)`: the rounded value, ties upward as for the non-negative percentages it is used on. */
  function Fixed0(x: real): string {
    IntToString(Round(x))
  }

  // ---------------------------------------------------------------------------
  // Messages as the extension words them
  // ---------------------------------------------------------------------------

  function N(n: nat): string { NatToString(n) }

  function Render(m: Message): string {
    match m
    case MissingTitle => "Missing page title"
    case TitleTooShort(l) => "Title too short (" + N(l) + " chars, min 30)"
    case TitleTooLong(l) => "Title too long (" + N(l) + " chars, max 60)"
    case TitleOptimal => "Title length is optimal"
    case KeywordInTitle => "Focus keyword found in title"
    case KeywordNotInTitle => "Focus keyword not found in title"
    case MissingDescription => "Missing meta description"
    case DescriptionTooShort(l) => "Description too short (" + N(l) + " chars, min 120)"
    case DescriptionTooLong(l) => "Description too long (" + N(l) + " chars, max 160)"
    case DescriptionOptimal => "Description length is optimal"
    case KeywordInDescription => "Focus keyword found in description"
    case KeywordNotInDescription => "Focus keyword not found in description"
    case NoH1 => "No H1 tag found on page"
    case MultipleH1(c) => "Multiple H1 tags found (" + N(c) + ")"
    case SingleH1 => "Single H1 tag found"
    case NoImages => "No images found - consider adding visuals to enhance content"
    case ImagesMissingAlt(missing, total) => N(missing) + " of " + N(total) + " images missing alt text"
    case AllImagesHaveAlt(total) => "All " + N(total) + " images have alt text"
    case GenericAlt(c) =>
      N(c) + " image" + (if c > 1 then "s use" else " uses") + " generic alt text (avoid \"image\", \"photo\", etc.)"
    case AltTooShort(c) =>
      N(c) + " image" + (if c > 1 then "s have" else " has") + " alt text that's too short (<5 chars)"
    case AltTooLong(c) =>
      N(c) + " image" + (if c > 1 then "s have" else " has") + " alt text that's too long (>125 chars)"
    case PoorFilenames(c) =>
      N(c) + " image" + (if c > 1 then "s have" else " has") + " non-descriptive filenames (e.g., IMG_1234.jpg)"
    case KeywordNotInAnyAlt => "Focus keyword not found in any image alt text"
    case KeywordOverusedInAlt(c, total) =>
      "Keyword appears in " + N(c) + " of " + N(total) + " alt texts - avoid over-optimization"
    case ConsiderMoreImages(c) =>
      "Consider adding " + N(c) + " more image" + (if c > 1 then "s" else "") + " for better engagement"
    case KeywordInSlug => "Focus keyword found in URL slug"
    case KeywordNotInSlug => "Focus keyword not found in URL slug"
    case KeywordInH1 => "Focus keyword found in H1"
    case KeywordNotInH1 => "Focus keyword not found in H1"
    case KeywordInSubheadings => "Focus keyword found in subheadings (H2/H3)"
    case KeywordNotInSubheadings => "Focus keyword not found in any subheadings"
    case KeywordInOpening => "Focus keyword found in opening content"
    case KeywordNotInOpening => "Focus keyword not found in opening content (first 10%)"
    case SlugTooLong(l) =>
      "URL slug is too long (" + N(l) + " chars) - keep under 60 for better user experience"
    case SlugStopWords(c) => "URL contains " + N(c) + " stop words - consider removing for cleaner URLs"
    case SlugSpecialCharacters => "URL slug contains special characters or uppercase letters"
    case SlugDuplicateHyphens => "URL slug contains duplicate hyphens"
    case DraftPage => "Page is in draft mode - won't be indexed by search engines"
    case ConsiderOpenGraph => "Consider adding Open Graph tags for better social sharing"
    case ConsiderArticleSchema => "Long-form content detected - consider adding Article schema markup"
    case ConsiderFaqSchema => "Q&A content detected - consider adding FAQ schema markup"
    case LanguageAttributes => "Ensure language attributes are set in site settings for international SEO"
    case NoLinks => "No links detected on page - add internal and external links for better SEO"
    case NoInternalLinks => "No internal links found - add links to related pages"
    case FewInternalLinks(c) =>
      "Only " + N(c) + " internal link" + (if c == 1 then "" else "s") +
      " found - consider adding more for better site navigation"
    case GoodInternalLinks(c) => "Good internal linking (" + N(c) + " links)"
    case NoExternalLinks => "No external links found - consider linking to authoritative sources"
    case ExternalLinks(c) => N(c) + " external link" + (if c == 1 then "" else "s") + " to other sites"
    case NofollowLinks(c) => N(c) + " external link" + (if c == 1 then " has" else "s have") + " nofollow attribute"
    case GenericAnchors(c) =>
      N(c) + " link" + (if c == 1 then " uses" else "s use") + " generic anchor text (avoid \"click here\")"
    case LongSentences(p) => Fixed0(p) + "% of sentences are too long (>20 words)"
    case LongParagraphs(c) => N(c) + " paragraph" + (if c > 1 then "s are" else " is") + " too long (>150 words)"
    case PassiveVoice(p) => "High passive voice usage (" + Fixed0(p) + "% of sentences)"
    case FewTransitions(p) => "Low transition word usage (" + Fixed0(p) + "%)"
    case RepeatedStarts(c) => N(c) + " consecutive sentences start with the same word"
    case HierarchySkip(level, expected) =>
      "Heading hierarchy issue: H" + N(level) + " appears without H" + N(expected)
    case MissingH2 => "Missing H2 tags - use H2 for main sections under your H1"
  }

  /** The field the title and description checks attach to their messages. */
  function FieldOf(m: Message): Option<Field> {
    match m
    case MissingTitle | TitleTooShort(_) | TitleTooLong(_) | TitleOptimal => Some(TitleField)
    case MissingDescription | DescriptionTooShort(_) | DescriptionTooLong(_) | DescriptionOptimal =>
      Some(DescriptionField)
    case _ => None
  }

  /** The issue each message is reported as. */
  function Raise(m: Message): Issue {
    Issue(SeverityOf(m), m, FieldOf(m))
  }

  /** `if (c) issues.push(...)`: the message raised when the condition holds. */
  function When(c: bool, m: Message): seq<Issue> {
    if c then [Raise(m)] else []
  }

  /** The severity each message is reported with. */
  function SeverityOf(m: Message): Severity {
    match m
    case TitleOptimal | DescriptionOptimal
       | KeywordInTitle | KeywordInDescription | SingleH1 | AllImagesHaveAlt(_)
       | KeywordInSlug | KeywordInH1 | KeywordInSubheadings | KeywordInOpening
       | GoodInternalLinks(_) | ExternalLinks(_) => Success
    case NoH1 | ImagesMissingAlt(_, _) | MissingTitle | MissingDescription => Error
    case KeywordNotInTitle | KeywordNotInDescription | MultipleH1(_) | GenericAlt(_) | AltTooShort(_)
       | KeywordOverusedInAlt(_, _) | KeywordNotInSlug | KeywordNotInH1 | KeywordNotInOpening
       | SlugTooLong(_) | SlugSpecialCharacters | SlugDuplicateHyphens | NoInternalLinks
       | GenericAnchors(_) | LongSentences(_) | LongParagraphs(_) | RepeatedStarts(_)
       | HierarchySkip(_, _) | MissingH2 | TitleTooShort(_) | TitleTooLong(_)
       | DescriptionTooShort(_) | DescriptionTooLong(_) => Warning
    case _ => Info
  }

  /** `issue.message.includes(needle)`. */
  predicate Mentions(issue: Issue, needle: string) {
    Contains(Render(issue.message), needle)
  }

  /** Some issue of the list satisfies `Mentions` with the given severity. */
  predicate AnyMentions(issues: seq<Issue>, severity: Severity, needle: string) {
    exists i :: 0 <= i < |issues| && issues[i].severity == severity && Mentions(issues[i], needle)
  }
}
