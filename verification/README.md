# On-page SEO scoring for Webflow pages, in Dafny

This project models the on-page SEO scoring engine of a Webflow SEO tool and
proves properties of the model. The engine comes in three parts.

- **`SEOAnalyzer`** (`src/services/seo-analyzer.ts`) is the server-side
  analyzer. It takes a parsed page: the title text, the meta-description
  attribute, the body text, the headings and the images, in document order.
  It does five things:
  - scores the title and description lengths;
  - tokenises the body text and ranks the ten most frequent non-stop-words
    with their densities;
  - counts the headings and checks the hierarchy for skipped levels;
  - counts images with and without alt text;
  - combines all of this into a clamped overall score and a list of prefixed
    recommendations.
- **The Designer extension** (`webflow-seo-designer/src/index.ts`) runs the
  same idea over the live element tree of the page open in the Webflow
  Designer. It covers:
  - word count, reading time, syllables and the Flesch Reading Ease score;
  - sentence and paragraph metrics;
  - heading hierarchy;
  - image alt text and filenames;
  - internal and external links;
  - URL slug checks;
  - focus-keyword placement;
  - a weighted score that reads -1 ("N/A") when no focus keyword is set;
  - a priority-sorted list of recommendations;
  - a 30-second cache of the extracted content.
- **The bulk `analyze-seo` handlers** (`src/routes/seo.ts` and
  `routes/seo.js`) run a short metadata checklist on each page's stored SEO
  settings and summarise the site. `src/routes/seo.ts` also checks the inputs
  of the single-page `analyze` endpoint.

## How the model is built

- The element tree is an inductive datatype. Every walk over it is a
  pre-order recursion.
- Every DOM or host read becomes a parameter. This covers the focus-keyword
  input, the word count shown in the panel, the current page, the root
  element, and the clock.
- Loops and accumulator recursions in the source become methods. Each
  method is proved equal to a declarative function, and the properties are
  lemmas about those functions.
- The module-level `contentCache` becomes the class `ContentCache.Cache`.
- Issues of the Designer extension are tagged messages. `Render` writes each
  one exactly as the extension words it. A `message.includes(x)` test in the
  source is a substring test on the rendered text.
- Percentages, densities and averages are exact reals.
- `Math.round(x)` is `⌊x + ½⌋` and `Math.ceil(n / d)` is integer ceiling
  division.
- `Array.prototype.sort` is a stable insertion sort by key, used as a
  function.
- A JavaScript `Map` is an insertion-ordered list of key/count pairs.

Modules, by source file:

- `src/services/seo-analyzer.ts`: `SeoAnalyzer`.
- `webflow-seo-designer/src/index.ts`: `DesignerIssues`, `DesignerText`,
  `DesignerTree`, `ContentCache`, `DesignerImages`, `DesignerHierarchy`,
  `DesignerLinks`, `DesignerKeyword`, `DesignerTechnical`, `DesignerPage`,
  `DesignerScore`, `DesignerRecommendations` and `DesignerFlow`.
- `src/routes/seo.ts` and `routes/seo.js`: `SiteChecklist`, `RoutesTs` and
  `RoutesJs`.
- Shared: `Text` (JavaScript string operations), `Seqs` (filter, map, sum,
  stable sort), `JsMath`, `JsMap` and `Wrappers`.

Three behaviours of the code worth knowing:

- `consecutiveSentenceStarts` counts every adjacent pair of sentences that
  start with the same word, not the longest run
  (`webflow-seo-designer/src/index.ts:1986-1993`).
- The Designer's `analyzeHeadingHierarchy` sorts the headings by level before
  it looks for skipped levels (`webflow-seo-designer/src/index.ts:1097`).
  Its result therefore depends only on the multiset of levels
  (`DesignerHierarchy.HierarchyDependsOnLevelsOnly`).
- `SEOAnalyzer.analyzeImages` has no generic-alt or filename rules
  (`src/services/seo-analyzer.ts:258-297`). Only the Designer's image
  analysis has them.

## Model

| member | source | states |
|---|---|---|
| SeoAnalyzer.CheckLength | src/services/seo-analyzer.ts:79-89 | an empty field scores 0 with only the missing-field issue, a short one 70, a long one 80; no issue exactly when the length is within the bounds, exactly when the score is 100; at most one issue |
| SeoAnalyzer.AnalyzeMetaTags | src/services/seo-analyzer.ts:73-122 | the title is trimmed and scored against 30–60, the description is left untrimmed (absent = empty) and scored against 120–160; each field gets 0/70/80/100 and at most one issue, and no issue exactly when its score is 100 |
| SeoAnalyzer.Cleaned | src/services/seo-analyzer.ts:127-129 | lower-casing and blanking every character outside `[a-z0-9\s]` keeps the length and leaves only token characters and white space |
| SeoAnalyzer.TokensShape | src/services/seo-analyzer.ts:126-130 | every counted word is longer than three characters and made of `[a-z0-9]` only |
| SeoAnalyzer.TallyStep | src/services/seo-analyzer.ts:136-138 | counting one more word bumps that word's entry of the map and nothing else |
| SeoAnalyzer.FirstIndex | src/services/seo-analyzer.ts:136-138 | the position of a word's first occurrence; it is in range exactly when the word occurs and no earlier position holds it |
| SeoAnalyzer.TallyKeys | src/services/seo-analyzer.ts:133-138 | the map has one key per distinct word, and a word is a key exactly when it occurs |
| SeoAnalyzer.TallyCounts | src/services/seo-analyzer.ts:136-138 | each entry holds the number of occurrences of its word |
| SeoAnalyzer.TallySum | src/services/seo-analyzer.ts:132-138 | the map's counts add up to `totalWords` |
| SeoAnalyzer.TallyOrder | src/services/seo-analyzer.ts:133-138 | the map's entries are in the order their words first occur (a JavaScript `Map` keeps insertion order) |
| SeoAnalyzer.RankedCandidates | src/services/seo-analyzer.ts:142-145 | the non-stop-word entries, a permutation of them, with counts non-increasing and entries of equal count in map order (the sort is stable) |
| SeoAnalyzer.WithDensities | src/services/seo-analyzer.ts:147-150 | each entry becomes keyword, count and `count / totalWords × 100` |
| SeoAnalyzer.AverageDensity | src/services/seo-analyzer.ts:153-155 | the mean density is 0 when there are no top keywords |
| SeoAnalyzer.KeywordVerdict | src/services/seo-analyzer.ts:157-171 | the score is one of 100, 80, 75, 70, 50, 45; "content too short" exactly below 300 words; the low- and high-density issues exactly outside [1, 3] and never both; score 100 exactly when there is no issue |
| SeoAnalyzer.TopKeywords | src/services/seo-analyzer.ts:142-150 | at most ten entries, none a stop word, each a map entry with its density, counts non-increasing |
| SeoAnalyzer.BestAreCandidates | src/services/seo-analyzer.ts:142-146 | the ten best-ranked entries are map entries that are not stop words, and a non-empty ranking means a non-zero word count |
| SeoAnalyzer.Summarize | src/services/seo-analyzer.ts:141-180 | the analysis holds the word count, the map, the top keywords, an average density of 0 without top keywords, and the verdict on them |
| SeoAnalyzer.MeanDensityWithin | src/services/seo-analyzer.ts:153-155 | the average density lies within any bounds on the top keywords' densities |
| SeoAnalyzer.SummarizeDensityBetween | src/services/seo-analyzer.ts:153-155 | the analysis's density lies between the least and the greatest density of its top keywords |
| SeoAnalyzer.CountsAtLeastLength | src/services/seo-analyzer.ts:136-138 | with every count at least one, the counts add up to at least the number of entries |
| SeoAnalyzer.KeywordAnalysisOf | src/services/seo-analyzer.ts:124-181 | `totalWords` is the number of tokens and the map's counts add up to it |
| SeoAnalyzer.RankingKeepsFirstSeenOrder | src/services/seo-analyzer.ts:133-145 | among the ranked keywords of one count, the order is the order in which the words first occur in the text |
| SeoAnalyzer.FilterKeepsOrder | src/services/seo-analyzer.ts:143 | dropping stop words keeps the first-occurrence order |
| SeoAnalyzer.AnalyzeKeywords | src/services/seo-analyzer.ts:124-181 | the loop that fills the map computes the keyword analysis of the body text |
| SeoAnalyzer.SkipBeforeStep | src/services/seo-analyzer.ts:226-232 | the skip flag after one more heading is the old flag or a skip at that heading |
| SeoAnalyzer.HeadingVerdict | src/services/seo-analyzer.ts:215-248 | the score is in [0, 100], and 0 with "no heading structure" when there are no headings; the missing-H1, multiple-H1, broken-hierarchy and limited-structure issues each appear exactly under their condition, at most once; score 100 exactly when there is no issue, exactly when there is one H1, no skip and at least three headings |
| SeoAnalyzer.HierarchyOf | src/services/seo-analyzer.ts:196-203 | one hierarchy entry per heading |
| SeoAnalyzer.HierarchyStep | src/services/seo-analyzer.ts:196-203 | one more heading appends its entry numbered by its position |
| SeoAnalyzer.HierarchyEntries | src/services/seo-analyzer.ts:196-203 | entry `i` is heading `i` with its trimmed text and `order == i` |
| SeoAnalyzer.HierarchyLevels | src/services/seo-analyzer.ts:196-203 | the entries keep the headings' levels in document order |
| SeoAnalyzer.HeadingStructureOf | src/services/seo-analyzer.ts:183-256 | the structure holds the hierarchy, the level counts and the verdict on the H1 count, the skip check and the number of headings |
| SeoAnalyzer.LevelCountsSum | src/services/seo-analyzer.ts:205-212 | the six level counts add up to the number of headings |
| SeoAnalyzer.CountsOfSnoc | src/services/seo-analyzer.ts:205-212 | one more heading bumps the counter of its level |
| SeoAnalyzer.LevelCountSnoc | src/services/seo-analyzer.ts:205-212 | one more heading adds one to the count of its own level and nothing to the others |
| SeoAnalyzer.AnalyzeHeadings | src/services/seo-analyzer.ts:183-256 | the numbering, counting and skip-walking loops compute the heading structure |
| SeoAnalyzer.MissingAltSourcesSnoc | src/services/seo-analyzer.ts:264-274 | one more image appends its source (or "unknown") exactly when it lacks alt text |
| SeoAnalyzer.ImageVerdict | src/services/seo-analyzer.ts:276-287 | the score is in [0, 100]; no images gives 100 and the note; all with alt gives 100 and no issue; otherwise score = 100 − missing percentage with one issue |
| SeoAnalyzer.MissingPercentageBounds | src/services/seo-analyzer.ts:283-284 | the missing percentage is in (0, 100] and 100 minus it is the share with alt |
| SeoAnalyzer.ImageAnalysisOf | src/services/seo-analyzer.ts:258-297 | with and without alt add up to the total, the missing list is the first ten sources without alt in document order, and the verdict is on those counts |
| SeoAnalyzer.AnalyzeImages | src/services/seo-analyzer.ts:258-297 | the counting loop computes the image analysis |
| SeoAnalyzer.CalculateOverallScore | src/services/seo-analyzer.ts:299-324 | the overall score is in [0, 100]: the rounded weighted sum (meta mean weighted twice), clamped; the breakdown holds the rounded meta mean and the other three scores |
| SeoAnalyzer.OverallUnclamped | src/services/seo-analyzer.ts:305-317 | when every component is in [0, 100] the clamp never acts |
| SeoAnalyzer.PerfectComponentsScorePerfect | src/services/seo-analyzer.ts:299-324 | perfect components score 100 overall |
| SeoAnalyzer.OverallMonotone | src/services/seo-analyzer.ts:299-324 | raising a component score never lowers the overall score |
| SeoAnalyzer.Prefixed | src/services/seo-analyzer.ts:334-355 | each issue becomes one recommendation under its prefix, in order |
| SeoAnalyzer.AllAdvice | src/services/seo-analyzer.ts:332-355 | one recommendation per issue of the five analyses, and no "great job" message among them |
| SeoAnalyzer.GenerateRecommendations | src/services/seo-analyzer.ts:326-363 | the single "great job" message exactly when there are no issues, else one prefixed recommendation per issue |
| SeoAnalyzer.IssuesUnderConcat | src/services/seo-analyzer.ts:332-355 | the issues under a prefix in a concatenation are those of the parts, in order |
| SeoAnalyzer.IssuesUnderPrefixed | src/services/seo-analyzer.ts:334-355 | a prefixed list holds its own issues under its prefix and nothing under the others |
| SeoAnalyzer.AllAdviceIssues | src/services/seo-analyzer.ts:332-355 | under each prefix are exactly that analysis's issues, in their order |
| SeoAnalyzer.AllAdviceInOrder | src/services/seo-analyzer.ts:332-355 | the prefixes appear in the order Title, Description, Keywords, Headings, Images |
| SeoAnalyzer.RecommendationsProperties | src/services/seo-analyzer.ts:326-363 | the recommendations keep every issue under its prefix, in category order, and are the "great job" message exactly when every issue list is empty |
| SeoAnalyzer.ComponentScoresInRange | src/services/seo-analyzer.ts:73-297 | the title and description scores are in {0, 70, 80, 100}; the keyword, heading and image scores are in [0, 100] |
| SeoAnalyzer.Analyze | src/services/seo-analyzer.ts:39-71 | the result carries the request's ids and the four analyses of the parsed page; the score and its breakdown are those of the four analyses, and the overall score is the unclamped rounded weighted sum; the recommendations are the "great job" message exactly when every component is perfect and there is no image note |
| SiteChecklist.ChecklistProperties | routes/seo.js:102-121 | an issue is listed exactly when its condition holds; title too short and too long never both, nor description too short and too long; at most four issues |
| SiteChecklist.Summarize | routes/seo.js:134-140 | the page count, the total of the per-page issue counts, and the mean score rounded, absent (JSON `null`) for an empty site |
| SiteChecklist.SumOfScoresBounds | src/routes/seo.ts:197-203 | per-page scores within bounds keep their sum within the bounds times the page count |
| SiteChecklist.AverageWithin | src/routes/seo.ts:199 | the rounded mean of scores within bounds stays within them |
| SiteChecklist.MeanWithin | src/routes/seo.ts:199 | a mean of a sum within `n` times the bounds lies within the bounds |
| RoutesJs.CheckIssues | routes/seo.js:102-121 | the sequential pushes build the checklist of the page's metadata |
| RoutesJs.PageScore | routes/seo.js:129 | the score is never negative and is 100 − 15 × issues for up to four issues |
| RoutesJs.ScoreSteps | routes/seo.js:102-129 | a page scores one of 100, 85, 70, 55, 40, and 100 exactly when it has no issue |
| RoutesJs.CheckPage | routes/seo.js:98-130 | the page report holds the checklist and its score |
| RoutesJs.AnalyzeSite | routes/seo.js:92-141 | one report per page, each with its checklist and score, and the summary of the reports, whose mean lies in [40, 100] |
| RoutesJs.AverageOfChecked | routes/seo.js:134-140 | the average score of checked pages lies in [40, 100] |
| RoutesTs.CheckPage | src/routes/seo.ts:157-192 | the pushes build the checklist, and the score is `max(0, 100 − the sum of the penalties)` |
| RoutesTs.PenaltySum | src/routes/seo.ts:160-183 | the penalties add up to 15/10 per title issue, 15/10 per description issue and 10 per missing Open Graph field, each when its condition holds |
| RoutesTs.SumWhen | src/routes/seo.ts:160-183 | a conditional push adds its penalty exactly when its condition holds |
| RoutesTs.ScoreBetween50And100 | src/routes/seo.ts:158-191 | 100 minus the penalties is in [50, 100], so `Math.max(0, …)` never acts |
| RoutesTs.AnalyzeSite | src/routes/seo.ts:145-208 | one report per page with its checklist and a score in [50, 100], and the summary, whose mean lies in [50, 100] |
| RoutesTs.ValidateAnalyze | src/routes/seo.ts:68-88 | a missing `siteId` is refused first, then a missing `html`; the request is built, with the path's `pageId`, exactly when both are present |
| RoutesTs.AnalyzeEndpoint | src/routes/seo.ts:66-97 | the analyzer runs only on a valid request; its result carries the request's ids, the meta, keyword, heading and image analyses of the parsed page, the overall score and the recommendations of those analyses; an invalid request gets the validation error |
| JsMath.Round | webflow-seo-designer/src/index.ts:1050 | `Math.round`: the integer nearest to `x`, halves rounded up |
| JsMath.CeilDiv | webflow-seo-designer/src/index.ts:1924 | `Math.ceil(n / d)`: the least `r` with `n <= r × d` |
| JsMath.Max | src/routes/seo.ts:189 | `Math.max` of two integers |
| JsMath.Clamp | src/services/seo-analyzer.ts:315 | `Math.min(hi, Math.max(lo, x))` lies in [lo, hi] and is `x` when `x` does |
| JsMap.Find | src/services/seo-analyzer.ts:137 | the position of a key in an insertion-ordered map, or none when absent |
| JsMap.GetFinds | src/services/seo-analyzer.ts:137 | `Map.get` is absent exactly for a missing key and otherwise the key's value |
| JsMap.SetUpdates | src/services/seo-analyzer.ts:137 | `Map.set` keeps keys distinct, updates an existing key in place and appends a new one at the end |
| Text.LowerChar | webflow-seo-designer/src/index.ts:1947 | `toLowerCase` on one character: no upper-case ASCII letter remains, white space stays white space, other characters are unchanged |
| Text.Lower | webflow-seo-designer/src/index.ts:1947 | `toLowerCase` keeps the length and lowers each character |
| Text.TrimProperties | webflow-seo-designer/src/index.ts:1918 | `trim` yields no longer a string, empty exactly for a blank one, with no white space at either end |
| Text.TrimLower | webflow-seo-designer/src/index.ts:1151 | trimming and lower-casing commute, so `value.toLowerCase().trim()` and `value.trim().toLowerCase()` agree |
| Text.TrimOfLower | webflow-seo-designer/src/index.ts:1151 | the lowered keyword is blank exactly when the keyword is |
| Text.SplitRuns | webflow-seo-designer/src/index.ts:1918 | `split(/\s+/)` yields at least one piece |
| Text.SplitEach | webflow-seo-designer/src/index.ts:462 | a split on a one-character separator yields at least one piece |
| Text.SplitRunsPieces | webflow-seo-designer/src/index.ts:1918 | the pieces of a split on runs hold no separator |
| Text.Words | webflow-seo-designer/src/index.ts:1918 | `trim().split(/\s+/).filter(w => w.length > 0)`: no word is empty |
| Text.WordsOfBlank | webflow-seo-designer/src/index.ts:1916-1920 | a text has no words exactly when it is blank, and no word holds white space |
| Text.CountOccurrences | webflow-seo-designer/src/index.ts:1270 | the number of non-overlapping matches of the keyword; its matches fit in the text, and it is 0 exactly when the text does not contain the keyword |
| Text.ContainsLower | webflow-seo-designer/src/index.ts:442-447 | a text containing a word still contains it once both are lowered |
| Text.LowerIdempotent | webflow-seo-designer/src/index.ts:1270 | lowering twice is lowering once |
| Seqs.SortByProperties | webflow-seo-designer/src/index.ts:1618 | the stable sort yields an ordered permutation that keeps the order among equal keys |
| Seqs.SortByMap | src/services/seo-analyzer.ts:144-150 | sorting then mapping is mapping then sorting by the matching key |
| Seqs.SortedUnique | src/services/seo-analyzer.ts:144 | two ordered permutations of each other with an injective key are equal |
| Seqs.Take | src/services/seo-analyzer.ts:146 | `slice(0, n)` is the first `min(n, length)` elements |
| Seqs.FilterPartition | src/services/seo-analyzer.ts:290 | the elements kept by a test and by its negation add up to all of them |
| DesignerText.CountWordsBlank | webflow-seo-designer/src/index.ts:1916-1920 | `countWords` is 0 exactly for a blank text, and every word counted is non-empty and free of white space |
| DesignerText.ReadingTime | webflow-seo-designer/src/index.ts:1922-1926 | `⌈wordCount / 225⌉` minutes: 0 exactly for no words, and the least whole number of minutes covering the words at 225 per minute |
| DesignerText.GroupStarts | webflow-seo-designer/src/index.ts:1952-1958 | the number of vowel groups is at most the word's length |
| DesignerText.GroupStartsStep | webflow-seo-designer/src/index.ts:1952-1958 | one more letter adds one exactly when it starts a vowel group |
| DesignerText.GroupStartsCountsPositions | webflow-seo-designer/src/index.ts:1952-1958 | the count equals the number of positions where a vowel follows a non-vowel or the start |
| DesignerText.Syllables | webflow-seo-designer/src/index.ts:1945-1967 | `countSyllables` is at least 1 |
| DesignerText.SyllablesBounds | webflow-seo-designer/src/index.ts:1945-1967 | it is between 1 and the word's length (or 1 for the empty word), and exactly 1 for a word without vowels |
| DesignerText.CountSyllables | webflow-seo-designer/src/index.ts:1945-1967 | the loop with `previousWasVowel` computes the vowel-group count, less one for a final `e`, at least 1 |
| DesignerText.Readability | webflow-seo-designer/src/index.ts:1928-1943 | an integer in [0, 100]: 0 without sentences or words, else the Flesch Reading Ease score rounded and clamped |
| DesignerText.TotalSyllablesAtLeastWords | webflow-seo-designer/src/index.ts:1932 | every word adds at least one syllable |
| DesignerText.BlankTextUnreadable | webflow-seo-designer/src/index.ts:1934 | a blank text scores 0 |
| DesignerText.FleschDecreasesWithSyllables | webflow-seo-designer/src/index.ts:1936-1942 | more syllables for the same words and sentences never raise the score |
| DesignerText.SplitParagraphs | webflow-seo-designer/src/index.ts:1997-1998 | splitting on blank lines yields at least one piece |
| DesignerText.AdjacentRepeats | webflow-seo-designer/src/index.ts:1986-1993 | the number of adjacent equal pairs is at most the length less one |
| DesignerText.QualityOf | webflow-seo-designer/src/index.ts:1970-2046 | the total is the number of sentences, and long sentences never exceed it; the percentage is in [0, 100] and 0 without sentences; at least one paragraph; long paragraphs never exceed the non-blank paragraphs; repeated starts at most sentences − 1 |
| DesignerText.LongPercentage | webflow-seo-designer/src/index.ts:2039 | times the total it gives `long × 100`; in [0, 100], 0 when there are no sentences |
| DesignerText.TallySnoc | webflow-seo-designer/src/index.ts:1986-1993 | one more sentence with words adds one when its first word equals the previous start, and becomes the new previous start |
| DesignerText.TallyCountsRepeats | webflow-seo-designer/src/index.ts:1977-1994 | the `previousStart` walk counts the adjacent equal pairs of the first words of the sentences with words |
| DesignerText.StartTallyCountsRepeats | webflow-seo-designer/src/index.ts:1977-1994 | the same, stated for the sentences' word lists |
| DesignerText.CountSentences | webflow-seo-designer/src/index.ts:1976-1994 | the `forEach` loop counts the sentences of more than 20 words and the repeated starts |
| DesignerText.CountLongParagraphs | webflow-seo-designer/src/index.ts:2001-2007 | the loop counts the paragraphs of more than 150 words |
| DesignerText.AnalyzeContentQualityMetrics | webflow-seo-designer/src/index.ts:1970-2046 | the metrics are those of the text, with the passive-voice and transition-word counts given |
| DesignerTree.PreOrderAll | webflow-seo-designer/src/index.ts:2054-2105 | a property of everything each element contributes holds for the whole pre-order walk |
| DesignerTree.CollectStringText | webflow-seo-designer/src/index.ts:1877-1884 | the loop over string children concatenates their texts, each followed by a space |
| DesignerTree.HeadingsAreLabelled | webflow-seo-designer/src/index.ts:2076-2080 | every collected heading has a non-empty text (`Empty H<n>` stands in) and the tag `H<level>` |
| DesignerTree.AnalyzeHeadingStructure | webflow-seo-designer/src/index.ts:2054-2105 | the recursion appends the tree's headings, in pre-order, to the accumulator |
| DesignerTree.LevelCountConcat | webflow-seo-designer/src/index.ts:759-786 | counting headings of one level over a concatenation adds the counts |
| DesignerTree.HeadingVisitCount | webflow-seo-designer/src/index.ts:764-770 | one element counts 1 exactly when it is a heading of that level |
| DesignerTree.CountHeadingsByLevel | webflow-seo-designer/src/index.ts:759-786 | the recursive count is the number of headings of that level in the tree |
| DesignerTree.CountChildHeadings | webflow-seo-designer/src/index.ts:773-780 | the loop over the children adds their subtrees' counts |
| DesignerTree.LinksHaveHref | webflow-seo-designer/src/index.ts:731-737 | only anchors with a non-empty `href` are collected |
| DesignerTree.CollectLinks | webflow-seo-designer/src/index.ts:709-753 | the recursion appends the tree's links, in pre-order, to the accumulator |
| DesignerTree.CollectAllLinks | webflow-seo-designer/src/index.ts:706-757 | `collectAllLinks` is the pre-order list of the tree's links |
| DesignerTree.ImagesHaveConsistentAlt | webflow-seo-designer/src/index.ts:934-942 | every image record has `hasAlt` exactly when its trimmed alt is non-empty, and `altLength` is the trimmed length |
| DesignerTree.CollectImages | webflow-seo-designer/src/index.ts:911-958 | the recursion appends the tree's images, in pre-order, to the accumulator |
| DesignerTree.AnalyzeAllImages | webflow-seo-designer/src/index.ts:904-962 | `analyzeAllImages` is the pre-order list of the tree's image records |
| DesignerTree.ExtractTextIsTrimmed | webflow-seo-designer/src/index.ts:1913 | the text of an element that is not a string node starts and ends with no white space |
| DesignerTree.ExtractTextContent | webflow-seo-designer/src/index.ts:1841-1914 | the recursion computes the element's text: a string node's own text, nothing for script, style and noscript, else its string children's and its other children's texts, trimmed |
| DesignerImages.FilenameProperties | webflow-seo-designer/src/index.ts:921 | the filename holds no `/` or `?` and only characters of the source, and is the source itself when it has neither |
| DesignerImages.NumberedNameHasDot | webflow-seo-designer/src/index.ts:924 | a camera-style name matched by the pattern has an extension |
| DesignerImages.UndottedFilename | webflow-seo-designer/src/index.ts:924-926 | a filename without a dot is descriptive exactly when it is longer than 8 characters |
| DesignerImages.CameraExampleIsPoor | webflow-seo-designer/src/index.ts:870 | `IMG_1234.jpg`, the example the message cites, is not descriptive |
| DesignerImages.GenericAltIsShort | webflow-seo-designer/src/index.ts:906-932 | a generic alt text has 3 to 9 characters once trimmed |
| DesignerImages.AltSummaryReportsMissingAlt | webflow-seo-designer/src/index.ts:835-842 | the summary is an error exactly when some image lacks alt text, and is "All n images have alt text" when none does |
| DesignerImages.AltSummaryFirst | webflow-seo-designer/src/index.ts:834-842 | for a page with images the alt summary is the first issue |
| DesignerImages.NoImagesAlone | webflow-seo-designer/src/index.ts:803-806 | a page without images gets only the "no images" note |
| DesignerImages.CountImages | webflow-seo-designer/src/index.ts:813-830 | the `forEach` loop computes the six tallies of the images |
| DesignerImages.CountsOfSnoc | webflow-seo-designer/src/index.ts:820-830 | one more image adds to exactly the tallies it falls under |
| DesignerImages.TallyImage | webflow-seo-designer/src/index.ts:821-829 | the loop body updates the tallies for one image |
| DesignerImages.CheckImagesForAltText | webflow-seo-designer/src/index.ts:799-901 | `checkImagesForAltText` reports only the "no images" note without images; otherwise the alt summary, then the count-based issues, the keyword-in-alt note and the image-count note |
| DesignerImages.ReportImageIssues | webflow-seo-designer/src/index.ts:834-898 | the reporting pushes: the alt summary from the missing-alt tally, a warning per non-zero generic, short, long and poor-filename tally, then the keyword and image-count notes |
| DesignerIssues.NatToStringRoundTrip | webflow-seo-designer/src/index.ts:331 | a count as a template literal writes it is non-empty, all digits, without a leading zero, and reads back to the count |
| DesignerHierarchy.AnalyzeHeadingHierarchy | webflow-seo-designer/src/index.ts:1089-1127 | `analyzeHeadingHierarchy` returns the hierarchy issues of the headings: nothing for none, else the skips of the level-sorted walk and the missing-H2 warning |
| DesignerHierarchy.WalkSortedHeadings | webflow-seo-designer/src/index.ts:1100-1119 | the `for` loop with `previousLevel` and `levelCounts` reports the skips between the levels, and `levelCounts` holds a positive count for exactly the levels present |
| DesignerHierarchy.SortedLevelsProperties | webflow-seo-designer/src/index.ts:1097 | the sorted copy's levels are ascending and a permutation of the headings' levels |
| DesignerHierarchy.HierarchyDependsOnLevelsOnly | webflow-seo-designer/src/index.ts:1097-1127 | headings with the same levels in any order draw the same issues, because the walk sorts first |
| DesignerHierarchy.SkipsAreSkips | webflow-seo-designer/src/index.ts:1107-1112 | the walk reports only hierarchy skips |
| DesignerHierarchy.MissingH2Reported | webflow-seo-designer/src/index.ts:1122-1127 | the missing-H2 warning appears exactly when there is an H1, no H2 and some H3 to H6 |
| DesignerHierarchy.SkipsAtNeighbours | webflow-seo-designer/src/index.ts:1103-1119 | a skip "H`level` without H`expected`" is reported exactly when two neighbouring levels of the walk are `expected − 1 ≥ 1` and `level > expected` |
| DesignerHierarchy.AscendingSplit | webflow-seo-designer/src/index.ts:1097 | in an ascending list every level is at most its left or at least its right neighbour at a split |
| DesignerHierarchy.NeighboursAreGaps | webflow-seo-designer/src/index.ts:1103-1119 | in the sorted walk, neighbouring levels show a skip exactly when `expected − 1` and `level` are present with nothing between them |
| DesignerHierarchy.FirstAtLeast | webflow-seo-designer/src/index.ts:1103-1119 | an ascending list splits at the first level at least a bound |
| DesignerHierarchy.SkipReported | webflow-seo-designer/src/index.ts:1089-1127 | "H`level` appears without H`expected`" is reported exactly when the page has an H`expected − 1` (expected ≥ 1) and an H`level`, with no level between them |
| DesignerLinks.HrefClassification | webflow-seo-designer/src/index.ts:632-646 | every href is internal or external, and it is both exactly when it starts with `//` |
| DesignerLinks.LinkCountsOne | webflow-seo-designer/src/index.ts:632-646 | each link counts once, or twice when protocol-relative |
| DesignerLinks.ClassifiedCounts | webflow-seo-designer/src/index.ts:632-646 | internal plus external links are all links plus the protocol-relative ones |
| DesignerLinks.NoLinksAlone | webflow-seo-designer/src/index.ts:622-628 | a page without links gets only the "No links detected" note |
| DesignerLinks.LinkReport | webflow-seo-designer/src/index.ts:649-686 | with links, the first issue is "No internal links" exactly when no link is internal, the second "No external links" exactly when none is external, and never both |
| DesignerLinks.GenericAnchorIgnoresCase | webflow-seo-designer/src/index.ts:689-693 | the generic-anchor test ignores the case of the anchor text |
| DesignerLinks.AnalyzeLinkStructure | webflow-seo-designer/src/index.ts:615-704 | `analyzeLinkStructure` reports the link issues of the tree's pre-order links: only the no-links note without links, otherwise the internal summary, the external summary with its nofollow note, and the generic-anchor warning |
| DesignerKeyword.SplitEachAtSeparator | webflow-seo-designer/src/index.ts:439 | splitting at a separator ends the first piece there |
| DesignerKeyword.SplitEachJoin | webflow-seo-designer/src/index.ts:439 | splitting words joined by a separator gives the words back |
| DesignerKeyword.JoinLowerFixed | webflow-seo-designer/src/index.ts:439 | lower-case words joined by a lower-case separator are lower-case |
| DesignerKeyword.HyphenatedKeywordSlug | webflow-seo-designer/src/index.ts:438-445 | the keyword's words joined by hyphens form a slug that passes the keyword-in-slug test |
| DesignerKeyword.H1KeywordCheck | webflow-seo-designer/src/index.ts:455-466 | no H1 note exactly when there is no H1; the success note exactly when some H1 holds the keyword |
| DesignerKeyword.SubheadingKeywordCheck | webflow-seo-designer/src/index.ts:469-480 | no subheading note exactly when there is no H2 or H3; the success note exactly when one of them holds the keyword |
| DesignerKeyword.OpeningStartsWithFirstWord | webflow-seo-designer/src/index.ts:485-487 | the opening tenth always holds the text's first word |
| DesignerKeyword.OpeningFindsFirstWord | webflow-seo-designer/src/index.ts:484-493 | a keyword inside the first word is found in the opening content |
| DesignerKeyword.AnalyzeKeywordPlacement | webflow-seo-designer/src/index.ts:431-503 | `analyzeKeywordPlacement` reports the slug check, then the H1 and H2/H3 checks when there is a root element and a cache, then the check on the first tenth of the cached words (rounded up) when the cache holds text |
| DesignerKeyword.CheckSlugKeyword | webflow-seo-designer/src/index.ts:437-450 | no note without a slug; otherwise "found" exactly when every white-space word of the lower-cased keyword lies inside some hyphen- or underscore-separated word of the lower-cased slug |
| DesignerKeyword.CheckHeadingKeyword | webflow-seo-designer/src/index.ts:453-481 | the H1 note (only when an H1 exists: found exactly when one holds the keyword) followed by the H2/H3 note under the same rule |
| DesignerTechnical.SplitEachCount | webflow-seo-designer/src/index.ts:525 | a split on single characters yields one piece more than there are separators |
| DesignerTechnical.StopWordsNeedSeparators | webflow-seo-designer/src/index.ts:524-532 | a slug has at most one stop word more than separators, so the stop-word note needs at least two separators |
| DesignerTechnical.CleanSlugWarnings | webflow-seo-designer/src/index.ts:514-549 | a slug of at most 60 lower-case letters, digits and single hyphens draws at most the stop-word note |
| DesignerTechnical.FaqExample | webflow-seo-designer/src/index.ts:583 | the FAQ pattern ignores case: "Why? The Answer" matches |
| DesignerTechnical.FaqNeedsQuestionMark | webflow-seo-designer/src/index.ts:583 | a text the FAQ pattern matches holds a question mark |
| DesignerTechnical.LanguageNoteLast | webflow-seo-designer/src/index.ts:602-605 | the language note is always the last technical issue |
| DesignerTechnical.AnalyzeTechnicalSEO | webflow-seo-designer/src/index.ts:508-612 | `analyzeTechnicalSEO` reports the slug, draft, Open Graph, structured-data and language issues in order |
| DesignerTechnical.CheckStructuredData | webflow-seo-designer/src/index.ts:580-598 | Article suggestion for more than 500 cached words, FAQ suggestion for cached text the pattern matches |
| DesignerTechnical.CheckSlug | webflow-seo-designer/src/index.ts:513-549 | the slug checks: length over 60, more than two stop words, characters outside `[a-z0-9-]`, `--` |
| DesignerPage.TitleIssue | webflow-seo-designer/src/index.ts:280-290 | the title issue is about the title field; an error exactly when it is missing, a success exactly when 30 to 60 characters long, a warning otherwise |
| DesignerPage.DescriptionIssue | webflow-seo-designer/src/index.ts:301-311 | the same for the description and 120 to 160 characters |
| DesignerPage.KeywordFoundIgnoringCase | webflow-seo-designer/src/index.ts:292-299 | a field holding the keyword in any case draws the "found" note |
| DesignerPage.H1Issue | webflow-seo-designer/src/index.ts:326-334 | no H1 is an error, one a success, several a warning |
| DesignerPage.QualityNotesNeedSentences | webflow-seo-designer/src/index.ts:381-424 | a repeated-start note needs at least four sentences, a long-sentence note at least one |
| DesignerPage.NoPassiveNoNote | webflow-seo-designer/src/index.ts:397-405 | no passive voice, no passive-voice note |
| DesignerPage.AnalyzePageContent | webflow-seo-designer/src/index.ts:273-428 | `analyzePageContent` reports the meta checks followed by the tree, keyword, link, technical and cached-quality checks, each under the condition the source tests |
| DesignerPage.CheckAfterMeta | webflow-seo-designer/src/index.ts:322-425 | after the meta checks: the H1 and image checks with a root element, the keyword placement with a keyword, the link checks with a root element, the technical checks, and the cached quality notes |
| DesignerPage.CheckMeta | webflow-seo-designer/src/index.ts:280-320 | the title issue, the keyword-in-title note when keyword and title are set, the description issue, the keyword-in-description note when keyword and description are set |
| DesignerPage.CheckDescription | webflow-seo-designer/src/index.ts:301-320 | the description issue followed, when keyword and description are both set, by "found" exactly when the lower-cased description contains the keyword |
| DesignerPage.CheckTree | webflow-seo-designer/src/index.ts:322-349 | the H1 issue for the tree's H1 count, then the image issues of the tree's images |
| DesignerPage.CheckQuality | webflow-seo-designer/src/index.ts:377-425 | long-sentence note over 25%, long-paragraph note for any, passive note over 10% of the sentences, transition note under 30% with more than five sentences, repeated-start note from 3, in that order |
| DesignerScore.MetaComponent | webflow-seo-designer/src/index.ts:990-994 | the meta score is 0, 50 or 100 |
| DesignerScore.MentionComponent | webflow-seo-designer/src/index.ts:997-1004 | the heading and image scores are 0, 50 or 100, and 100 exactly when a success mentions "H1" or "image" |
| DesignerScore.WordScore | webflow-seo-designer/src/index.ts:1011-1015 | in [0, 100]; below 60 exactly under 300 words |
| DesignerScore.ReadScore | webflow-seo-designer/src/index.ts:1018-1023 | in [50, 100]; 100 exactly for readability 60 to 70 |
| DesignerScore.ContentComponent | webflow-seo-designer/src/index.ts:1007-1026 | 0 without content metrics, else in [25, 100] |
| DesignerScore.KeywordComponent | webflow-seo-designer/src/index.ts:1029-1033 | 0, 40, 60 or 100 |
| DesignerScore.WeightedTotalWithin | webflow-seo-designer/src/index.ts:1036-1042 | components in [0, 100] give a weighted total in [0, 100] |
| DesignerScore.CalculateSEOScore | webflow-seo-designer/src/index.ts:964-1052 | -1 with an all-zero breakdown exactly when the keyword is blank; otherwise a total in [0, 100] and the breakdown's meta, heading and image scores and rounded content score |
| DesignerScore.KeywordInH1DecidesHeadings | webflow-seo-designer/src/index.ts:998 | "Focus keyword found in H1" alone gives the heading score 100 |
| DesignerScore.AllAltDecidesImages | webflow-seo-designer/src/index.ts:1003 | "All n images have alt text" alone gives the image score 100 |
| DesignerScore.KeywordInTitleScores | webflow-seo-designer/src/index.ts:1029-1032 | the keyword-in-title success gives at least 60 keyword points |
| DesignerScore.TitleFoundMessage | webflow-seo-designer/src/index.ts:295 | the title success note holds the phrase the score looks for |
| DesignerScore.FieldSuccessesOfMeta | webflow-seo-designer/src/index.ts:990-994 | only the title and description issues carry a field, so they alone decide the meta score |
| DesignerScore.PageMetaComponent | webflow-seo-designer/src/index.ts:280-311 | the meta score of a page is 50 for a title of 30 to 60 characters plus 50 for a description of 120 to 160 |
| DesignerScore.MetaSuccesses | webflow-seo-designer/src/index.ts:280-311 | the title field succeeds exactly for a title of good length, the description likewise |
| DesignerScore.PageKeywordInTitle | webflow-seo-designer/src/index.ts:292-299 | a title holding the keyword gives the page at least 60 keyword points |
| DesignerScore.SecondOfMeta | webflow-seo-designer/src/index.ts:292-299 | the keyword-in-title note follows the title issue |
| DesignerScore.PageImagesAllAlt | webflow-seo-designer/src/index.ts:835-842 | a page whose images all have alt text gets image score 100 |
| ContentCache.Cache.constructor | webflow-seo-designer/src/index.ts:1735-1743 | the cache starts empty |
| ContentCache.Cache.Clear | webflow-seo-designer/src/index.ts:153 | the refresh button and keyword edits empty the cache |
| ContentCache.Cache.AnalyzeContentQuality | webflow-seo-designer/src/index.ts:1759-1840 | a fresh entry is kept; without a root or text the entry stays; otherwise the entry becomes the page's metrics at `now`; the word count shown is the cached, zero or new one |
| DesignerRecommendations.PrioritiesConcat | webflow-seo-designer/src/index.ts:1618 | priority bounds hold for a concatenation |
| DesignerRecommendations.ForEachIssue | webflow-seo-designer/src/index.ts:1342-1388 | the `issues.forEach` loop pushes each issue's advice in order |
| DesignerRecommendations.CollectHas | webflow-seo-designer/src/index.ts:1342-1388 | the advice for any issue is among the collected advice |
| DesignerRecommendations.CollectWithin | webflow-seo-designer/src/index.ts:1342-1388 | a rule's priority bounds hold for everything collected |
| DesignerRecommendations.CollectNone | webflow-seo-designer/src/index.ts:1342-1388 | no issues, no advice |
| DesignerRecommendations.ErrorRule | webflow-seo-designer/src/index.ts:1167-1202 | error advice has priority 2 |
| DesignerRecommendations.DigitRun | webflow-seo-designer/src/index.ts:1205 | the longest digit prefix |
| DesignerRecommendations.ParenNumber | webflow-seo-designer/src/index.ts:1205 | a match of `\((\d+)\)` is non-empty and all digits |
| DesignerRecommendations.ParenNumberAfter | webflow-seo-designer/src/index.ts:1205 | the pattern finds the first parenthesised number |
| DesignerRecommendations.DigitsThenClose | webflow-seo-designer/src/index.ts:1205 | the digit run stops at the closing parenthesis |
| DesignerRecommendations.MultipleH1Count | webflow-seo-designer/src/index.ts:331 | the number in the multiple-H1 warning is the H1 count |
| DesignerRecommendations.MultipleH1Rule | webflow-seo-designer/src/index.ts:1204-1216 | multiple-H1 advice has priority 2.5 |
| DesignerRecommendations.WordCountAdvice | webflow-seo-designer/src/index.ts:1219-1237 | priority 3; none exactly from 600 words; below 300 asks for the missing words to 300, else to 600 |
| DesignerRecommendations.HierarchyRule | webflow-seo-designer/src/index.ts:1242-1265 | hierarchy advice has priority 4 |
| DesignerRecommendations.PushIf | webflow-seo-designer/src/index.ts:1290-1338 | a conditional push keeps the pushed priority |
| DesignerRecommendations.DensityAdvice | webflow-seo-designer/src/index.ts:1268-1288 | priority 5, at most one; "increase" exactly for over 50 words and density under 0.5%, "reduce" exactly for density over 3% |
| DesignerRecommendations.DensityBounds | webflow-seo-designer/src/index.ts:1271-1280 | the percentage comparisons equal the integer ones `200·occ < wc` and `100·occ > 3·wc` |
| DesignerRecommendations.DensityThresholds | webflow-seo-designer/src/index.ts:1273-1280 | a density `d` with `d × words = 100 × occurrences` is under 0.5 exactly when `200 × occurrences < words`, and over 3 exactly when `100 × occurrences > 3 × words` |
| DesignerRecommendations.PercentTimes | webflow-seo-designer/src/index.ts:1271 | the density times the word count is 100 × the occurrences |
| DesignerRecommendations.ScaleLess | webflow-seo-designer/src/index.ts:1273 | multiplying by a positive number keeps order |
| DesignerRecommendations.KeywordAdvice | webflow-seo-designer/src/index.ts:1268-1338 | keyword advice has priority 5 |
| DesignerRecommendations.PlacementAdvice | webflow-seo-designer/src/index.ts:1290-1338 | keyword placement advice has priority 5 |
| DesignerRecommendations.LinkRule | webflow-seo-designer/src/index.ts:1342-1388 | link advice has priority 4.5 to 6 |
| DesignerRecommendations.QualityRule | webflow-seo-designer/src/index.ts:1391-1443 | quality advice has priority 7 |
| DesignerRecommendations.ImageRule | webflow-seo-designer/src/index.ts:1446-1518 | image advice has priority 3 to 8 |
| DesignerRecommendations.TechnicalRule | webflow-seo-designer/src/index.ts:1521-1603 | technical advice has priority 9 |
| DesignerRecommendations.ReadabilityRule | webflow-seo-designer/src/index.ts:1606-1615 | readability advice has priority 10 |
| DesignerRecommendations.DisplayRecommendations | webflow-seo-designer/src/index.ts:1134-1618 | the focus-keyword advice, the early and late advice, sorted by priority (stably) |
| DesignerRecommendations.PushEarly | webflow-seo-designer/src/index.ts:1165-1265 | the advice for each error, each multiple-H1 warning, the word count and each hierarchy issue, in that order |
| DesignerRecommendations.PushLate | webflow-seo-designer/src/index.ts:1268-1615 | the keyword advice, then the advice for each issue under the link, quality, image, technical and readability rules, in that order |
| DesignerRecommendations.Within4 | webflow-seo-designer/src/index.ts:1165-1265 | priority bounds hold for four pieces together |
| DesignerRecommendations.EarlyWithin | webflow-seo-designer/src/index.ts:1165-1265 | the early pushes have priorities 2 to 10 |
| DesignerRecommendations.Within6 | webflow-seo-designer/src/index.ts:1268-1615 | priority bounds hold for six pieces together |
| DesignerRecommendations.LateWithin | webflow-seo-designer/src/index.ts:1268-1615 | the late pushes have priorities 2 to 10 |
| DesignerRecommendations.RestWithin | webflow-seo-designer/src/index.ts:1165-1615 | every push after the focus-keyword one has priority 2 to 10 |
| DesignerRecommendations.SortKeeps | webflow-seo-designer/src/index.ts:1618 | the sort keeps the bounds, orders by priority and permutes |
| DesignerRecommendations.SortHas | webflow-seo-designer/src/index.ts:1618 | the sort loses nothing |
| DesignerRecommendations.RecommendationsOrdered | webflow-seo-designer/src/index.ts:1146-1618 | the recommendations have priorities 1 to 10, ascending, and are a permutation of the pushes |
| DesignerRecommendations.LeastFirst | webflow-seo-designer/src/index.ts:1618 | a priority-1 entry before priority 2 to 10 entries stays first |
| DesignerRecommendations.MissingKeywordFirst | webflow-seo-designer/src/index.ts:1153-1163 | without a keyword, the first recommendation asks for one |
| DesignerRecommendations.NoH1Rule | webflow-seo-designer/src/index.ts:1168-1177 | the no-H1 error yields the add-H1 advice at priority 2 |
| DesignerRecommendations.EarlyShown | webflow-seo-designer/src/index.ts:1165-1618 | every early push is shown |
| DesignerRecommendations.LateShown | webflow-seo-designer/src/index.ts:1268-1618 | every late push is shown |
| DesignerRecommendations.NoH1Advised | webflow-seo-designer/src/index.ts:1167-1177 | a no-H1 error is always advised, at priority 2 |
| DesignerRecommendations.NothingToRecommend | webflow-seo-designer/src/index.ts:1134-1618 | with a keyword, 600 words, clean headings, no cached text and no issues, there is nothing to recommend |
| DesignerRecommendations.TitleAdvice | webflow-seo-designer/src/index.ts:1290-1302 | without the title success note, the keyword advice asks to put the keyword in the title |
| DesignerRecommendations.TitleKeywordAdvised | webflow-seo-designer/src/index.ts:1290-1302 | the same advice is shown |
| DesignerFlow.PageAnalysis | webflow-seo-designer/src/index.ts:187-245 | the analysis shows the page's issues, and a score of -1 exactly without a keyword, else 0 to 100 |
| DesignerFlow.AnalyzePage | webflow-seo-designer/src/index.ts:187-245 | without a page, "no page" and the cache unchanged; else the cache refreshed and the analysis of the page over the old cache |
| DesignerFlow.ShowResults | webflow-seo-designer/src/index.ts:225-239 | the score reads the cache's word count and readability (none without a cache) and the recommendations its headings (none without a cache) |
| DesignerFlow.NoKeywordAnalysis | webflow-seo-designer/src/index.ts:964-980 | without a keyword, score -1 and the add-keyword advice first, for any page and cache |
| DesignerFlow.FreshEntryKept | webflow-seo-designer/src/index.ts:1762-1767 | a fresh entry is kept and its word count shown |
| DesignerFlow.StaleEntryRecomputed | webflow-seo-designer/src/index.ts:1796-1821 | a stale entry is replaced by the page's own metrics at `now` |

## Left out

- HTML parsing (cheerio in `src/services/seo-analyzer.ts`) is a foreign library. The analyzer takes its result as a parsed-page record: title text, optional description, body text, headings and images.
- The Designer's asynchronous element API (`getChildren`, `getTag`, `getText`, `getHeadingLevel`, `getAttribute`) is replaced by a finite element tree. Its failure paths and the try/catch blocks that swallow them are not modelled: every read succeeds.
- DOM reads and writes in `webflow-seo-designer/src/index.ts` are not modelled: `document.getElementById`, `innerHTML`, `classList`, `alert`, `focus`. The focus-keyword input, the word count shown in the panel, the current page and the root element are parameters.
- `analyzePageRealTime` (webflow-seo-designer/src/index.ts:56-147) is not modelled. It is a second, live analysis path that re-runs the title, description and keyword-in-field checks on every edit of the inputs. Those checks are the meta checks of `analyzePageContent`, which `DesignerPage.CheckMeta` models.
- The display and glue functions are not modelled. This covers `displaySEOScore`, `displayContentMetrics`, `displayHeadingStructure`, `displayPageInfo`, `updateCharCount`, `showLoading`, `showError`, `updateMetaTags` and the event wiring of `setupEventListeners`. The two cache resets in `setupEventListeners` are kept as `ContentCache.Cache.Clear`.
- The clock is a parameter: `Date.now()` is `now` in the cache. `executionTime` and `timestamp` in the result of `SEOAnalyzer.analyze` are not modelled.
- Recommendations keep their priority, severity and advice, with the numbers the advice quotes. Titles, emoji, wording and the click actions that focus an input are not modelled.
- The word count `displayRecommendations` reads back from the panel is a natural-number parameter. A panel text that `parseInt` turns into `NaN` is not modelled.
- The passive-voice and transition-word counts come from global regular expressions with `\b` and `\w`. They are inputs of the metrics, given as functions of the text. The FAQ pattern of `analyzeTechnicalSEO` is modelled.
- The focus keyword is counted in `displayRecommendations` with `new RegExp(keyword, 'g')`. It is modelled as a literal, non-overlapping count, so a keyword holding regular-expression metacharacters is not modelled.
- `toFixed(0)` in messages is rounding half up, which matches the non-negative percentages it formats. Other number formatting is not modelled.
- IEEE-754 arithmetic is not modelled: reals are exact, so no floating-point rounding error occurs.
- String lengths count characters, not UTF-16 code units. `toLowerCase` lowers ASCII letters only.
- `recommendations.sort` is modelled as a stable sort that returns a new list. The in-place update of the array is not modelled.
- The Express shell of `src/routes/seo.ts` and `routes/seo.js` is not modelled: routing, authentication, the Webflow API calls, the `Promise.all` fan-out and the response writing. So are `server.js`, `lib/token-store.js`, `lib/webflow-client.js`, the React components of `webflow-seo-extension` and the driver under `test/`.
