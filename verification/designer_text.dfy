/**
 * The text metrics of the Designer extension: word count, reading time,
 * syllables, the Flesch Reading Ease score and the sentence and paragraph
 * quality metrics, all over the plain text extracted from the page.
 */
module DesignerText {
  import opened Seqs
  import opened Text
  import opened JsMath

  const WordsPerMinute := 225
  const LongSentenceWords := 20
  const LongParagraphWords := 150

  // ---------------------------------------------------------------------------
  // Words and reading time
  // ---------------------------------------------------------------------------

  /** `text.trim().split(/\s+/).filter(w => w.length > 0)`. */
  function WordList(text: string): seq<string> {
    Words(Trim(text))
  }

  /** `countWords`. */
  function CountWords(text: string): nat {
    |WordList(text)|
  }

  /** A text has no words exactly when it is blank, and no word is empty or holds white space. */
  lemma CountWordsBlank(text: string)
    ensures CountWords(text) == 0 <==> IsBlank(text)
    ensures forall w :: w in WordList(text) ==> w != [] && forall c :: c in w ==> !IsSpace(c)
  {
    var t := Trim(text);
    TrimProperties(text);
    WordsOfBlank(t);
    if t != [] {
      assert !IsSpace(t[0]);
    }
  }

  /** `calculateReadingTime`: `Math.ceil(wordCount / 225)` minutes. */
  function ReadingTime(wordCount: nat): (minutes: nat)
    ensures minutes == 0 <==> wordCount == 0
    ensures (minutes - 1) * WordsPerMinute < wordCount <= minutes * WordsPerMinute
  {
    CeilDiv(wordCount, WordsPerMinute)
  }

  // ---------------------------------------------------------------------------
  // Syllables
  // ---------------------------------------------------------------------------

  const Vowels: set<char> := {'a', 'e', 'i', 'o', 'u', 'y'}

  predicate IsVowel(c: char) { c in Vowels }

  /** Position `i` begins a run of vowels. */
  predicate StartsGroup(w: string, i: int)
    requires 0 <= i < |w|
  {
    IsVowel(w[i]) && (i == 0 || !IsVowel(w[i - 1]))
  }

  /** The number of vowel runs in `w`, counted from the left. */
  function GroupStarts(w: string): (n: nat)
    ensures n <= |w|
    decreases |w|
  {
    if w == [] then 0
    else GroupStarts(w[..|w| - 1]) + (if StartsGroup(w, |w| - 1) then 1 else 0)
  }

  /** Whether a run starts at `i` depends only on the characters up to `i`. */
  lemma GroupStartsStep(w: string, i: nat)
    requires i < |w|
    ensures GroupStarts(w[..i + 1]) == GroupStarts(w[..i]) + (if StartsGroup(w, i) then 1 else 0)
  {
    assert w[..i + 1][..i] == w[..i];
  }

  /** The positions that begin a vowel run. */
  ghost function GroupStartPositions(w: string): set<int> {
    set i | 0 <= i < |w| && StartsGroup(w, i)
  }

  /** The left-to-right count is the number of positions where a vowel run begins. */
  lemma {:induction false} GroupStartsCountsPositions(w: string)
    ensures GroupStarts(w) == |GroupStartPositions(w)|
    decreases |w|
  {
    if w != [] {
      var n := |w| - 1;
      var prefix := w[..n];
      GroupStartsCountsPositions(prefix);
      var before := GroupStartPositions(prefix);
      assert forall i :: 0 <= i < n ==> (StartsGroup(prefix, i) <==> StartsGroup(w, i));
      if StartsGroup(w, n) {
        assert GroupStartPositions(w) == before + {n};
      } else {
        assert GroupStartPositions(w) == before;
      }
    }
  }

  /** `word.endsWith('e')`. */
  predicate EndsWithE(w: string) { w != [] && w[|w| - 1] == 'e' }

  /** What `countSyllables` returns: the vowel runs of the lower-cased word, one fewer for a final 'e', at least 1. */
  function Syllables(word: string): (n: nat)
    ensures n >= 1
  {
    var w := Lower(word);
    Max(1, GroupStarts(w) - (if EndsWithE(w) then 1 else 0))
  }

  /** A word has at least one syllable and never more than it has letters, and a word without vowels has one. */
  lemma SyllablesBounds(word: string)
    ensures 1 <= Syllables(word) <= Max(1, |word|)
    ensures (forall i :: 0 <= i < |word| ==> !IsVowel(LowerChar(word[i]))) ==> Syllables(word) == 1
  {
    var w := Lower(word);
    if forall i :: 0 <= i < |word| ==> !IsVowel(LowerChar(word[i])) {
      GroupStartsCountsPositions(w);
      assert GroupStartPositions(w) == {};
    }
  }

  /** `countSyllables`: one pass over the lower-cased word, tracking whether the previous letter was a vowel. */
  method CountSyllables(word: string) returns (count: int)
    ensures count == Syllables(word)
  {
    var w := Lower(word);
    count := 0;
    var previousWasVowel := false;
    var i := 0;
    while i < |w|
      invariant i <= |w|
      invariant count == GroupStarts(w[..i])
      invariant previousWasVowel <==> i > 0 && IsVowel(w[i - 1])
    {
      GroupStartsStep(w, i);
      var isVowel := IsVowel(w[i]);
      if isVowel && !previousWasVowel {
        count := count + 1;
      }
      previousWasVowel := isVowel;
      i := i + 1;
    }
    assert w[..i] == w;
    if EndsWithE(w) {
      count := count - 1;
    }
    count := Max(1, count);
  }

  // ---------------------------------------------------------------------------
  // Readability
  // ---------------------------------------------------------------------------

  predicate IsSentenceEnd(c: char) { c == '.' || c == '!' || c == '?' }

  /** `s.trim().length > 0`. */
  predicate HasText(s: string) { Trim(s) != [] }

  /** `text.split(/[.!?]+/).filter(s => s.trim().length > 0)`. */
  function Sentences(text: string): seq<string> {
    Filter(SplitRuns(text, IsSentenceEnd), HasText)
  }

  /** The syllables of all the words, summed. */
  function TotalSyllables(words: seq<string>): nat
    decreases |words|
  {
    if words == [] then 0 else Syllables(words[0]) + TotalSyllables(words[1..])
  }

  /** The Flesch Reading Ease formula. */
  function Flesch(words: nat, sentences: nat, syllables: nat): real
    requires words > 0 && sentences > 0
  {
    206.835 - 1.015 * (words as real / sentences as real) - 84.6 * (syllables as real / words as real)
  }

  /** `calculateReadability`: the rounded Flesch score, clamped to [0, 100]; 0 without sentences or words. */
  function Readability(text: string): (score: int)
    ensures 0 <= score <= 100
    ensures Sentences(text) == [] || WordList(text) == [] ==> score == 0
    ensures Sentences(text) != [] && WordList(text) != [] ==>
      var f := Flesch(|WordList(text)|, |Sentences(text)|, TotalSyllables(WordList(text)));
      (-0.5 <= f < 100.5 ==> score as real - 0.5 <= f < score as real + 0.5) &&
      (f < -0.5 ==> score == 0) && (f >= 100.5 ==> score == 100)
  {
    var sentences := Sentences(text);
    var words := WordList(text);
    var syllables := TotalSyllables(words);
    if |sentences| == 0 || |words| == 0 then 0
    else Clamp(Round(Flesch(|words|, |sentences|, syllables)), 0, 100)
  }

  /** Every word contributes at least one syllable. */
  lemma {:induction false} TotalSyllablesAtLeastWords(words: seq<string>)
    ensures TotalSyllables(words) >= |words|
    decreases |words|
  {
    if words != [] {
      TotalSyllablesAtLeastWords(words[1..]);
    }
  }

  /** A blank text scores 0. */
  lemma BlankTextUnreadable(text: string)
    requires IsBlank(text)
    ensures Readability(text) == 0
  {
    CountWordsBlank(text);
  }

  /** More syllables over the same words and sentences never make a text easier to read. */
  lemma FleschDecreasesWithSyllables(words: nat, sentences: nat, fewer: nat, more: nat)
    requires words > 0 && sentences > 0 && fewer <= more
    ensures Clamp(Round(Flesch(words, sentences, more)), 0, 100) <=
            Clamp(Round(Flesch(words, sentences, fewer)), 0, 100)
  {
    var w := words as real;
    assert fewer as real / w <= more as real / w;
    var a := Flesch(words, sentences, more);
    var b := Flesch(words, sentences, fewer);
    assert a <= b;
    assert Round(a) <= Round(b);
  }

  // ---------------------------------------------------------------------------
  // Content quality metrics
  // ---------------------------------------------------------------------------

  /**
   * `text.split(/\n\n|\r\n\r\n/)`: cuts at each blank-line separator, trying
   * the two-character form first at every position.
   */
  function SplitParagraphs(s: string): (r: seq<string>)
    ensures |r| >= 1
    decreases |s|
  {
    if |s| >= 2 && s[..2] == "\n\n" then [""] + SplitParagraphs(s[2..])
    else if |s| >= 4 && s[..4] == "\r\n\r\n" then [""] + SplitParagraphs(s[4..])
    else if s == [] then [""]
    else
      var rest := SplitParagraphs(s[1..]);
      [[s[0]] + rest[0]] + rest[1..]
  }

  /** The non-blank paragraphs. */
  function Paragraphs(text: string): seq<string> {
    Filter(SplitParagraphs(text), HasText)
  }

  /** The words of each piece of text, in order. */
  function WordLists(pieces: seq<string>): seq<seq<string>> {
    Map(pieces, WordList)
  }

  /** A sentence of more than 20 words, given its words. */
  predicate IsLongSentence(words: seq<string>) { |words| > LongSentenceWords }

  /** A paragraph of more than 150 words, given its words. */
  predicate IsLongParagraph(words: seq<string>) { |words| > LongParagraphWords }

  predicate HasWords(words: seq<string>) { words != [] }

  /** The lower-cased first word, or "" when there are no words. */
  function FirstWord(words: seq<string>): string {
    if words != [] then Lower(words[0]) else ""
  }

  /** The keys of the entries that have one, in order. */
  function KeysOf<T>(xs: seq<T>, has: T -> bool, key: T -> string): seq<string> {
    Map(Filter(xs, has), key)
  }

  /** The lower-cased first words of the sentences that have words, in order. */
  function Starts(sentenceWords: seq<seq<string>>): seq<string> {
    KeysOf(sentenceWords, HasWords, FirstWord)
  }

  /** The number of neighbouring equal entries. */
  function AdjacentRepeats(xs: seq<string>): (n: nat)
    ensures n <= if xs == [] then 0 else |xs| - 1
    decreases |xs|
  {
    if |xs| <= 1 then 0
    else
      var k := |xs| - 1;
      AdjacentRepeats(xs[..k]) + (if xs[k] == xs[k - 1] then 1 else 0)
  }

  datatype QualityMetrics = QualityMetrics(
    longSentences: nat,
    totalSentences: nat,
    longSentencePercentage: real,
    longParagraphs: nat,
    totalParagraphs: nat,
    consecutiveSentenceStarts: nat,
    passiveVoiceCount: nat,
    transitionWordCount: nat)

  /**
   * What `analyzeContentQualityMetrics` reports for a text. The passive-voice
   * and transition-word counts come from regular expressions this model
   * takes as given.
   */
  function QualityOf(text: string, passiveVoiceCount: nat, transitionWordCount: nat): (m: QualityMetrics)
    ensures m.totalSentences == |Sentences(text)|
    ensures m.longSentences <= m.totalSentences
    ensures m.totalSentences == 0 ==> m.longSentencePercentage == 0.0
    ensures 0.0 <= m.longSentencePercentage <= 100.0
    ensures m.totalParagraphs >= 1
    ensures m.longParagraphs <= |Paragraphs(text)|
    ensures m.consecutiveSentenceStarts <= Max(0, m.totalSentences - 1)
  {
    var sentenceWords := WordLists(Sentences(text));
    var long := |Filter(sentenceWords, IsLongSentence)|;
    var starts := Starts(sentenceWords);
    var paragraphs := Paragraphs(text);
    QualityMetrics(
      long,
      |sentenceWords|,
      LongPercentage(long, |sentenceWords|),
      |Filter(WordLists(paragraphs), IsLongParagraph)|,
      Max(1, |paragraphs|),
      AdjacentRepeats(starts),
      passiveVoiceCount,
      transitionWordCount)
  }

  /** `totalSentences > 0 ? (longSentences / totalSentences) * 100 : 0`. */
  function LongPercentage(long: nat, total: nat): (p: real)
    requires long <= total
    ensures 0.0 <= p <= 100.0
    ensures total == 0 ==> p == 0.0
    ensures total > 0 ==> p * total as real == long as real * 100.0
  {
    if total > 0 then
      var q := long as real / total as real;
      assert q * total as real == long as real;
      q * 100.0
    else 0.0
  }

  /**
   * What the sentence loop keeps, for any notion of an entry's key: the
   * number of entries so far whose key repeats the previous key seen (not
   * counting the first entry), and that previous key ("" before any).
   */
  function Tally<T>(xs: seq<T>, has: T -> bool, key: T -> string): (r: (nat, string))
    decreases |xs|
  {
    if xs == [] then (0, "")
    else
      var prefix := xs[..|xs| - 1];
      var x := xs[|xs| - 1];
      var (repeats, previous) := Tally(prefix, has, key);
      if has(x) then
        (repeats + (if |prefix| > 0 && key(x) == previous then 1 else 0), key(x))
      else (repeats, previous)
  }

  lemma TallySnoc<T>(xs: seq<T>, x: T, has: T -> bool, key: T -> string)
    ensures var t := Tally(xs, has, key);
      Tally(xs + [x], has, key) ==
        if has(x) then (t.0 + (if |xs| > 0 && key(x) == t.1 then 1 else 0), key(x)) else t
  {
    assert (xs + [x])[..|xs|] == xs;
  }

  /** The last entry, or "" when there is none. */
  function LastOr(xs: seq<string>): string {
    if xs == [] then "" else xs[|xs| - 1]
  }

  /** One more entry adds its key exactly when it has one. */
  lemma KeysOfSnoc<T>(xs: seq<T>, x: T, has: T -> bool, key: T -> string)
    ensures |KeysOf(xs, has, key)| <= |xs|
    ensures KeysOf(xs + [x], has, key) == KeysOf(xs, has, key) + (if has(x) then [key(x)] else [])
  {
    FilterSnoc(xs, x, has);
    MapSnoc(Filter(xs, has), x, key);
  }

  /** One more entry adds a repeat exactly when it equals the previous last entry. */
  lemma AdjacentRepeatsSnoc(xs: seq<string>, x: string)
    ensures AdjacentRepeats(xs + [x]) == AdjacentRepeats(xs) + (if xs != [] && LastOr(xs) == x then 1 else 0)
    ensures LastOr(xs + [x]) == x
  {
    assert (xs + [x])[..|xs|] == xs;
  }

  /**
   * When keys are never empty, the tally counts the neighbouring equal
   * entries among the keys and remembers the last key.
   */
  lemma {:induction false} TallyCountsRepeats<T>(xs: seq<T>, has: T -> bool, key: T -> string)
    requires forall i :: 0 <= i < |xs| && has(xs[i]) ==> key(xs[i]) != []
    ensures Tally(xs, has, key) == (AdjacentRepeats(KeysOf(xs, has, key)), LastOr(KeysOf(xs, has, key)))
    decreases |xs|
  {
    if xs != [] {
      var prefix := xs[..|xs| - 1];
      var x := xs[|xs| - 1];
      assert xs == prefix + [x];
      assert forall i :: 0 <= i < |prefix| ==> prefix[i] == xs[i];
      assert has(x) ==> key(x) != [] by {
        assert x == xs[|xs| - 1];
      }
      TallyCountsRepeats(prefix, has, key);
      TallySnoc(prefix, x, has, key);
      KeysOfSnoc(prefix, x, has, key);
      var keys := KeysOf(prefix, has, key);
      AdjacentRepeatsSnoc(keys, key(x));
      if has(x) {
        assert (|prefix| > 0 && key(x) == LastOr(keys)) <==> (keys != [] && LastOr(keys) == key(x));
        assert KeysOf(xs, has, key) == keys + [key(x)];
      } else {
        assert KeysOf(xs, has, key) == keys;
      }
    }
  }

  /** The first word of a piece of text that has words is never empty. */
  lemma FirstWordNonEmpty(pieces: seq<string>, i: nat)
    requires i < |pieces| && HasWords(WordLists(pieces)[i])
    ensures FirstWord(WordLists(pieces)[i]) != []
  {
    var words := WordList(pieces[i]);
    assert words[0] in words;
  }

  /** The sentence loop's tally counts the sentences whose first word repeats the previous sentence start. */
  lemma StartTallyCountsRepeats(sentences: seq<string>)
    ensures var sentenceWords := WordLists(sentences);
      Tally(sentenceWords, HasWords, FirstWord) == (AdjacentRepeats(Starts(sentenceWords)), LastOr(Starts(sentenceWords)))
  {
    var sentenceWords := WordLists(sentences);
    forall i | 0 <= i < |sentenceWords| && HasWords(sentenceWords[i])
      ensures FirstWord(sentenceWords[i]) != []
    {
      FirstWordNonEmpty(sentences, i);
    }
    TallyCountsRepeats(sentenceWords, HasWords, FirstWord);
  }

  /**
   * The sentence pass of `analyzeContentQualityMetrics`, given the words of
   * each sentence: long sentences and repeated sentence starts.
   */
  method CountSentences(sentenceWords: seq<seq<string>>) returns (longSentences: nat, consecutiveSentenceStarts: nat)
    ensures longSentences == |Filter(sentenceWords, IsLongSentence)|
    ensures consecutiveSentenceStarts == Tally(sentenceWords, HasWords, FirstWord).0
  {
    longSentences := 0;
    consecutiveSentenceStarts := 0;
    var previousStart := "";
    var index := 0;
    while index < |sentenceWords|
      invariant index <= |sentenceWords|
      invariant longSentences == |Filter(sentenceWords[..index], IsLongSentence)|
      invariant (consecutiveSentenceStarts, previousStart) == Tally(sentenceWords[..index], HasWords, FirstWord)
    {
      var words := sentenceWords[index];
      PrefixSnoc(sentenceWords, index);
      FilterSnoc(sentenceWords[..index], words, IsLongSentence);
      TallySnoc(sentenceWords[..index], words, HasWords, FirstWord);
      if |words| > LongSentenceWords {
        longSentences := longSentences + 1;
      }
      if |words| > 0 {
        var firstWord := Lower(words[0]);
        if index > 0 && firstWord == previousStart {
          consecutiveSentenceStarts := consecutiveSentenceStarts + 1;
        }
        previousStart := firstWord;
      }
      index := index + 1;
    }
    assert sentenceWords[..index] == sentenceWords;
  }

  /** The paragraph pass of `analyzeContentQualityMetrics`, given the words of each paragraph. */
  method CountLongParagraphs(paragraphWords: seq<seq<string>>) returns (longParagraphs: nat)
    ensures longParagraphs == |Filter(paragraphWords, IsLongParagraph)|
  {
    longParagraphs := 0;
    var i := 0;
    while i < |paragraphWords|
      invariant i <= |paragraphWords|
      invariant longParagraphs == |Filter(paragraphWords[..i], IsLongParagraph)|
    {
      PrefixSnoc(paragraphWords, i);
      FilterSnoc(paragraphWords[..i], paragraphWords[i], IsLongParagraph);
      if |paragraphWords[i]| > LongParagraphWords {
        longParagraphs := longParagraphs + 1;
      }
      i := i + 1;
    }
    assert paragraphWords[..i] == paragraphWords;
  }

  /** `analyzeContentQualityMetrics`: one pass over the sentences and one over the paragraphs. */
  method AnalyzeContentQualityMetrics(text: string, passiveVoiceCount: nat, transitionWordCount: nat)
    returns (m: QualityMetrics)
    ensures m == QualityOf(text, passiveVoiceCount, transitionWordCount)
  {
    var sentenceWords := WordLists(Sentences(text));
    var totalSentences := |sentenceWords|;
    var longSentences, consecutiveSentenceStarts := CountSentences(sentenceWords);
    StartTallyCountsRepeats(Sentences(text));

    var paragraphs := Paragraphs(text);
    var longParagraphs := CountLongParagraphs(WordLists(paragraphs));

    m := QualityMetrics(
      longSentences,
      totalSentences,
      LongPercentage(longSentences, totalSentences),
      longParagraphs,
      Max(1, |paragraphs|),
      consecutiveSentenceStarts,
      passiveVoiceCount,
      transitionWordCount);
  }
}
