/**
 * The JavaScript string operations the analyzers rely on: the `\s` character
 * class and `trim`, ASCII `toLowerCase`, `split` on a separator class,
 * `includes`, `startsWith` and `join`.
 */
module Text {
  import opened Seqs

  /** JavaScript's `\s` class, which is also what `trim` removes. */
  const Whitespace: set<char> := {
    '\t', '\n', '\U{B}', '\U{C}', '\r', ' ', '\U{A0}', '\U{1680}',
    '\U{2000}', '\U{2001}', '\U{2002}', '\U{2003}', '\U{2004}', '\U{2005}',
    '\U{2006}', '\U{2007}', '\U{2008}', '\U{2009}', '\U{200A}',
    '\U{2028}', '\U{2029}', '\U{202F}', '\U{205F}', '\U{3000}', '\U{FEFF}'
  }

  predicate IsSpace(c: char) {
    c in Whitespace
  }

  /** A string that `trim` reduces to the empty string. */
  predicate IsBlank(s: string) {
    forall i :: 0 <= i < |s| ==> IsSpace(s[i])
  }

  predicate IsAsciiUpper(c: char) { 'A' <= c <= 'Z' }

  /** `toLowerCase` restricted to ASCII letters. */
  function LowerChar(c: char): (r: char)
    ensures !IsAsciiUpper(r)
    ensures IsSpace(r) <==> IsSpace(c)
    ensures !IsAsciiUpper(c) ==> r == c
  {
    if IsAsciiUpper(c) then (c as int + 32) as char else c
  }

  function Lower(s: string): (r: string)
    ensures |r| == |s|
    ensures forall i :: 0 <= i < |s| ==> r[i] == LowerChar(s[i])
  {
    seq(|s|, i requires 0 <= i < |s| => LowerChar(s[i]))
  }

  /** `trimStart`. */
  function TrimStart(s: string): string
    decreases |s|
  {
    if s != [] && IsSpace(s[0]) then TrimStart(s[1..]) else s
  }

  /** `trimEnd`. */
  function TrimEnd(s: string): string
    decreases |s|
  {
    if s != [] && IsSpace(s[|s| - 1]) then TrimEnd(s[..|s| - 1]) else s
  }

  /** `s.trim()`. */
  function Trim(s: string): string {
    TrimEnd(TrimStart(s))
  }

  lemma {:induction false} TrimStartProperties(s: string)
    ensures |TrimStart(s)| <= |s| && TrimStart(s) == s[|s| - |TrimStart(s)|..]
    ensures TrimStart(s) != [] ==> !IsSpace(TrimStart(s)[0])
    ensures TrimStart(s) == [] <==> IsBlank(s)
    decreases |s|
  {
    if s != [] && IsSpace(s[0]) {
      TrimStartProperties(s[1..]);
      if IsBlank(s[1..]) {
        assert forall i :: 0 < i < |s| ==> s[i] == s[1..][i - 1];
      }
    }
  }

  lemma {:induction false} TrimEndProperties(s: string)
    ensures |TrimEnd(s)| <= |s| && TrimEnd(s) == s[..|TrimEnd(s)|]
    ensures TrimEnd(s) != [] ==> !IsSpace(TrimEnd(s)[|TrimEnd(s)| - 1])
    ensures TrimEnd(s) == [] <==> IsBlank(s)
    decreases |s|
  {
    if s != [] && IsSpace(s[|s| - 1]) {
      TrimEndProperties(s[..|s| - 1]);
      if IsBlank(s[..|s| - 1]) {
        assert forall i :: 0 <= i < |s| - 1 ==> s[i] == s[..|s| - 1][i];
      }
    }
  }

  /** `trim` drops the white space at both ends, and leaves nothing exactly of a blank string. */
  lemma TrimProperties(s: string)
    ensures |Trim(s)| <= |s|
    ensures Trim(s) == [] <==> IsBlank(s)
    ensures Trim(s) != [] ==> !IsSpace(Trim(s)[0]) && !IsSpace(Trim(s)[|Trim(s)| - 1])
  {
    var t := TrimStart(s);
    TrimStartProperties(s);
    TrimEndProperties(t);
    if t != [] {
      assert !IsSpace(t[0]);
      assert !IsBlank(t);
    }
  }

  lemma TrimOfLower(s: string)
    ensures Trim(Lower(s)) == [] <==> Trim(s) == []
  {
    TrimProperties(s);
    TrimProperties(Lower(s));
    assert IsBlank(Lower(s)) <==> IsBlank(s);
  }

  lemma {:induction false} TrimStartLower(s: string)
    ensures TrimStart(Lower(s)) == Lower(TrimStart(s))
    decreases |s|
  {
    if s != [] {
      assert Lower(s)[1..] == Lower(s[1..]);
      if IsSpace(s[0]) {
        TrimStartLower(s[1..]);
      }
    }
  }

  lemma {:induction false} TrimEndLower(s: string)
    ensures TrimEnd(Lower(s)) == Lower(TrimEnd(s))
    decreases |s|
  {
    if s != [] {
      var n := |s| - 1;
      assert Lower(s)[..n] == Lower(s[..n]);
      assert IsSpace(Lower(s)[n]) == IsSpace(s[n]) by {
        assert Lower(s)[n] == LowerChar(s[n]);
      }
      if IsSpace(s[n]) {
        TrimEndLower(s[..n]);
      }
    }
  }

  /** Lower-casing and trimming commute, so lower-casing never changes a trimmed length. */
  lemma TrimLower(s: string)
    ensures Trim(Lower(s)) == Lower(Trim(s))
    ensures |Trim(Lower(s))| == |Trim(s)|
  {
    TrimStartLower(s);
    TrimEndLower(TrimStart(s));
  }

  /** `s.startsWith(prefix)`. */
  predicate StartsWith(s: string, prefix: string) {
    |prefix| <= |s| && s[..|prefix|] == prefix
  }

  /** `s.includes(sub)`. */
  predicate Contains(s: string, sub: string)
    decreases |s|
  {
    StartsWith(s, sub) || (s != [] && Contains(s[1..], sub))
  }

  /** An occurrence of `sub` at position `i` of `s` makes `s` contain it. */
  lemma {:induction false} ContainsAt(s: string, sub: string, i: nat)
    requires i + |sub| <= |s| && s[i..i + |sub|] == sub
    ensures Contains(s, sub)
    decreases i
  {
    if i > 0 {
      assert s[1..][i - 1..i - 1 + |sub|] == s[i..i + |sub|];
      ContainsAt(s[1..], sub, i - 1);
    }
  }

  /** Whatever a piece of a string contains, the whole string contains. */
  lemma ContainsInConcat(a: string, b: string, c: string, sub: string)
    requires Contains(b, sub)
    ensures Contains(a + b + c, sub)
  {
    var i := ContainsWitness(b, sub);
    assert (a + b + c)[|a| + i..|a| + i + |sub|] == b[i..i + |sub|];
    ContainsAt(a + b + c, sub, |a| + i);
  }

  /** Where a contained string occurs. */
  lemma {:induction false} ContainsWitness(s: string, sub: string) returns (i: nat)
    requires Contains(s, sub)
    ensures i + |sub| <= |s| && s[i..i + |sub|] == sub
    decreases |s|
  {
    if StartsWith(s, sub) {
      i := 0;
    } else {
      var j := ContainsWitness(s[1..], sub);
      i := j + 1;
      assert s[1..][j..j + |sub|] == s[i..i + |sub|];
    }
  }

  /** Drops the leading separators of `s`. */
  function DropWhile(s: string, sep: char -> bool): (r: string)
    ensures |r| <= |s| && r == s[|s| - |r|..]
    ensures r != [] ==> !sep(r[0])
    ensures forall i :: 0 <= i < |s| - |r| ==> sep(s[i])
    decreases |s|
  {
    if s != [] && sep(s[0]) then DropWhile(s[1..], sep) else s
  }

  /**
   * `s.split(/[…]+/)`: cuts at every maximal run of separators. Leading and
   * trailing runs yield empty pieces, and the empty string yields `[""]`.
   */
  function SplitRuns(s: string, sep: char -> bool): (r: seq<string>)
    ensures |r| >= 1
    decreases |s|
  {
    if s == [] then [[]]
    else if sep(s[0]) then [[]] + SplitRuns(DropWhile(s, sep), sep)
    else
      var rest := SplitRuns(s[1..], sep);
      [[s[0]] + rest[0]] + rest[1..]
  }

  /** `s.split(/[…]/)`: cuts at every single separator character. */
  function SplitEach(s: string, sep: char -> bool): (r: seq<string>)
    ensures |r| >= 1
    decreases |s|
  {
    if s == [] then [[]]
    else
      var rest := SplitEach(s[1..], sep);
      if sep(s[0]) then [[]] + rest else [[s[0]] + rest[0]] + rest[1..]
  }

  /** The pieces of a split hold characters of the input and no separator. */
  lemma {:induction false} SplitRunsPieces(s: string, sep: char -> bool)
    ensures forall w, c :: w in SplitRuns(s, sep) && c in w ==> c in s && !sep(c)
    decreases |s|
  {
    if s == [] {
    } else if sep(s[0]) {
      var d := DropWhile(s, sep);
      SplitRunsPieces(d, sep);
      forall c | c in d ensures c in s {
        var k :| 0 <= k < |d| && d[k] == c;
        assert s[|s| - |d| + k] == c;
      }
    } else {
      SplitRunsPieces(s[1..], sep);
      var rest := SplitRuns(s[1..], sep);
      assert rest == [rest[0]] + rest[1..];
      forall c | c in s[1..] ensures c in s {
        var k :| 0 <= k < |s[1..]| && s[1..][k] == c;
        assert s[k + 1] == c;
      }
    }
  }

  /** The pieces of a single-character split hold characters of the input and no separator. */
  lemma {:induction false} SplitEachPieces(s: string, sep: char -> bool)
    ensures forall w, c :: w in SplitEach(s, sep) && c in w ==> c in s && !sep(c)
    decreases |s|
  {
    if s != [] {
      SplitEachPieces(s[1..], sep);
      var rest := SplitEach(s[1..], sep);
      assert rest == [rest[0]] + rest[1..];
      forall c | c in s[1..] ensures c in s {
        var k :| 0 <= k < |s[1..]| && s[1..][k] == c;
        assert s[k + 1] == c;
      }
    }
  }

  /** A string without separators splits into itself alone. */
  lemma {:induction false} SplitEachWithoutSeparator(s: string, sep: char -> bool)
    requires forall i :: 0 <= i < |s| ==> !sep(s[i])
    ensures SplitEach(s, sep) == [s]
    decreases |s|
  {
    if s != [] {
      SplitEachWithoutSeparator(s[1..], sep);
      assert [s[0]] + s[1..] == s;
    }
  }

  /** A string of separators only splits into empty pieces. */
  lemma SplitRunsOfSeparators(s: string, sep: char -> bool)
    requires forall i :: 0 <= i < |s| ==> sep(s[i])
    ensures forall w :: w in SplitRuns(s, sep) ==> w == []
  {
    if s != [] {
      assert SplitRuns(s, sep) == [[]] + SplitRuns([], sep);
    }
  }

  /** A non-separator character ends up in a non-empty piece. */
  lemma {:induction false} SplitRunsHasPiece(s: string, sep: char -> bool, i: nat)
    requires i < |s| && !sep(s[i])
    ensures exists w :: w in SplitRuns(s, sep) && w != []
    decreases |s|
  {
    if sep(s[0]) {
      var d := DropWhile(s, sep);
      var k := i - (|s| - |d|);
      assert 0 <= k < |d| && d[k] == s[i];
      SplitRunsHasPiece(d, sep, k);
      var w :| w in SplitRuns(d, sep) && w != [];
      assert w in SplitRuns(s, sep);
    } else {
      var w := SplitRuns(s, sep)[0];
      assert w != [] && w in SplitRuns(s, sep);
    }
  }

  predicate NonEmpty(w: string) { w != [] }

  /** `s.split(/\s+/).filter(w => w.length > 0)`: the white-space separated words of `s`. */
  function Words(s: string): (r: seq<string>)
    ensures forall w :: w in r ==> w != []
  {
    Filter(SplitRuns(s, IsSpace), NonEmpty)
  }

  /** A text has words exactly when it is not blank, and no word holds white space. */
  lemma WordsOfBlank(s: string)
    ensures Words(s) == [] <==> IsBlank(s)
    ensures forall w, c :: w in Words(s) && c in w ==> !IsSpace(c)
  {
    var pieces := SplitRuns(s, IsSpace);
    SplitRunsPieces(s, IsSpace);
    FilterEmptyIff(pieces, NonEmpty);
    if IsBlank(s) {
      SplitRunsOfSeparators(s, IsSpace);
      assert forall j :: 0 <= j < |pieces| ==> pieces[j] in pieces;
    } else {
      var i :| 0 <= i < |s| && !IsSpace(s[i]);
      SplitRunsHasPiece(s, IsSpace, i);
      var w :| w in pieces && w != [];
      var j :| 0 <= j < |pieces| && pieces[j] == w;
    }
  }

  /** `words.join(sep)`. */
  function Join(words: seq<string>, sep: string): string
    decreases |words|
  {
    if words == [] then []
    else if |words| == 1 then words[0]
    else words[0] + sep + Join(words[1..], sep)
  }

  /** The number of non-overlapping occurrences found scanning left to right, as a global regex match does. */
  function CountOccurrences(s: string, pattern: string): (n: nat)
    requires pattern != []
    ensures n * |pattern| <= |s|
    ensures n == 0 <==> !Contains(s, pattern)
    decreases |s|
  {
    if |s| < |pattern| then
      assert !Contains(s, pattern) by { NotContainsShort(s, pattern); }
      0
    else if StartsWith(s, pattern) then 1 + CountOccurrences(s[|pattern|..], pattern)
    else CountOccurrences(s[1..], pattern)
  }

  lemma {:induction false} NotContainsShort(s: string, sub: string)
    requires |s| < |sub|
    ensures !Contains(s, sub)
    decreases |s|
  {
    if s != [] {
      NotContainsShort(s[1..], sub);
    }
  }

  /** Lower-casing works character by character, so it distributes over concatenation. */
  lemma LowerConcat(a: string, b: string)
    ensures Lower(a + b) == Lower(a) + Lower(b)
  {
  }

  /** Lower-casing twice is lower-casing once. */
  lemma LowerIdempotent(s: string)
    ensures Lower(Lower(s)) == Lower(s)
  {
  }

  /** `includes` survives lower-casing both sides. */
  lemma ContainsLower(s: string, sub: string)
    requires Contains(s, sub)
    ensures Contains(Lower(s), Lower(sub))
  {
    var i := ContainsWitness(s, sub);
    forall j | 0 <= j < |sub| ensures Lower(s)[i..i + |sub|][j] == Lower(sub)[j] {
      assert s[i..i + |sub|][j] == s[i + j];
    }
    ContainsAt(Lower(s), Lower(sub), i);
  }

  /** What a contained string contains, the containing string contains too. */
  lemma ContainsTransitive(s: string, mid: string, sub: string)
    requires Contains(s, mid) && Contains(mid, sub)
    ensures Contains(s, sub)
  {
    var i := ContainsWitness(s, mid);
    var j := ContainsWitness(mid, sub);
    forall k | 0 <= k < |sub| ensures s[i + j..i + j + |sub|][k] == sub[k] {
      assert s[i..i + |mid|][j + k] == mid[j + k];
      assert mid[j..j + |sub|][k] == mid[j + k];
    }
    ContainsAt(s, sub, i + j);
  }

  /** `trim` cuts a contiguous piece out of the string. */
  lemma ContainsTrim(s: string)
    ensures Contains(s, Trim(s))
  {
    var t := TrimStart(s);
    TrimStartProperties(s);
    TrimEndProperties(t);
    var k := |s| - |t|;
    assert s[k..k + |Trim(s)|] == Trim(s);
    ContainsAt(s, Trim(s), k);
  }
}
