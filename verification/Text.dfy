/**
 Splitting text into tokens. The live index and the crawler's posting rows each have their own tokenizer; on
 ASCII text they find the same words, and only the index drops stop words.
 */
module Text {
  import opened Tally

  /** The platform's character tables: which characters are letters or digits, and their lower case. */
  datatype Alphabet = Alphabet(isLetterOrDigit: char -> bool, lower: char -> char)

  predicate IsAsciiChar(c: char) { c as int < 128 }

  predicate IsAscii(s: string) { forall i :: 0 <= i < |s| ==> IsAsciiChar(s[i]) }

  predicate IsLowerOrDigit(c: char) { 'a' <= c <= 'z' || '0' <= c <= '9' }

  /** The tables say the usual things about ASCII; about other characters nothing is assumed. */
  ghost predicate Sane(al: Alphabet) {
    forall c :: c as int < 128 ==>
      && al.lower(c) == (if 'A' <= c <= 'Z' then c - 'A' + 'a' else c)
      && (al.isLetterOrDigit(c) <==> 'a' <= c <= 'z' || 'A' <= c <= 'Z' || '0' <= c <= '9')
  }

  function Lower(al: Alphabet, s: string): (r: string)
    ensures |r| == |s| && forall i :: 0 <= i < |s| ==> r[i] == al.lower(s[i])
  {
    seq(|s|, i requires 0 <= i < |s| => al.lower(s[i]))
  }

  /** Length in bytes of the UTF-8 encoding, which is what the length checks look at. */
  function ByteLen(w: string): nat {
    if w == [] then 0 else ByteLen(w[..|w| - 1]) + CharBytes(w[|w| - 1])
  }

  function CharBytes(c: char): nat {
    if c as int < 0x80 then 1 else if c as int < 0x800 then 2 else if c as int < 0x10000 then 3 else 4
  }

  /** The maximal runs of word characters, `cur` being the run under way. */
  function FieldsFrom(cur: string, s: string, isWord: char -> bool): seq<string>
    decreases |s|
  {
    if s == [] then (if cur == [] then [] else [cur])
    else if isWord(s[0]) then FieldsFrom(cur + [s[0]], s[1..], isWord)
    else (if cur == [] then [] else [cur]) + FieldsFrom([], s[1..], isWord)
  }

  function Fields(s: string, isWord: char -> bool): seq<string> { FieldsFrom([], s, isWord) }

  const STOP_WORDS: set<string> :=
    {"the", "be", "to", "of", "and", "in", "that", "have", "it", "for"}
    + {"not", "on", "with", "he", "as", "you", "do", "at", "this", "but"}
    + {"his", "by", "from", "they", "we", "say", "her", "she", "or", "an"}
    + {"will", "my", "one", "all", "would", "there", "their", "what", "so", "up"}
    + {"out", "if", "about", "who", "get", "which", "go", "me", "when", "make"}
    + {"can", "like", "no", "just", "him", "know", "take", "into", "your", "some"}
    + {"could", "them", "see", "other", "than", "then", "now", "its", "also", "after"}
    + {"use", "how", "our", "was", "is", "are", "has", "had", "were", "been"}
    + {"am", "did", "does", "a"}

  predicate IsStopWord(w: string) { w in STOP_WORDS }

  /** Words of two bytes or more, without stop words. */
  function Kept(words: seq<string>): seq<string> {
    if words == [] then []
    else Kept(words[..|words| - 1]) + (if IsKept(words[|words| - 1]) then [words[|words| - 1]] else [])
  }

  predicate IsKept(w: string) { ByteLen(w) >= 2 && !IsStopWord(w) }

  /** The tokens of a text, as the index sees them. */
  function Tokens(al: Alphabet, text: string): seq<string> { Kept(Fields(Lower(al, text), al.isLetterOrDigit)) }

  method Tokenize(al: Alphabet, text: string) returns (tokens: seq<string>)
    ensures tokens == Tokens(al, text)
  {
    hide IsStopWord;
    var words := Fields(Lower(al, text), al.isLetterOrDigit);
    tokens := [];
    for i := 0 to |words|
      invariant tokens == Kept(words[..i])
    {
      var w := words[i];
      assert words[..i + 1][..i] == words[..i];
      if ByteLen(w) < 2 {
        continue;
      }
      if IsStopWord(w) {
        continue;
      }
      tokens := tokens + [w];
    }
    assert words[..|words|] == words;
  }

  /** The words of a page as the posting rows count them: body, a space, then the title; stop words stay. */
  function RowWords(al: Alphabet, title: string, body: string): seq<string> {
    Fields(Lower(al, body + " " + title), IsLowerOrDigit)
  }

  // ---------- The two tokenizers agree ----------

  lemma {:induction false} FieldsSplit(cur: string, a: string, sep: char, b: string, isWord: char -> bool)
    requires !isWord(sep)
    ensures FieldsFrom(cur, a + [sep] + b, isWord) == FieldsFrom(cur, a, isWord) + FieldsFrom([], b, isWord)
    decreases |a|
  {
    if a == [] {
      assert (a + [sep] + b)[0] == sep && (a + [sep] + b)[1..] == b;
    } else {
      assert (a + [sep] + b)[0] == a[0] && (a + [sep] + b)[1..] == a[1..] + [sep] + b;
      FieldsSplit(if isWord(a[0]) then cur + [a[0]] else [], a[1..], sep, b, isWord);
    }
  }

  lemma {:induction false} RunGoesOn(cur: string, w: string, isWord: char -> bool)
    requires cur + w != [] && forall i :: 0 <= i < |w| ==> isWord(w[i])
    ensures FieldsFrom(cur, w, isWord) == [cur + w]
    decreases |w|
  {
    if w == [] {
      assert cur + w == cur;
    } else {
      assert cur + w == cur + [w[0]] + w[1..];
      RunGoesOn(cur + [w[0]], w[1..], isWord);
    }
  }

  /** A text of word characters is one field; with FieldsSplit this settles the fields of every text. */
  lemma FieldsOfWord(w: string, isWord: char -> bool)
    requires w != [] && forall i :: 0 <= i < |w| ==> isWord(w[i])
    ensures Fields(w, isWord) == [w] && Fields("", isWord) == []
  {
    RunGoesOn([], w, isWord);
    assert [] + w == w;
  }

  lemma {:induction false} FieldsAgree(cur: string, s: string, f: char -> bool, g: char -> bool)
    requires forall i :: 0 <= i < |s| ==> f(s[i]) == g(s[i])
    ensures FieldsFrom(cur, s, f) == FieldsFrom(cur, s, g)
    decreases |s|
  {
    if s != [] {
      assert forall i :: 0 <= i < |s[1..]| ==> s[1..][i] == s[i + 1];
      FieldsAgree(if f(s[0]) then cur + [s[0]] else [], s[1..], f, g);
    }
  }

  /** Lowered ASCII text holds no capitals, so the two notions of word character coincide on it. */
  lemma LowerHasNoCapitals(al: Alphabet, s: string)
    requires Sane(al) && IsAscii(s)
    ensures forall i :: 0 <= i < |s| ==> al.isLetterOrDigit(Lower(al, s)[i]) == IsLowerOrDigit(Lower(al, s)[i])
  {
    forall i | 0 <= i < |s| ensures al.isLetterOrDigit(Lower(al, s)[i]) == IsLowerOrDigit(Lower(al, s)[i]) {
      assert IsAsciiChar(s[i]) && IsAsciiChar(al.lower(s[i]));
    }
  }

  /** The row words of an ASCII page are the index's raw words of its body followed by those of its title. */
  lemma RowWordsSplit(al: Alphabet, title: string, body: string)
    requires Sane(al) && IsAscii(title) && IsAscii(body)
    ensures RowWords(al, title, body) == Fields(Lower(al, body), al.isLetterOrDigit) + Fields(Lower(al, title), al.isLetterOrDigit)
  {
    assert IsAsciiChar(' ');
    assert Lower(al, body + " " + title) == Lower(al, body) + [' '] + Lower(al, title);
    FieldsSplit([], Lower(al, body), ' ', Lower(al, title), IsLowerOrDigit);
    LowerHasNoCapitals(al, body);
    LowerHasNoCapitals(al, title);
    FieldsAgree([], Lower(al, body), IsLowerOrDigit, al.isLetterOrDigit);
    FieldsAgree([], Lower(al, title), IsLowerOrDigit, al.isLetterOrDigit);
  }

  lemma {:induction false} KeptConcat(a: seq<string>, b: seq<string>)
    ensures Kept(a + b) == Kept(a) + Kept(b)
    decreases |b|
  {
    hide IsKept;
    if b == [] {
      assert a + b == a;
    } else {
      var n := |b| - 1;
      assert (a + b)[..|a + b| - 1] == a + b[..n];
      KeptConcat(a, b[..n]);
    }
  }

  /** Dropping short words and stop words keeps every other word as often as it was. */
  lemma {:induction false} KeptCount(words: seq<string>, w: string)
    ensures multiset(Kept(words))[w] == if IsKept(w) then multiset(words)[w] else 0
  {
    hide IsKept;
    if words != [] {
      var n := |words| - 1;
      var last := words[n];
      KeptCount(words[..n], w);
      assert words == words[..n] + [last];
      LastCount(words[..n], last, w);
      LastCount(Kept(words[..n]), last, w);
    }
  }

  /** For any word the index keeps, title plus body hold it as often as the row words do. */
  lemma RowCountIsTokenCount(al: Alphabet, title: string, body: string, w: string)
    requires Sane(al) && IsAscii(title) && IsAscii(body) && IsKept(w)
    ensures multiset(RowWords(al, title, body))[w] == multiset(Tokens(al, body) + Tokens(al, title))[w]
  {
    hide IsKept, Fields;
    RowWordsSplit(al, title, body);
    hide RowWords;
    KeptCount(Fields(Lower(al, body), al.isLetterOrDigit), w);
    KeptCount(Fields(Lower(al, title), al.isLetterOrDigit), w);
  }

  /** A row word is made of lower-case letters and digits, so it holds no separator of the file format. */
  ghost predicate IsWord(w: string) {
    |w| > 0 && forall i :: 0 <= i < |w| ==> 'a' <= w[i] <= 'z' || '0' <= w[i] <= '9'
  }

  lemma {:induction false} FieldsAreWords(cur: string, s: string)
    requires forall i :: 0 <= i < |cur| ==> IsLowerOrDigit(cur[i])
    ensures forall w :: w in FieldsFrom(cur, s, IsLowerOrDigit) ==> IsWord(w)
    decreases |s|
  {
    if s != [] {
      FieldsAreWords(if IsLowerOrDigit(s[0]) then cur + [s[0]] else [], s[1..]);
    }
  }

  // ---------- What the words of a text are ----------

  /** `s[i..j]` is a run of word characters that cannot be made longer. */
  ghost predicate IsRun(s: string, isWord: char -> bool, i: int, j: int) {
    && 0 <= i < j <= |s| && (forall k :: i <= k < j ==> isWord(s[k]))
    && (i > 0 ==> !isWord(s[i - 1])) && (j < |s| ==> !isWord(s[j]))
  }

  ghost predicate HasRun(s: string, isWord: char -> bool, w: string) {
    exists i, j :: IsRun(s, isWord, i, j) && s[i..j] == w
  }

  /** A separator ends the runs before it and starts those after it. */
  lemma HasRunSplit(a: string, sep: char, b: string, isWord: char -> bool, w: string)
    requires !isWord(sep)
    ensures HasRun(a + [sep] + b, isWord, w) <==> HasRun(a, isWord, w) || HasRun(b, isWord, w)
  {
    var s := a + [sep] + b;
    var n := |a| + 1;
    if i, j :| IsRun(a, isWord, i, j) && a[i..j] == w {
      assert IsRun(s, isWord, i, j) && s[i..j] == a[i..j];
    }
    if i, j :| IsRun(b, isWord, i, j) && b[i..j] == w {
      assert forall k :: n <= k < |s| ==> s[k] == b[k - n];
      assert IsRun(s, isWord, n + i, n + j) && s[n + i..n + j] == b[i..j];
    }
    if i, j :| IsRun(s, isWord, i, j) && s[i..j] == w {
      RunOnOneSide(a, sep, b, isWord, i, j);
    }
  }

  lemma RunOnOneSide(a: string, sep: char, b: string, isWord: char -> bool, i: int, j: int)
    requires !isWord(sep) && IsRun(a + [sep] + b, isWord, i, j)
    ensures var n := |a| + 1;
      || (IsRun(a, isWord, i, j) && a[i..j] == (a + [sep] + b)[i..j])
      || (IsRun(b, isWord, i - n, j - n) && b[i - n..j - n] == (a + [sep] + b)[i..j])
  {
    var s, n := a + [sep] + b, |a| + 1;
    assert s[|a|] == sep;
    if j <= |a| {
      assert forall k :: 0 <= k < |a| ==> a[k] == s[k];
      assert IsRun(a, isWord, i, j) && a[i..j] == s[i..j];
    } else {
      assert n <= i;
      forall k | i - n <= k < j - n ensures isWord(b[k]) { assert b[k] == s[n + k]; }
      assert i > n ==> b[i - n - 1] == s[i - 1];
      assert j < |s| ==> b[j - n] == s[j];
      assert b[i - n..j - n] == s[i..j];
    }
  }

  lemma RunsOfWord(s: string, isWord: char -> bool, w: string)
    requires forall i :: 0 <= i < |s| ==> isWord(s[i])
    ensures HasRun(s, isWord, w) <==> w == s && s != ""
  {
    if s != "" {
      assert IsRun(s, isWord, 0, |s|) && s[0..|s|] == s;
    }
    forall i, j | IsRun(s, isWord, i, j) ensures i == 0 && j == |s| {}
  }

  /** The words of a text are its maximal runs of word characters. */
  lemma {:induction false} FieldsAreRuns(s: string, isWord: char -> bool, w: string)
    ensures w in Fields(s, isWord) <==> HasRun(s, isWord, w)
    decreases |s|
  {
    if k :| 0 <= k < |s| && !isWord(s[k]) {
      var a, b := s[..k], s[k + 1..];
      assert s == a + [s[k]] + b;
      hide HasRun, FieldsFrom;
      FieldsSplit([], a, s[k], b, isWord);
      FieldsAreRuns(a, isWord, w);
      FieldsAreRuns(b, isWord, w);
      HasRunSplit(a, s[k], b, isWord, w);
    } else {
      RunsOfWord(s, isWord, w);
      if s != "" { FieldsOfWord(s, isWord); }
    }
  }

  /** A word has at least one byte per character, at most four, and exactly one when it is ASCII. */
  lemma {:induction false} ByteLenBounds(w: string)
    ensures |w| <= ByteLen(w) <= 4 * |w| && (ByteLen(w) == |w| <==> forall i :: 0 <= i < |w| ==> w[i] as int < 128)
  {
    if w != "" {
      var n := |w| - 1;
      ByteLenBounds(w[..n]);
      assert forall i :: 0 <= i < n ==> w[..n][i] == w[i];
    }
  }

  /** A run of the letters a to z and the digits that cannot be made longer. */
  ghost predicate HasAsciiRun(s: string, w: string) {
    exists i, j :: IsRun(s, c => 'a' <= c <= 'z' || '0' <= c <= '9', i, j) && s[i..j] == w
  }

  lemma AsciiRuns(s: string, w: string)
    ensures HasRun(s, IsLowerOrDigit, w) <==> HasAsciiRun(s, w)
    ensures HasAsciiRun(s, w) ==> ByteLen(w) == |w|
  {
    var isWord := c => 'a' <= c <= 'z' || '0' <= c <= '9';
    forall i, j ensures IsRun(s, IsLowerOrDigit, i, j) <==> IsRun(s, isWord, i, j) {}
    if i, j :| IsRun(s, isWord, i, j) && s[i..j] == w {
      assert forall k :: 0 <= k < |w| ==> w[k] == s[i + k];
      ByteLenBounds(w);
    }
  }

  /**
   In characters: a text counts for the posting rows with its maximal runs of a to z and 0 to 9, after lower-casing, in
   the body or in the title.
   */
  lemma RowWordsAreRuns(al: Alphabet, title: string, body: string, w: string)
    requires Sane(al)
    ensures w in RowWords(al, title, body) <==> HasAsciiRun(Lower(al, body), w) || HasAsciiRun(Lower(al, title), w)
    ensures w in RowWords(al, title, body) ==> ByteLen(w) == |w|
  {
    assert IsAsciiChar(' ') && !IsLowerOrDigit(al.lower(' '));
    assert Lower(al, body + " " + title) == Lower(al, body) + [al.lower(' ')] + Lower(al, title);
    FieldsAreRuns(Lower(al, body + " " + title), IsLowerOrDigit, w);
    HasRunSplit(Lower(al, body), al.lower(' '), Lower(al, title), IsLowerOrDigit, w);
    AsciiRuns(Lower(al, body), w);
    AsciiRuns(Lower(al, title), w);
    hide HasRun, HasAsciiRun, Fields;
  }

  /** The tokens of a text are its maximal runs of letters and digits, after lower-casing, that are kept. */
  lemma TokensAreRuns(al: Alphabet, text: string, t: string)
    ensures t in Tokens(al, text) <==> HasRun(Lower(al, text), al.isLetterOrDigit, t) && IsKept(t)
  {
    var words := Fields(Lower(al, text), al.isLetterOrDigit);
    hide IsKept, Fields;
    FieldsAreRuns(Lower(al, text), al.isLetterOrDigit, t);
    KeptCount(words, t);
    assert t in multiset(Kept(words)) <==> t in Kept(words);
    assert t in multiset(words) <==> t in words;
  }

  // ---------- Which words go ----------

  const STOPS_OF_TWO: set<string> := {
    "am", "an", "as", "at", "be", "by", "do", "go", "he", "if", "in", "is", "it", "me", "my", "no", "of", "on", "or",
    "so", "to", "up", "we"
  }

  const STOPS_OF_THREE: set<string> := {
    "all", "and", "are", "but", "can", "did", "for", "get", "had", "has", "her", "him", "his", "how", "its", "not",
    "now", "one", "our", "out", "say", "see", "she", "the", "use", "was", "who", "you"
  }

  const STOPS_OF_FOUR: set<string> := {
    "also", "been", "does", "from", "have", "into", "just", "know", "like", "make", "some", "take", "than", "that",
    "them", "then", "they", "this", "were", "what", "when", "will", "with", "your"
  }

  const STOPS_OF_FIVE: set<string> := { "about", "after", "could", "other", "their", "there", "which", "would" }

  /** By length: one-letter words go, no word of six letters or more does, and between them these and no others. */
  lemma KeptByLength(w: string)
    requires forall i :: 0 <= i < |w| ==> w[i] as int < 128
    ensures |w| <= 1 ==> !IsKept(w)
    ensures |w| == 2 ==> (IsKept(w) <==> w !in STOPS_OF_TWO)
    ensures |w| == 3 ==> (IsKept(w) <==> w !in STOPS_OF_THREE)
    ensures |w| == 4 ==> (IsKept(w) <==> w !in STOPS_OF_FOUR)
    ensures |w| == 5 ==> (IsKept(w) <==> w !in STOPS_OF_FIVE)
    ensures |w| >= 6 ==> IsKept(w)
  {
    ByteLenBounds(w);
    StopsByLength(w);
    GroupLengths(w);
    hide ByteLen, STOP_WORDS, STOPS_OF_TWO, STOPS_OF_THREE, STOPS_OF_FOUR, STOPS_OF_FIVE;
  }

  lemma StopsByLength(w: string)
    ensures w in STOP_WORDS <==> w == "a" || w in STOPS_OF_TWO || w in STOPS_OF_THREE || w in STOPS_OF_FOUR || w in STOPS_OF_FIVE
  {}

  lemma GroupLengths(w: string)
    ensures (w in STOPS_OF_TWO ==> |w| == 2) && (w in STOPS_OF_THREE ==> |w| == 3)
    ensures (w in STOPS_OF_FOUR ==> |w| == 4) && (w in STOPS_OF_FIVE ==> |w| == 5)
  {}

  /** A word with a character outside ASCII is never dropped, not even one of a single letter. */
  lemma ForeignWordsStay(w: string, i: nat)
    requires i < |w| && w[i] as int >= 128
    ensures IsKept(w)
  {
    ByteLenBounds(w);
    if w in STOP_WORDS { StopsAreAscii(w); }
    hide ByteLen, STOP_WORDS;
  }

  lemma StopsAreAscii(w: string)
    requires w in STOP_WORDS
    ensures forall i :: 0 <= i < |w| ==> w[i] as int < 128
  {
    StopsByLength(w);
    GroupsAreAscii(w);
    hide STOP_WORDS, STOPS_OF_TWO, STOPS_OF_THREE, STOPS_OF_FOUR, STOPS_OF_FIVE;
  }

  lemma GroupsAreAscii(w: string)
    ensures w in STOPS_OF_TWO || w in STOPS_OF_FIVE ==> forall i :: 0 <= i < |w| ==> w[i] as int < 128
    ensures w in STOPS_OF_THREE ==> forall i :: 0 <= i < |w| ==> w[i] as int < 128
    ensures w in STOPS_OF_FOUR ==> forall i :: 0 <= i < |w| ==> w[i] as int < 128
  {}
}
