/**
 The p.data flat file: one line per posting row, appended by a printer and read back by a parser, over the text
 of the file.
 */
module PData {
  import opened Options

  datatype PostingRow = PostingRow(token: string, url: string, originUrl: string, depth: int, title: string,
                                   termFreq: int, inTitle: bool, inUrl: bool)

  // ---------- Decimal integers ----------

  const MAX_INT := 0x7fff_ffff_ffff_ffff

  predicate IsInt(n: int) { -MAX_INT - 1 <= n <= MAX_INT }

  predicate IsDigit(c: char) { '0' <= c <= '9' }

  function Digits(n: nat): (s: string)
    ensures |s| > 0 && forall i :: 0 <= i < |s| ==> IsDigit(s[i])
  {
    if n < 10 then [('0' as int + n) as char] else Digits(n / 10) + [('0' as int + n % 10) as char]
  }

  function Itoa(n: int): string { if n < 0 then "-" + Digits(-n) else Digits(n) }

  function ParseDigits(s: string): Option<nat> {
    if s == [] then Some(0)
    else
      var init := ParseDigits(s[..|s| - 1]);
      var c := s[|s| - 1];
      if init.Some? && IsDigit(c) then Some(init.value * 10 + (c as int - '0' as int)) else None
  }

  /** An optional sign, then at least one digit and digits only, within the integer range. */
  function Atoi(s: string): Option<int> {
    var signed := s != [] && (s[0] == '-' || s[0] == '+');
    var digits := if signed then s[1..] else s;
    var n := ParseDigits(digits);
    if digits == [] || n.None? then None
    else
      var magnitude: int := n.value;
      var v := if signed && s[0] == '-' then -magnitude else magnitude;
      if IsInt(v) then Some(v) else None
  }

  lemma {:induction false} ParsePrinted(n: nat)
    ensures ParseDigits(Digits(n)) == Some(n)
  {
    if n >= 10 {
      ParsePrinted(n / 10);
      assert Digits(n)[..|Digits(n)| - 1] == Digits(n / 10);
    } else {
      assert Digits(n)[..0] == [];
    }
  }

  /** Printing an integer and reading it back, which works for those of 64 bits and no others. */
  lemma AtoiItoa(n: int)
    ensures Atoi(Itoa(n)) == if -9223372036854775808 <= n <= 9223372036854775807 then Some(n) else None
  {
    ParsePrinted(if n < 0 then -n else n);
    if n < 0 {
      assert Itoa(n)[1..] == Digits(-n);
    } else {
      assert IsDigit(Itoa(n)[0]);
    }
  }

  lemma {:induction false} DigitsOnly(s: string)
    ensures ParseDigits(s).Some? <==> forall i :: 0 <= i < |s| ==> '0' <= s[i] <= '9'
  {
    if s != "" {
      var n := |s| - 1;
      DigitsOnly(s[..n]);
      assert forall i :: 0 <= i < n ==> s[..n][i] == s[i];
    }
  }

  /** What reads as an integer is digits, at least one, after a sign or none; a plus sign and leading zeros change nothing. */
  lemma AtoiShape(s: string)
    ensures Atoi(s).Some? ==> s != "" && var digits := if s[0] == '-' || s[0] == '+' then s[1..] else s;
      digits != "" && forall i :: 0 <= i < |digits| ==> '0' <= digits[i] <= '9'
    ensures s != "" && '0' <= s[0] <= '9' ==> Atoi("+" + s) == Atoi(s) == Atoi("0" + s)
  {
    if s != "" {
      DigitsOnly(if s[0] == '-' || s[0] == '+' then s[1..] else s);
      assert ("+" + s)[1..] == s;
      LeadingZero(s);
    }
  }

  lemma {:induction false} LeadingZero(s: string)
    ensures ParseDigits("0" + s) == ParseDigits(s)
  {
    if s == "" {
      assert "0"[..0] == "";
    } else {
      var n := |s| - 1;
      assert ("0" + s)[..n + 1] == "0" + s[..n];
      LeadingZero(s[..n]);
    }
  }

  // ---------- Lines and fields ----------

  /** The position of the first `c`, or the length when there is none. */
  function IndexOf(s: string, c: char): (i: nat)
    ensures i <= |s| && (i < |s| ==> s[i] == c) && forall k :: 0 <= k < i ==> s[k] != c
  {
    if s == [] || s[0] == c then 0 else 1 + IndexOf(s[1..], c)
  }

  function DropCR(line: string): string {
    if line != [] && line[|line| - 1] == '\r' then line[..|line| - 1] else line
  }

  /** The lines of a text without their ends; a last line need not be ended. */
  function Lines(text: string): seq<string>
    decreases |text|
  {
    if text == [] then []
    else
      var i := IndexOf(text, '\n');
      if i == |text| then [DropCR(text)] else [DropCR(text[..i])] + Lines(text[i + 1..])
  }

  /** At most `n` fields, separated by single spaces; the last one takes the rest. */
  function SplitN(s: string, n: nat): (parts: seq<string>)
    requires n >= 1
    ensures 1 <= |parts| <= n
    decreases n
  {
    var i := IndexOf(s, ' ');
    if n == 1 || i == |s| then [s] else [s[..i]] + SplitN(s[i + 1..], n - 1)
  }

  // ---------- Printing and parsing rows ----------

  function PrintedOrigin(r: PostingRow): string { if r.originUrl == "" then "-" else r.originUrl }

  /** The line format: five fields separated by single spaces. */
  function Format(token: string, url: string, origin: string, depth: int, freq: int): string {
    token + " " + (url + " " + (origin + " " + (Itoa(depth) + " " + Itoa(freq))))
  }

  function RowText(r: PostingRow): string { Format(r.token, r.url, PrintedOrigin(r), r.depth, r.termFreq) }

  function Print(rows: seq<PostingRow>): string {
    if rows == [] then "" else Print(rows[..|rows| - 1]) + RowText(rows[|rows| - 1]) + "\n"
  }

  /** One line read: nothing for an empty or malformed one. */
  function ParseLine(line: string): seq<PostingRow> {
    var parts := SplitN(line, 5);
    if line == "" || |parts| < 5 then []
    else
      var depth, freq := Atoi(parts[3]), Atoi(parts[4]);
      if depth.None? || freq.None? then []
      else [PostingRow(parts[0], parts[1], if parts[2] == "-" then "" else parts[2], depth.value, "", freq.value, false, false)]
  }

  function ParseLines(lines: seq<string>): seq<PostingRow> {
    if lines == [] then [] else ParseLines(lines[..|lines| - 1]) + ParseLine(lines[|lines| - 1])
  }

  function Load(text: string): seq<PostingRow> { ParseLines(Lines(text)) }

  /** What the file keeps of a row. */
  function Stored(r: PostingRow): PostingRow {
    PostingRow(r.token, r.url, r.originUrl, r.depth, "", r.termFreq, false, false)
  }

  function StoredAll(rows: seq<PostingRow>): (rs: seq<PostingRow>)
    ensures |rs| == |rows| && forall i :: 0 <= i < |rs| ==> rs[i] == Stored(rows[i])
  {
    seq(|rows|, i requires 0 <= i < |rows| => Stored(rows[i]))
  }

  predicate Plain(s: string) { ' ' !in s && '\n' !in s }

  predicate Printable(r: PostingRow) {
    Plain(r.token) && Plain(r.url) && Plain(r.originUrl) && r.originUrl != "-" && IsInt(r.depth) && IsInt(r.termFreq)
  }

  /** A text of whole lines. */
  predicate WholeLines(text: string) { text == "" || text[|text| - 1] == '\n' }

  // ---------- Round trip ----------

  lemma {:induction false} IndexOfFirst(a: string, c: char, b: string)
    requires c !in a
    ensures IndexOf(a + [c] + b, c) == |a|
  {
    var s := a + [c] + b;
    forall k | 0 <= k < |a| ensures s[k] != c { assert s[k] == a[k] && a[k] in a; }
    assert s[|a|] == c;
  }

  lemma SplitFirst(a: string, b: string, n: nat)
    requires n >= 2 && ' ' !in a
    ensures SplitN(a + " " + b, n) == [a] + SplitN(b, n - 1)
  {
    IndexOfFirst(a, ' ', b);
    assert (a + " " + b)[..|a|] == a && (a + " " + b)[|a| + 1..] == b;
  }

  lemma ItoaShape(n: int)
    ensures Itoa(n) != "" && ' ' !in Itoa(n) && '\n' !in Itoa(n) && Itoa(n)[|Itoa(n)| - 1] != '\r'
  {}

  lemma RowSplits(r: PostingRow)
    requires Printable(r)
    ensures SplitN(RowText(r), 5) == [r.token, r.url, PrintedOrigin(r), Itoa(r.depth), Itoa(r.termFreq)]
  {
    ItoaShape(r.depth);
    var d := Itoa(r.depth) + " " + Itoa(r.termFreq);
    var o := PrintedOrigin(r) + " " + d;
    var u := r.url + " " + o;
    hide Itoa, SplitN;
    SplitFirst(r.token, u, 5);
    SplitFirst(r.url, o, 4);
    SplitFirst(PrintedOrigin(r), d, 3);
    SplitFirst(Itoa(r.depth), Itoa(r.termFreq), 2);
    SplitOne(Itoa(r.termFreq));
  }

  lemma SplitOne(s: string)
    ensures SplitN(s, 1) == [s]
  {}

  lemma RowParses(r: PostingRow)
    requires Printable(r)
    ensures ParseLine(RowText(r)) == [Stored(r)]
  {
    RowSplits(r);
    AtoiItoa(r.depth);
    AtoiItoa(r.termFreq);
    hide Atoi, Itoa, SplitN;
    assert |RowText(r)| >= 1;
  }

  lemma RowIsOneLine(r: PostingRow)
    requires Printable(r)
    ensures Lines(RowText(r) + "\n") == [RowText(r)] && '\n' !in RowText(r)
  {
    ItoaShape(r.depth);
    ItoaShape(r.termFreq);
    hide Itoa;
    var t := RowText(r);
    assert '\n' !in t;
    assert t[|t| - 1] == Itoa(r.termFreq)[|Itoa(r.termFreq)| - 1];
    IndexOfFirst(t, '\n', "");
    assert t + ['\n'] + "" == t + "\n";
    assert (t + "\n")[..|t|] == t && (t + "\n")[|t| + 1..] == "";
  }

  lemma {:induction false} LinesConcat(a: string, b: string)
    requires WholeLines(a)
    ensures Lines(a + b) == Lines(a) + Lines(b)
    decreases |a|
  {
    hide DropCR;
    if a == "" {
      assert a + b == b;
    } else {
      var i := IndexOf(a, '\n');
      assert a[|a| - 1] == '\n';
      assert i < |a|;
      IndexOfFirst(a[..i], '\n', a[i + 1..] + b);
      assert a[..i] + ['\n'] + (a[i + 1..] + b) == a + b;
      assert (a + b)[..i] == a[..i] && (a + b)[i + 1..] == a[i + 1..] + b;
      LinesConcat(a[i + 1..], b);
    }
  }

  lemma {:induction false} ParseLinesConcat(a: seq<string>, b: seq<string>)
    ensures ParseLines(a + b) == ParseLines(a) + ParseLines(b)
    decreases |b|
  {
    hide ParseLine;
    if b == [] {
      assert a + b == a;
    } else {
      var n := |b| - 1;
      assert (a + b)[..|a + b| - 1] == a + b[..n];
      ParseLinesConcat(a, b[..n]);
    }
  }

  lemma LoadConcat(a: string, b: string)
    requires WholeLines(a)
    ensures Load(a + b) == Load(a) + Load(b)
  {
    LinesConcat(a, b);
    ParseLinesConcat(Lines(a), Lines(b));
  }

  lemma {:induction false} PrintedIsWhole(rows: seq<PostingRow>)
    ensures WholeLines(Print(rows))
  {}

  lemma LoadRow(r: PostingRow)
    requires Printable(r)
    ensures Load(RowText(r) + "\n") == [Stored(r)]
  {
    RowIsOneLine(r);
    RowParses(r);
    hide RowText, ParseLine, Lines, Printable, Stored;
    assert ParseLines([RowText(r)]) == ParseLines([RowText(r)][..0]) + ParseLine(RowText(r));
  }

  lemma PrintStep(rows: seq<PostingRow>, r: PostingRow)
    ensures Print(rows + [r]) == Print(rows) + (RowText(r) + "\n")
  {
    hide RowText;
    assert (rows + [r])[..|rows|] == rows;
  }

  lemma {:induction false} LoadPrint(rows: seq<PostingRow>)
    requires forall r :: r in rows ==> Printable(r)
    ensures Load(Print(rows)) == StoredAll(rows)
    decreases |rows|
  {
    hide RowText, Load, Printable, Stored, WholeLines;
    if rows == [] {
      LoadNothing();
    } else {
      var n := |rows| - 1;
      var r := rows[n];
      assert rows == rows[..n] + [r];
      LoadPrint(rows[..n]);
      PrintedIsWhole(rows[..n]);
      PrintStep(rows[..n], r);
      hide Print;
      LoadConcat(Print(rows[..n]), RowText(r) + "\n");
      LoadRow(r);
      assert StoredAll(rows) == StoredAll(rows[..n]) + [Stored(r)];
    }
  }

  lemma LoadNothing()
    ensures Load("") == []
  {}

  /** Loading after an append gives what was there, malformed lines and all, then the appended rows as stored. */
  lemma {:induction false} LoadAfterAppend(before: string, rows: seq<PostingRow>)
    requires WholeLines(before) && forall r :: r in rows ==> Printable(r)
    ensures Load(before + Print(rows)) == Load(before) + StoredAll(rows) && WholeLines(before + Print(rows))
  {
    LoadConcat(before, Print(rows));
    LoadPrint(rows);
    PrintedIsWhole(rows);
    hide Load, Print;
  }

  // ---------- Any line ----------

  function Spaces(s: string): nat { multiset(s)[' '] }

  lemma SpacesAround(a: string, b: string)
    ensures Spaces(a + " " + b) == Spaces(a) + 1 + Spaces(b)
    ensures ' ' !in a <==> Spaces(a) == 0
  {
    assert multiset(a + " " + b) == multiset(a) + multiset{' '} + multiset(b);
    assert ' ' in multiset(a) <==> ' ' in a;
  }

  lemma {:induction false} SplitCounts(s: string, n: nat)
    requires n >= 1
    ensures |SplitN(s, n)| == if Spaces(s) + 1 <= n then Spaces(s) + 1 else n
    decreases n
  {
    hide Spaces;
    var i := IndexOf(s, ' ');
    if i < |s| {
      assert s == s[..i] + " " + s[i + 1..];
      SpacesAround(s[..i], s[i + 1..]);
      if n > 1 { SplitCounts(s[i + 1..], n - 1); }
    } else {
      SpacesAround(s, "");
    }
  }

  /** Five fields, of which only the last can hold spaces. */
  ghost predicate FiveFields(line: string, a: string, b: string, c: string, d: string, e: string) {
    line == a + " " + (b + " " + (c + " " + (d + " " + e))) && ' ' !in a && ' ' !in b && ' ' !in c && ' ' !in d
  }

  lemma FiveFieldsSplit(line: string, a: string, b: string, c: string, d: string, e: string)
    requires FiveFields(line, a, b, c, d, e)
    ensures SplitN(line, 5) == [a, b, c, d, e] && line != ""
  {
    hide SplitN;
    var s1 := d + " " + e;
    var s2 := c + " " + s1;
    var s3 := b + " " + s2;
    SplitFirst(a, s3, 5);
    SplitFirst(b, s2, 4);
    SplitFirst(c, s1, 3);
    SplitFirst(d, e, 2);
    SplitOne(e);
    assert |line| >= 1;
  }

  /** Nothing is read from a line with fewer than four spaces. */
  lemma ShortLineIsSkipped(line: string)
    requires Spaces(line) < 4
    ensures ParseLine(line) == []
  {
    SplitCounts(line, 5);
    hide Atoi, SplitN, Spaces;
  }

  /**
   Any other line is cut at its first four spaces; nothing is read from it if the fourth or the fifth field is no integer,
   and else one row of its fields, a "-" standing for an empty origin, without title or flags.
   */
  lemma LineIsRead(line: string, a: string, b: string, c: string, d: string, e: string)
    requires FiveFields(line, a, b, c, d, e)
    ensures ParseLine(line) == if Atoi(d).Some? && Atoi(e).Some?
                               then [PostingRow(a, b, if c == "-" then "" else c, Atoi(d).value, "", Atoi(e).value, false, false)] else []
  {
    FiveFieldsSplit(line, a, b, c, d, e);
    hide Atoi, SplitN, FiveFields;
  }

  lemma FirstField(s: string) returns (a: string, rest: string)
    requires Spaces(s) >= 1
    ensures s == a + " " + rest && ' ' !in a && Spaces(rest) == Spaces(s) - 1
  {
    var i := IndexOf(s, ' ');
    SpacesAround(s, "");
    a, rest := s[..i], s[i + 1..];
    assert s == a + " " + rest;
    SpacesAround(a, rest);
  }

  /** Every line with four spaces or more has five such fields, so the above covers every line. */
  lemma LineHasFields(line: string) returns (a: string, b: string, c: string, d: string, e: string)
    requires Spaces(line) >= 4
    ensures FiveFields(line, a, b, c, d, e)
  {
    var s1, s2, s3;
    hide Spaces;
    a, s1 := FirstField(line);
    b, s2 := FirstField(s1);
    c, s3 := FirstField(s2);
    d, e := FirstField(s3);
  }

  lemma FirstLine(line: string, rest: string)
    requires '\n' !in line
    ensures Lines(line + "\n" + rest) == [DropCR(line)] + Lines(rest)
  {
    hide DropCR;
    IndexOfFirst(line, '\n', rest);
    hide IndexOf;
    var text := line + "\n" + rest;
    assert text[..|line|] == line && text[|line| + 1..] == rest && |text| > |line|;
  }

  lemma DropCROnce(line: string)
    requires line == "" || line[|line| - 1] != '\r'
    ensures DropCR(line) == line == DropCR(line + "\r")
  {
    assert (line + "\r")[..|line|] == line;
  }

  /** A line may end in a newline or in a carriage return and a newline. */
  lemma LineEnds(line: string, rest: string)
    requires '\n' !in line && (line == "" || line[|line| - 1] != '\r')
    ensures Lines(line + "\n" + rest) == [line] + Lines(rest) == Lines(line + "\r\n" + rest)
  {
    hide DropCR, Lines;
    DropCROnce(line);
    FirstLine(line, rest);
    FirstLine(line + "\r", rest);
    assert line + "\r\n" + rest == line + "\r" + "\n" + rest;
  }

  lemma ShortNumbers()
    ensures Itoa(2) == "2" && Itoa(17) == "17" && Itoa(-5) == "-5"
  {
    assert Digits(1) == "1";
    assert Digits(17) == Digits(1) + "7";
  }

  /** What a printed row looks like. */
  lemma PrintedLine()
    ensures Print([PostingRow("go", "http://a", "", 2, "Home", 17, true, false)]) == "go http://a - 2 17\n"
    ensures Itoa(-5) == "-5" && Atoi("-5") == Some(-5)
  {
    hide Atoi, Itoa;
    ShortNumbers();
    AtoiItoa(-5);
    var row := PostingRow("go", "http://a", "", 2, "Home", 17, true, false);
    PrintStep([], row);
    assert [] + [row] == [row];
  }

  // ---------- What can be read at all ----------

  lemma {:induction false} LinesHoldNoNewline(text: string)
    ensures forall l :: l in Lines(text) ==> '\n' !in l
    decreases |text|
  {
    hide DropCR;
    if text != "" {
      var i := IndexOf(text, '\n');
      forall k | 0 <= k < i ensures text[..i][k] != '\n' {}
      DropCRKeepsLine(text[..i]);
      if i < |text| { LinesHoldNoNewline(text[i + 1..]); } else { assert text[..i] == text; }
    }
  }

  lemma DropCRKeepsLine(line: string)
    requires '\n' !in line
    ensures '\n' !in DropCR(line)
  {}

  lemma {:induction false} FieldsHoldNoSpace(s: string, n: nat)
    requires n >= 1 && '\n' !in s
    ensures forall i :: 0 <= i < |SplitN(s, n)| ==> '\n' !in SplitN(s, n)[i] && (i < n - 1 ==> ' ' !in SplitN(s, n)[i])
    decreases n
  {
    var i := IndexOf(s, ' ');
    assert ' ' !in s[..i];
    if n > 1 && i < |s| { FieldsHoldNoSpace(s[i + 1..], n - 1); }
  }

  lemma AtoiInRange(s: string)
    ensures Atoi(s).Some? ==> IsInt(Atoi(s).value)
  {}

  lemma LineParsesPrintable(line: string)
    requires '\n' !in line
    ensures forall r :: r in ParseLine(line) ==> Printable(r) && r == Stored(r)
  {
    FieldsHoldNoSpace(line, 5);
    var parts := SplitN(line, 5);
    if |parts| == 5 {
      AtoiInRange(parts[3]);
      AtoiInRange(parts[4]);
    }
    hide Atoi, SplitN;
  }

  lemma {:induction false} LinesParsePrintable(lines: seq<string>)
    requires forall l :: l in lines ==> '\n' !in l
    ensures forall r :: r in ParseLines(lines) ==> Printable(r) && r == Stored(r)
  {
    hide ParseLine, Printable, Stored;
    if lines != [] {
      LinesParsePrintable(lines[..|lines| - 1]);
      LineParsesPrintable(lines[|lines| - 1]);
    }
  }

  /** Whatever the text, only printable rows are ever read from it. */
  lemma LoadedArePrintable(text: string)
    ensures forall r :: r in Load(text) ==> Printable(r) && r == Stored(r)
  {
    LinesHoldNoNewline(text);
    LinesParsePrintable(Lines(text));
  }

  /** Writing back what was read changes nothing. */
  lemma LoadPrintLoad(text: string)
    ensures Load(Print(Load(text))) == Load(text)
  {
    LoadedArePrintable(text);
    LoadPrint(Load(text));
    hide Load, Print, Stored;
    assert StoredAll(Load(text)) == Load(text);
  }

  /** A row comes back from the file exactly when it is printable: no space or newline in its texts, no "-" as origin. */
  lemma RoundTripIff(r: PostingRow)
    ensures Load(Print([r])) == [Stored(r)] <==> Printable(r)
  {
    if Printable(r) {
      LoadPrint([r]);
      assert StoredAll([r]) == [Stored(r)];
    }
    LoadedArePrintable(Print([r]));
    if Load(Print([r])) == [Stored(r)] {
      assert Stored(r) in Load(Print([r]));
    }
    hide Load, Print;
  }

  lemma {:induction false} PrintConcat(a: seq<PostingRow>, b: seq<PostingRow>)
    ensures Print(a + b) == Print(a) + Print(b)
    decreases |b|
  {
    hide RowText;
    if b == [] {
      assert a + b == a;
    } else {
      var n := |b| - 1;
      assert (a + b)[..|a + b| - 1] == a + b[..n];
      PrintConcat(a, b[..n]);
    }
  }

  // ---------- The file ----------

  lemma PrintNothing()
    ensures Print([]) == ""
  {}

  lemma RowTextIs(r: PostingRow)
    ensures RowText(r) == Format(r.token, r.url, if r.originUrl == "" then "-" else r.originUrl, r.depth, r.termFreq)
  {
    hide Format;
  }

  /** Writes the rows to a buffer, one line each. */
  method WriteRows(postings: seq<PostingRow>) returns (w: string)
    ensures w == Print(postings)
  {
    hide *;
    w := "";
    PrintNothing();
    assert postings[..0] == [];
    for i := 0 to |postings|
      invariant w == Print(postings[..i])
    {
      var p := postings[i];
      var origin := p.originUrl;
      if origin == "" {
        origin := "-";
      }
      assert postings[..i + 1] == postings[..i] + [p];
      PrintStep(postings[..i], p);
      RowTextIs(p);
      w := w + (Format(p.token, p.url, origin, p.depth, p.termFreq) + "\n");
    }
    assert postings[..|postings|] == postings;
  }


  class PDataFile {
    var present: bool
    var text: string

    /** A file that is not there has no text. */
    predicate Consistent() reads this { present || text == "" }

    constructor ()
      ensures !present && text == ""
    {
      present, text := false, "";
    }

    /** Appends the rows, creating the file if need be; appending none does not even create it. */
    method AppendPostings(postings: seq<PostingRow>)
      modifies this
      ensures text == old(text) + Print(postings)
      ensures present == (old(present) || |postings| > 0)
      ensures |postings| == 0 ==> text == old(text)
    {
      if |postings| == 0 {
        assert text + "" == text;
        return;
      }
      var w := WriteRows(postings);
      present, text := true, text + w;
    }

    /** Reads every well-formed row; a file that is not there holds none. */
    method LoadPostings() returns (result: seq<PostingRow>)
      ensures result == if present then Load(text) else []
    {
      result := [];
      if !present {
        return;
      }
      var lines := Lines(text);
      for i := 0 to |lines|
        invariant result == ParseLines(lines[..i])
      {
        assert lines[..i + 1][..i] == lines[..i];
        var line := lines[i];
        if line == "" {
          continue;
        }
        var parts := SplitN(line, 5);
        if |parts| < 5 {
          continue;
        }
        var depth := Atoi(parts[3]);
        if depth.None? {
          continue;
        }
        var freq := Atoi(parts[4]);
        if freq.None? {
          continue;
        }
        var origin := parts[2];
        if origin == "-" {
          origin := "";
        }
        result := result + [PostingRow(parts[0], parts[1], origin, depth.value, "", freq.value, false, false)];
      }
      assert lines[..|lines|] == lines;
    }
  }
}
