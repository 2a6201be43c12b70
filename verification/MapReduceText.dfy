/** The text conventions both halves of a job rely on: splitting a file into lines and a line
    into fields, and the "word value" lines that carry a word from a mapper to a reducer. */
module MapReduceText {

  import opened Options

  /** The characters that separate fields (the Unicode White_Space characters). */
  predicate IsSpace(c: char) {
    c == ' ' || '\t' <= c <= '\r' || c == '\U{0085}' || c == '\U{00A0}' || c == '\U{1680}' ||
    '\U{2000}' <= c <= '\U{200A}' || c == '\U{2028}' || c == '\U{2029}' || c == '\U{202F}' ||
    c == '\U{205F}' || c == '\U{3000}'
  }

  /** Non-empty and free of white space. */
  predicate IsToken(s: string) {
    s != "" && forall k :: 0 <= k < |s| ==> !IsSpace(s[k])
  }

  // ---- Fields ----

  /** Length of the leading run of non-space characters. */
  function WordEnd(s: string): (k: nat)
    ensures k <= |s|
    ensures forall j :: 0 <= j < k ==> !IsSpace(s[j])
    ensures k < |s| ==> IsSpace(s[k])
  {
    if s == "" || IsSpace(s[0]) then 0 else 1 + WordEnd(s[1..])
  }

  /** The maximal runs of non-space characters, in order. */
  function Fields(s: string): seq<string>
    decreases |s|
  {
    if s == "" then []
    else if IsSpace(s[0]) then Fields(s[1..])
    else
      var k := WordEnd(s);
      [s[..k]] + Fields(s[k..])
  }

  lemma {:induction false} FieldsAreTokens(s: string)
    ensures forall k :: 0 <= k < |Fields(s)| ==> IsToken(Fields(s)[k])
    decreases |s|
  {
    if s != "" {
      FieldsAreTokens(if IsSpace(s[0]) then s[1..] else s[WordEnd(s)..]);
    }
  }

  lemma WordEndUnique(s: string, k: nat)
    requires k <= |s|
    requires forall j :: 0 <= j < k ==> !IsSpace(s[j])
    requires k < |s| ==> IsSpace(s[k])
    ensures WordEnd(s) == k
  {
  }

  /** With `FieldsSplit`, this determines the fields of every text. */
  lemma {:induction false} FieldsOfToken(s: string)
    requires IsToken(s)
    ensures Fields(s) == [s] && Fields("") == []
  {
    WordEndUnique(s, |s|);
    assert s[..|s|] == s && s[|s|..] == "";
  }

  /** A space anywhere separates what stands before it from what stands after it. */
  lemma {:induction false} FieldsSplit(a: string, space: char, b: string)
    requires IsSpace(space)
    ensures Fields(a + [space] + b) == Fields(a) + Fields(b)
    decreases |a|
  {
    var s := a + [space] + b;
    if a == "" {
      assert s[1..] == b;
    } else if IsSpace(a[0]) {
      assert s[1..] == a[1..] + [space] + b;
      FieldsSplit(a[1..], space, b);
    } else {
      var k := WordEnd(a);
      assert forall j :: 0 <= j < k ==> s[j] == a[j];
      assert s[k] == if k < |a| then a[k] else space;
      WordEndUnique(s, k);
      assert s[..k] == a[..k];
      assert s[k..] == a[k..] + [space] + b;
      FieldsSplit(a[k..], space, b);
    }
  }

  // ---- Lines ----

  /** Length of the text before the first newline. */
  function LineEnd(s: string): (k: nat)
    ensures k <= |s|
    ensures forall j :: 0 <= j < k ==> s[j] != '\n'
    ensures k < |s| ==> s[k] == '\n'
  {
    if s == "" || s[0] == '\n' then 0 else 1 + LineEnd(s[1..])
  }

  function DropCR(s: string): string {
    if s != "" && s[|s| - 1] == '\r' then s[..|s| - 1] else s
  }

  /** The lines a line scanner delivers: newline-terminated, one trailing carriage return
      dropped, and a last line without newline only if it is not empty. */
  function Lines(s: string): seq<string>
    decreases |s|
  {
    if s == "" then []
    else
      var k := LineEnd(s);
      [DropCR(s[..k])] + Lines(if k < |s| then s[k + 1..] else "")
  }

  function WordsOfLines(lines: seq<string>): seq<string> {
    if lines == [] then [] else Fields(lines[0]) + WordsOfLines(lines[1..])
  }

  lemma {:induction false} FieldsDropCR(s: string)
    ensures Fields(DropCR(s)) == Fields(s)
  {
    if s != "" && s[|s| - 1] == '\r' {
      FieldsSplit(s[..|s| - 1], '\r', "");
      assert s == s[..|s| - 1] + ['\r'] + "";
    }
  }

  /** The text after the first line. */
  function AfterLine(s: string): string {
    var k := LineEnd(s);
    if k < |s| then s[k + 1..] else ""
  }

  lemma FieldsFirstLine(s: string)
    requires s != ""
    ensures Fields(s) == Fields(s[..LineEnd(s)]) + Fields(AfterLine(s))
  {
    assert Fields("") == [];
    hide Fields;
    var k := LineEnd(s);
    if k < |s| {
      assert s == s[..k] + ['\n'] + s[k + 1..];
      FieldsSplit(s[..k], '\n', s[k + 1..]);
    } else {
      assert s[..k] == s;
    }
  }

  lemma WordsOfFirstLine(s: string)
    requires s != ""
    ensures WordsOfLines(Lines(s)) == Fields(s[..LineEnd(s)]) + WordsOfLines(Lines(AfterLine(s)))
  {
    hide Fields;
    FieldsDropCR(s[..LineEnd(s)]);
    WordsOfLinesCons(DropCR(s[..LineEnd(s)]), Lines(AfterLine(s)));
  }

  /** Splitting a file into lines first loses no word and reorders none. */
  lemma {:induction false} LinesKeepWords(s: string)
    ensures WordsOfLines(Lines(s)) == Fields(s)
    decreases |s|
  {
    if s != "" {
      hide Fields, Lines, WordsOfLines;
      LinesKeepWords(AfterLine(s));
      FieldsFirstLine(s);
      WordsOfFirstLine(s);
    }
  }

  lemma WordsOfLinesCons(line: string, lines: seq<string>)
    ensures WordsOfLines([line] + lines) == Fields(line) + WordsOfLines(lines)
  {
  }

  lemma LinesAt(line: string, rest: string)
    requires '\n' !in line
    ensures Lines(line + "\n" + rest) == [DropCR(line)] + Lines(rest)
  {
    var s := line + "\n" + rest;
    LineEndUnique(s, |line|);
    assert s[..|line|] == line && s[|line| + 1..] == rest;
  }

  /** A line ends at its newline, a carriage return before that is not part of it, and a last line needs no
      newline. */
  lemma LinesSplit(line: string, rest: string)
    requires '\n' !in line && (line != "" ==> line[|line| - 1] != '\r')
    ensures Lines(line + "\n" + rest) == [line] + Lines(rest) == Lines(line + "\r" + "\n" + rest)
    ensures Lines(line) == if line == "" then [] else [line]
  {
    LinesAt(line, rest);
    LinesAt(line + "\r", rest);
    assert (line + "\r")[..|line|] == line;
    if line != "" {
      LineEndUnique(line, |line|);
      assert line[..|line|] == line;
      assert Lines("") == [];
    }
  }

  // ---- "word value" lines ----

  function FormatLine(word: string, value: string): string {
    word + " " + value + "\n"
  }

  /** A file made of one line per pair. */
  function FormatAll(pairs: seq<(string, string)>): string {
    if pairs == [] then "" else FormatLine(pairs[0].0, pairs[0].1) + FormatAll(pairs[1..])
  }

  lemma {:induction false} FormatAllAppend(a: seq<(string, string)>, b: seq<(string, string)>)
    ensures FormatAll(a + b) == FormatAll(a) + FormatAll(b)
  {
    if a == [] {
      assert a + b == b;
    } else {
      FormatAllAppend(a[1..], b);
      assert (a + b)[1..] == a[1..] + b;
    }
  }

  /** What a reducer keeps of a line: its two fields, or nothing. */
  function ParseLine(line: string): seq<(string, string)> {
    var parts := Fields(line);
    if |parts| != 2 then [] else [(parts[0], parts[1])]
  }

  function ParseLines(lines: seq<string>): seq<(string, string)> {
    if lines == [] then [] else ParseLine(lines[0]) + ParseLines(lines[1..])
  }

  function ParseFile(text: string): seq<(string, string)> {
    ParseLines(Lines(text))
  }

  predicate TokenPairs(pairs: seq<(string, string)>) {
    forall k :: 0 <= k < |pairs| ==> IsToken(pairs[k].0) && IsToken(pairs[k].1)
  }

  lemma LineEndUnique(s: string, k: nat)
    requires k <= |s|
    requires forall j :: 0 <= j < k ==> s[j] != '\n'
    requires k < |s| ==> s[k] == '\n'
    ensures LineEnd(s) == k
  {
  }

  lemma {:induction false} FirstLine(word: string, value: string, rest: string)
    requires IsToken(word) && IsToken(value)
    ensures Lines(FormatLine(word, value) + rest) == [word + " " + value] + Lines(rest)
  {
    var body := word + " " + value;
    var s := FormatLine(word, value) + rest;
    var k := |body|;
    assert s == body + ['\n'] + rest;
    forall j | 0 <= j < k ensures s[j] != '\n' {
      assert s[j] == body[j];
      assert body[j] == if j < |word| then word[j] else if j == |word| then ' ' else value[j - |word| - 1];
    }
    LineEndUnique(s, k);
    assert s[..k] == body && s[k + 1..] == rest;
    assert body[|body| - 1] == value[|value| - 1];
    assert DropCR(body) == body;
  }

  lemma {:induction false} ParseOneLine(word: string, value: string)
    requires IsToken(word) && IsToken(value)
    ensures ParseLine(word + " " + value) == [(word, value)]
  {
    FieldsSplit(word, ' ', value);
    FieldsOfToken(word);
    FieldsOfToken(value);
    assert word + [' '] + value == word + " " + value;
  }

  /** Writing pairs of tokens as lines and reading the file back gives the same pairs in the
      same order. */
  lemma {:induction false} ParseFormatted(pairs: seq<(string, string)>)
    requires TokenPairs(pairs)
    ensures ParseFile(FormatAll(pairs)) == pairs
  {
    if pairs != [] {
      var (w, v) := pairs[0];
      ParseFormatted(pairs[1..]);
      ParseFirstLine(w, v, FormatAll(pairs[1..]));
    }
  }

  lemma {:induction false} ParseFirstLine(word: string, value: string, rest: string)
    requires IsToken(word) && IsToken(value)
    ensures ParseFile(FormatLine(word, value) + rest) == [(word, value)] + ParseFile(rest)
  {
    FirstLine(word, value, rest);
    ParseOneLine(word, value);
    ParseLinesCons(word + " " + value, Lines(rest));
  }

  lemma ParseLinesCons(line: string, lines: seq<string>)
    ensures ParseLines([line] + lines) == ParseLine(line) + ParseLines(lines)
  {
  }

  lemma {:induction false} ParsedAreTokens(lines: seq<string>)
    ensures TokenPairs(ParseLines(lines))
  {
    if lines != [] {
      FieldsAreTokens(lines[0]);
      ParsedAreTokens(lines[1..]);
    }
  }

  /** Only a line of exactly two fields yields a pair. */
  lemma OnlyPairsCount(line: string, rest: string)
    requires '\n' !in line
    ensures ParseFile(line + "\n" + rest)
         == (if |Fields(line)| == 2 then [(Fields(line)[0], Fields(line)[1])] else []) + ParseFile(rest)
  {
    LinesAt(line, rest);
    FieldsDropCR(line);
    ParseLinesCons(DropCR(line), Lines(rest));
  }

  /** A line survives the trip exactly when its value is a token; a file name with a space in it
      is dropped or cut. */
  lemma {:induction false} LineSurvivesIff(word: string, value: string)
    requires IsToken(word)
    ensures ParseFile(FormatLine(word, value)) == [(word, value)] <==> IsToken(value)
  {
    if IsToken(value) {
      ParseFormatted([(word, value)]);
      assert FormatAll([(word, value)]) == FormatLine(word, value);
    } else {
      ParsedAreTokens(Lines(FormatLine(word, value)));
      assert TokenPairs(ParseFile(FormatLine(word, value)));
      assert TokenPairs([(word, value)]) ==> IsToken([(word, value)][0].1);
    }
  }

  // ---- Decimal numbers ----

  predicate IsDigit(c: char) { '0' <= c <= '9' }

  function Digit(c: char): nat
    requires IsDigit(c)
  {
    (c as int) - ('0' as int)
  }

  function DigitsValue(s: string): (n: nat)
    requires AllDigits(s)
  {
    if s == "" then 0 else 10 * DigitsValue(s[..|s| - 1]) + Digit(s[|s| - 1])
  }

  predicate AllDigits(s: string) {
    forall k :: 0 <= k < |s| ==> IsDigit(s[k])
  }

  function Unsigned(s: string): string {
    if s != "" && (s[0] == '+' || s[0] == '-') then s[1..] else s
  }

  /** Decimal text to a 64-bit integer: an optional sign, at least one digit, in range. */
  function Atoi(s: string): Option<int> {
    var body := Unsigned(s);
    if body == "" || !AllDigits(body) then None
    else
      var v: int := if s[0] == '-' then 0 - DigitsValue(body) else DigitsValue(body);
      if -0x8000_0000_0000_0000 <= v < 0x8000_0000_0000_0000 then Some(v) else None
  }

  function DecimalDigit(n: nat): char
    requires n < 10
  {
    '0' + n as char
  }

  /** How a number is written. */
  function Decimal(n: nat): (s: string)
    ensures s != "" && AllDigits(s)
  {
    if n < 10 then [DecimalDigit(n)] else Decimal(n / 10) + [DecimalDigit(n % 10)]
  }

  lemma {:induction false} DecimalValue(n: nat)
    ensures DigitsValue(Decimal(n)) == n
  {
    if n >= 10 {
      DecimalValue(n / 10);
      assert Decimal(n)[..|Decimal(n)| - 1] == Decimal(n / 10);
    } else {
      assert Decimal(n)[..0] == "";
    }
  }

  /** A written number is read back, with a minus sign as its negative, and nothing out of range. */
  lemma AtoiReads(n: nat)
    ensures Atoi(Decimal(n)) == Atoi("+" + Decimal(n)) == if n < 0x8000_0000_0000_0000 then Some(n) else None
    ensures Atoi("-" + Decimal(n)) == if n <= 0x8000_0000_0000_0000 then Some(-(n as int)) else None
  {
    var d := Decimal(n);
    DecimalValue(n);
    assert IsDigit(d[0]);
    assert ("+" + d)[1..] == d && ("-" + d)[1..] == d;
  }

  /** Nothing is read without digits, or with any character but digits after an optional sign. */
  lemma AtoiRefuses(text: string, k: nat)
    ensures Atoi("") == Atoi("-") == Atoi("+") == None
    ensures 1 <= k < |text| && !IsDigit(text[k]) ==> Atoi(text) == None
    ensures text != "" && !IsDigit(text[0]) && text[0] != '-' && text[0] != '+' ==> Atoi(text) == None
  {
    var body := Unsigned(text);
    if 1 <= k < |text| && !IsDigit(text[k]) {
      assert body[if |body| < |text| then k - 1 else k] == text[k];
      assert !AllDigits(body);
    }
    if text != "" && !IsDigit(text[0]) && text[0] != '-' && text[0] != '+' {
      assert body[0] == text[0] && !AllDigits(body);
    }
  }

  lemma AtoiOne()
    ensures Atoi("1") == Some(1)
  {
    assert DigitsValue("1") == 10 * DigitsValue("1"[..0]) + 1;
  }

  // ---- File names ----

  function StripSlashes(path: string): string {
    if path != "" && path[|path| - 1] == '/' then StripSlashes(path[..|path| - 1]) else path
  }

  function AfterLastSlash(path: string): string {
    if path == "" || path[|path| - 1] == '/' then "" else AfterLastSlash(path[..|path| - 1]) + [path[|path| - 1]]
  }

  /** The last element of a path. */
  function BaseName(path: string): string {
    if path == "" then "."
    else if StripSlashes(path) == "" then "/"
    else AfterLastSlash(StripSlashes(path))
  }

  lemma StripOne(path: string)
    ensures StripSlashes(path + "/") == StripSlashes(path)
  {
    assert (path + "/")[..|path|] == path;
  }

  lemma {:induction false} StripEnd(path: string)
    ensures StripSlashes(path) != "" ==> StripSlashes(path)[|StripSlashes(path)| - 1] != '/'
    ensures path != "" && path[|path| - 1] != '/' ==> StripSlashes(path) == path
  {
    if path != "" && path[|path| - 1] == '/' {
      StripEnd(path[..|path| - 1]);
    }
  }

  lemma {:induction false} AfterSlash(dir: string, name: string)
    requires '/' !in name
    ensures AfterLastSlash(name) == name
    ensures AfterLastSlash(dir + "/" + name) == name
  {
    var path := dir + "/" + name;
    if name != "" {
      var init, last := name[..|name| - 1], name[|name| - 1];
      assert last in name && '/' !in init;
      AfterSlash(dir, init);
      assert path[..|path| - 1] == dir + "/" + init && path[|path| - 1] == last;
      assert name == init + [last];
    }
  }

  lemma {:induction false} NoSlashAfter(path: string)
    ensures '/' !in AfterLastSlash(path)
  {
    if path != "" && path[|path| - 1] != '/' {
      NoSlashAfter(path[..|path| - 1]);
    }
  }

  /** The base name is what stands after the last slash, slashes at the end aside; it is never empty, and only
      for paths of nothing but slashes does it hold a slash. */
  lemma BaseNameIs(dir: string, name: string, path: string)
    ensures name != "" && '/' !in name ==> BaseName(name) == name && BaseName(dir + "/" + name) == name
    ensures path != "" ==> BaseName(path + "/") == BaseName(path) != ""
    ensures BaseName(path) != "/" ==> '/' !in BaseName(path)
    ensures BaseName("/") == "/" && BaseName("") == "."
  {
    if name != "" && '/' !in name {
      assert name[|name| - 1] in name;
      var full := dir + "/" + name;
      assert full[|full| - 1] == name[|name| - 1];
      StripEnd(name);
      StripEnd(full);
      AfterSlash(dir, name);
    }
    if path != "" {
      StripOne(path);
      StripEnd(path);
    }
    NoSlashAfter(StripSlashes(path));
    assert "/"[..0] == "";
  }
}
