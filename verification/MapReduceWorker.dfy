/** The map and reduce bodies a worker runs, over the files all workers share. */
module MapReduceWorker {

  import opened Options
  import opened MapReduceText

  /** The bucket of a word; `sum` stands for the 32-bit hash of its bytes. */
  function Bucket(sum: string -> nat, word: string, nReduce: nat): (b: nat)
    requires nReduce > 0
    ensures b < nReduce && exists q: nat :: sum(word) == q * nReduce + b
  {
    assert sum(word) == (sum(word) / nReduce) * nReduce + sum(word) % nReduce;
    sum(word) % nReduce
  }

  function BucketWords(sum: string -> nat, nReduce: nat, words: seq<string>, b: nat): seq<string>
    requires nReduce > 0
  {
    if words == [] then []
    else
      var init, last := words[..|words| - 1], words[|words| - 1];
      BucketWords(sum, nReduce, init, b) + if Bucket(sum, last, nReduce) == b then [last] else []
  }

  function Pairs(words: seq<string>, value: string): seq<(string, string)> {
    seq(|words|, i requires 0 <= i < |words| => (words[i], value))
  }

  /** What one map task leaves in bucket `b`: a line for each of its words that hashes there. */
  function BucketText(sum: string -> nat, nReduce: nat, words: seq<string>, value: string, b: nat): string
    requires nReduce > 0
  {
    FormatAll(Pairs(BucketWords(sum, nReduce, words, b), value))
  }

  lemma {:induction false} BucketTextStep(sum: string -> nat, nReduce: nat, words: seq<string>, value: string, w: string, b: nat)
    requires nReduce > 0
    ensures BucketText(sum, nReduce, words + [w], value, b)
         == BucketText(sum, nReduce, words, value, b)
            + if Bucket(sum, w, nReduce) == b then FormatLine(w, value) else ""
  {
    var before := BucketWords(sum, nReduce, words, b);
    assert (words + [w])[..|words|] == words;
    if Bucket(sum, w, nReduce) == b {
      assert Pairs(before + [w], value) == Pairs(before, value) + [(w, value)];
      FormatAllAppend(Pairs(before, value), [(w, value)]);
      assert [(w, value)][1..] == [];
    } else {
      assert before + [] == before;
    }
  }

  /** What a reducer builds: word totals, or the set of file names of each word. */
  datatype Accumulator = Counts(counts: map<string, int>) | Index(index: map<string, set<string>>)

  function CountPair(counts: map<string, int>, pair: (string, string)): map<string, int> {
    match Atoi(pair.1)
    case None => counts
    case Some(n) => counts[pair.0 := (if pair.0 in counts then counts[pair.0] else 0) + n]
  }

  function IndexPair(index: map<string, set<string>>, pair: (string, string)): map<string, set<string>> {
    index[pair.0 := (if pair.0 in index then index[pair.0] else {}) + {pair.1}]
  }

  function Absorb(acc: Accumulator, pairs: seq<(string, string)>): (r: Accumulator)
    ensures r.Counts? == acc.Counts?
  {
    if pairs == [] then acc
    else
      var init := Absorb(acc, pairs[..|pairs| - 1]);
      match init
      case Counts(c) => Counts(CountPair(c, pairs[|pairs| - 1]))
      case Index(x) => Index(IndexPair(x, pairs[|pairs| - 1]))
  }

  lemma {:induction false} AbsorbAppend(acc: Accumulator, a: seq<(string, string)>, b: seq<(string, string)>)
    ensures Absorb(acc, a + b) == Absorb(Absorb(acc, a), b)
    decreases b
  {
    if b == [] {
      assert a + b == a;
    } else {
      assert (a + b)[..|a + b| - 1] == a + b[..|b| - 1];
      AbsorbAppend(acc, a, b[..|b| - 1]);
    }
  }

  /** The accumulator after reading the buckets of map tasks 0 .. j-1, absent files skipped. */
  function ReadBuckets(start: Accumulator, inter: map<(nat, nat), string>, reduceId: nat, j: nat): (r: Accumulator)
    ensures r.Counts? == start.Counts?
  {
    if j == 0 then start
    else
      var acc := ReadBuckets(start, inter, reduceId, j - 1);
      if (j - 1, reduceId) in inter then Absorb(acc, ParseFile(inter[(j - 1, reduceId)])) else acc
  }

  /** A bucket that does not exist counts as an empty one. */
  lemma {:induction false} AbsentIsEmpty(start: Accumulator, inter: map<(nat, nat), string>, reduceId: nat, j: nat, f: (nat, nat))
    requires f !in inter
    ensures ReadBuckets(start, inter[f := ""], reduceId, j) == ReadBuckets(start, inter, reduceId, j)
  {
    if j != 0 {
      AbsentIsEmpty(start, inter, reduceId, j - 1, f);
      AbsorbNone(ReadBuckets(start, inter, reduceId, j - 1));
      assert ParseFile("") == [];
    }
  }

  /** What a word's lines add up to; a second field that is no number adds nothing. */
  function SumFor(pairs: seq<(string, string)>, word: string): int {
    if pairs == [] then 0
    else
      var last := pairs[|pairs| - 1];
      SumFor(pairs[..|pairs| - 1], word) +
      match Atoi(last.1)
      case Some(n) => (if last.0 == word then n else 0)
      case None => 0
  }

  /** The totals are these sums, and exactly the words with a number have one, whatever the lines hold. */
  lemma {:induction false} CountsAre(pairs: seq<(string, string)>, word: string)
    ensures var acc := Absorb(Counts(map[]), pairs);
            && acc.Counts?
            && (word in acc.counts <==> exists k :: 0 <= k < |pairs| && pairs[k].0 == word && Atoi(pairs[k].1).Some?)
            && (word in acc.counts ==> acc.counts[word] == SumFor(pairs, word))
            && (word !in acc.counts ==> SumFor(pairs, word) == 0)
  {
    hide Atoi;
    if pairs != [] {
      var init, last := pairs[..|pairs| - 1], pairs[|pairs| - 1];
      CountsAre(init, word);
      assert pairs == init + [last];
      if k :| 0 <= k < |init| && init[k].0 == word && Atoi(init[k].1).Some? {
        assert pairs[k] == init[k];
      }
    }
  }

  /** The text of a word in its bucket. */
  lemma OneWordText(sum: string -> nat, nReduce: nat, word: string, value: string)
    requires nReduce > 0
    ensures BucketText(sum, nReduce, [word], value, Bucket(sum, word, nReduce)) == word + " " + value + "\n"
  {
    BucketTextStep(sum, nReduce, [], value, word, Bucket(sum, word, nReduce));
    assert [] + [word] == [word];
    assert BucketText(sum, nReduce, [], value, Bucket(sum, word, nReduce)) == "";
  }

  /** A line of "mr-out-j.txt"; `files` is written joined by commas. */
  datatype OutLine = CountLine(word: string, total: int) | IndexLine(word: string, files: seq<string>)

  predicate Distinct<T(==)>(s: seq<T>) {
    forall i, j :: 0 <= i < j < |s| ==> s[i] != s[j]
  }

  function Elements<T>(s: seq<T>): set<T> {
    set x | x in s
  }

  function Words(acc: Accumulator): set<string> {
    match acc
    case Counts(c) => c.Keys
    case Index(x) => x.Keys
  }

  predicate LineOf(acc: Accumulator, line: OutLine) {
    match acc
    case Counts(c) => line.CountLine? && line.word in c && line.total == c[line.word]
    case Index(x) => line.IndexLine? && line.word in x && Distinct(line.files) && Elements(line.files) == x[line.word]
  }

  /** Some ordering of the accumulator: one line for each word. */
  predicate IsListing(acc: Accumulator, lines: seq<OutLine>) {
    && (forall i :: 0 <= i < |lines| ==> LineOf(acc, lines[i]))
    && (forall i, j :: 0 <= i < j < |lines| ==> lines[i].word != lines[j].word)
    && (forall w :: w in Words(acc) ==> exists i :: 0 <= i < |lines| && lines[i].word == w)
  }

  // ---- The bodies ----

  /** The files on disk: the inputs, the buckets "mr-i-j.txt" and the outputs "mr-out-j.txt". */
  class Storage {
    const inputs: map<string, string>
    var inter: map<(nat, nat), string>
    var outs: map<nat, seq<OutLine>>

    constructor (inputs: map<string, string>)
      ensures this.inputs == inputs && inter == map[] && outs == map[]
    {
      this.inputs := inputs;
      inter, outs := map[], map[];
    }
  }

  lemma {:induction false} WordsOfLinesStep(lines: seq<string>, i: nat)
    requires i < |lines|
    ensures WordsOfLines(lines[..i + 1]) == WordsOfLines(lines[..i]) + Fields(lines[i])
  {
    if i == 0 {
      assert lines[..1][1..] == [];
    } else {
      WordsOfLinesStep(lines[1..], i - 1);
      assert lines[..i + 1][1..] == lines[1..][..i];
      assert lines[..i][1..] == lines[1..][..i - 1];
      assert lines[..i][0] == lines[0];
    }
  }

  /** The buckets of `mapId` hold exactly the lines of `words`; every other file is as before. */
  ghost predicate BucketsHold(inter: map<(nat, nat), string>, before: map<(nat, nat), string>, mapId: nat,
                              sum: string -> nat, nReduce: nat, words: seq<string>, value: string)
    requires nReduce > 0
  {
    && (forall b :: 0 <= b < nReduce ==>
          (mapId, b) in inter && inter[(mapId, b)] == BucketText(sum, nReduce, words, value, b))
    && (forall f :: f in before ==> f in inter)
    && (forall f :: f in inter && !(f.0 == mapId && f.1 < nReduce) ==> f in before && inter[f] == before[f])
  }

  function AppendLine(inter: map<(nat, nat), string>, f: (nat, nat), word: string, value: string): map<(nat, nat), string>
    requires f in inter
  {
    inter[f := inter[f] + FormatLine(word, value)]
  }

  lemma BucketsHoldStep(inter: map<(nat, nat), string>, before: map<(nat, nat), string>, mapId: nat,
                        sum: string -> nat, nReduce: nat, words: seq<string>, value: string, w: string)
    requires nReduce > 0
    requires BucketsHold(inter, before, mapId, sum, nReduce, words, value)
    ensures var f := (mapId, Bucket(sum, w, nReduce));
            BucketsHold(AppendLine(inter, f, w, value), before, mapId, sum, nReduce, words + [w], value)
  {
    forall b | 0 <= b < nReduce
      ensures BucketText(sum, nReduce, words + [w], value, b)
           == BucketText(sum, nReduce, words, value, b) + if Bucket(sum, w, nReduce) == b then FormatLine(w, value) else ""
    {
      BucketTextStep(sum, nReduce, words, value, w, b);
    }
  }

  method Truncate(st: Storage, mapId: nat, nReduce: nat, sum: string -> nat, ghost value: string)
    requires nReduce > 0
    modifies st`inter
    ensures BucketsHold(st.inter, old(st.inter), mapId, sum, nReduce, [], value)
  {
    ghost var before := st.inter;
    for i := 0 to nReduce
      invariant forall b :: 0 <= b < i ==> (mapId, b) in st.inter && st.inter[(mapId, b)] == ""
      invariant forall f :: f in before ==> f in st.inter
      invariant forall f :: f in st.inter && !(f.0 == mapId && f.1 < nReduce) ==> f in before && st.inter[f] == before[f]
    {
      st.inter := st.inter[(mapId, i) := ""];
    }
    assert forall b :: 0 <= b < nReduce ==> BucketText(sum, nReduce, [], value, b) == "";
  }

  method WriteWord(st: Storage, mapId: nat, word: string, value: string, nReduce: nat, sum: string -> nat,
                   ghost before: map<(nat, nat), string>, ghost done: seq<string>)
    requires nReduce > 0
    requires BucketsHold(st.inter, before, mapId, sum, nReduce, done, value)
    modifies st`inter
    ensures BucketsHold(st.inter, before, mapId, sum, nReduce, done + [word], value)
  {
    BucketsHoldStep(st.inter, before, mapId, sum, nReduce, done, value, word);
    st.inter := AppendLine(st.inter, (mapId, Bucket(sum, word, nReduce)), word, value);
  }

  /** The inner loop of both map bodies: one line per word of a line. */
  method WriteWords(st: Storage, mapId: nat, words: seq<string>, value: string, nReduce: nat, sum: string -> nat,
                    ghost before: map<(nat, nat), string>, ghost done: seq<string>)
    requires nReduce > 0
    requires BucketsHold(st.inter, before, mapId, sum, nReduce, done, value)
    modifies st`inter
    ensures BucketsHold(st.inter, before, mapId, sum, nReduce, done + words, value)
  {
    assert done + words[..0] == done;
    for k := 0 to |words|
      invariant BucketsHold(st.inter, before, mapId, sum, nReduce, done + words[..k], value)
    {
      WriteWord(st, mapId, words[k], value, nReduce, sum, before, done + words[..k]);
      assert done + words[..k] + [words[k]] == done + words[..k + 1];
    }
    assert words[..|words|] == words;
  }

  /** Both map bodies: truncate every bucket, then one line per word of every input line. */
  method WriteBuckets(st: Storage, mapId: nat, inputFile: string, value: string, nReduce: nat, sum: string -> nat)
    requires nReduce > 0 && inputFile in st.inputs
    modifies st`inter
    ensures BucketsHold(st.inter, old(st.inter), mapId, sum, nReduce, Fields(st.inputs[inputFile]), value)
  {
    ghost var before := st.inter;
    Truncate(st, mapId, nReduce, sum, value);
    var lines := Lines(st.inputs[inputFile]);
    assert lines[..0] == [];
    for i := 0 to |lines|
      invariant BucketsHold(st.inter, before, mapId, sum, nReduce, WordsOfLines(lines[..i]), value)
    {
      WriteWords(st, mapId, Fields(lines[i]), value, nReduce, sum, before, WordsOfLines(lines[..i]));
      WordsOfLinesStep(lines, i);
    }
    assert lines[..|lines|] == lines;
    LinesKeepWords(st.inputs[inputFile]);
  }

  /** The word-count map body. `ok` is false when the input file cannot be opened. */
  method DoMap(st: Storage, mapId: nat, inputFile: string, nReduce: nat, sum: string -> nat) returns (ok: bool)
    requires nReduce > 0
    modifies st`inter
    ensures ok == (inputFile in st.inputs)
    ensures ok ==> BucketsHold(st.inter, old(st.inter), mapId, sum, nReduce, Fields(st.inputs[inputFile]), "1")
    ensures !ok ==> st.inter == old(st.inter)
  {
    if inputFile !in st.inputs { return false; }
    WriteBuckets(st, mapId, inputFile, "1", nReduce, sum);
    return true;
  }

  /** The inverted-index map body. */
  method DoMapInvertedIndex(st: Storage, mapId: nat, inputFile: string, nReduce: nat, sum: string -> nat) returns (ok: bool)
    requires nReduce > 0
    modifies st`inter
    ensures ok == (inputFile in st.inputs)
    ensures ok ==> BucketsHold(st.inter, old(st.inter), mapId, sum, nReduce,
                               Fields(st.inputs[inputFile]), BaseName(inputFile))
    ensures !ok ==> st.inter == old(st.inter)
  {
    if inputFile !in st.inputs { return false; }
    WriteBuckets(st, mapId, inputFile, BaseName(inputFile), nReduce, sum);
    return true;
  }

  /** Running a map body again on the same input leaves the same files. */
  lemma RerunSameFiles(before: map<(nat, nat), string>, once: map<(nat, nat), string>, twice: map<(nat, nat), string>,
                       mapId: nat, sum: string -> nat, nReduce: nat, words: seq<string>, value: string)
    requires nReduce > 0
    requires BucketsHold(once, before, mapId, sum, nReduce, words, value)
    requires BucketsHold(twice, once, mapId, sum, nReduce, words, value)
    ensures twice == once
  {
  }

  /** Formatting the words of a bucket as lines, splitting the file into lines and fields and
      parsing the count gives back every word, in order, with count 1. */
  lemma BucketRoundTrip(sum: string -> nat, nReduce: nat, text: string, b: nat)
    requires nReduce > 0
    ensures var words := BucketWords(sum, nReduce, Fields(text), b);
            && ParseFile(BucketText(sum, nReduce, Fields(text), "1", b)) == Pairs(words, "1")
            && Atoi("1") == Some(1)
  {
    var words := BucketWords(sum, nReduce, Fields(text), b);
    FieldsAreTokens(text);
    BucketWordsSubset(sum, nReduce, Fields(text), b);
    forall k | 0 <= k < |words| ensures IsToken(words[k]) {
      assert words[k] in words;
    }
    assert IsToken("1");
    ParseFormatted(Pairs(words, "1"));
    AtoiOne();
  }

  lemma {:induction false} BucketWordsSubset(sum: string -> nat, nReduce: nat, words: seq<string>, b: nat)
    requires nReduce > 0
    ensures forall w :: w in BucketWords(sum, nReduce, words, b) ==> w in words && Bucket(sum, w, nReduce) == b
  {
    if words != [] {
      BucketWordsSubset(sum, nReduce, words[..|words| - 1], b);
    }
  }

  lemma {:induction false} ParseLinesStep(lines: seq<string>, i: nat)
    requires i < |lines|
    ensures ParseLines(lines[..i + 1]) == ParseLines(lines[..i]) + ParseLine(lines[i])
  {
    if i == 0 {
      assert lines[..1][1..] == [];
    } else {
      ParseLinesStep(lines[1..], i - 1);
      assert lines[..i + 1][1..] == lines[1..][..i];
      assert lines[..i][1..] == lines[1..][..i - 1];
      assert lines[..i][0] == lines[0];
    }
  }

  lemma AbsorbLine(start: Accumulator, lines: seq<string>, i: nat)
    requires i < |lines|
    ensures Absorb(start, ParseLines(lines[..i + 1]))
         == Absorb(Absorb(start, ParseLines(lines[..i])), ParseLine(lines[i]))
  {
    ParseLinesStep(lines, i);
    AbsorbAppend(start, ParseLines(lines[..i]), ParseLine(lines[i]));
  }

  lemma AbsorbStart(acc: Accumulator, lines: seq<string>)
    ensures Absorb(acc, ParseLines(lines[..0])) == acc && lines[..|lines|] == lines
  {
    assert lines[..0] == [];
  }

  lemma ParsedLine(line: string)
    ensures var parts := Fields(line); ParseLine(line) == if |parts| == 2 then [(parts[0], parts[1])] else []
  {
  }

  lemma AbsorbNone(acc: Accumulator)
    ensures Absorb(acc, []) == acc
  {
  }

  lemma AbsorbOne(acc: Accumulator, pair: (string, string))
    ensures Absorb(acc, [pair]) ==
            match acc
            case Counts(c) => Counts(CountPair(c, pair))
            case Index(x) => Index(IndexPair(x, pair))
  {
  }

  lemma AddParsed(counts: map<string, int>, word: string, text: string)
    ensures CountPair(counts, (word, text)) ==
            if Atoi(text).None? then counts
            else counts[word := (if word in counts then counts[word] else 0) + Atoi(text).value]
  {
  }

  /** The inner loop of the word-count reducer: one bucket file, line by line. */
  method AddCounts(start: map<string, int>, text: string) returns (counts: map<string, int>)
    ensures Counts(counts) == Absorb(Counts(start), ParseFile(text))
  {
    hide Absorb, ParseLines, ParseLine, Fields, Lines, CountPair, Atoi;
    counts := start;
    var lines := Lines(text);
    AbsorbStart(Counts(start), lines);
    for k := 0 to |lines|
      invariant Counts(counts) == Absorb(Counts(start), ParseLines(lines[..k]))
    {
      AbsorbLine(Counts(start), lines, k);
      ParsedLine(lines[k]);
      AbsorbNone(Counts(counts));
      var parts := Fields(lines[k]);
      if |parts| == 2 {
        AbsorbOne(Counts(counts), (parts[0], parts[1]));
        AddParsed(counts, parts[0], parts[1]);
        var cnt := Atoi(parts[1]);
        if cnt.Some? {
          counts := counts[parts[0] := (if parts[0] in counts then counts[parts[0]] else 0) + cnt.value];
        }
      }
    }
  }

  /** Writes one line per key, in whatever order the map yields its keys. */
  method ListCounts(counts: map<string, int>) returns (out: seq<OutLine>)
    ensures IsListing(Counts(counts), out)
  {
    out := [];
    var left := counts.Keys;
    while left != {}
      invariant left <= counts.Keys && PartialListing(Counts(counts), out, left)
      decreases |left|
    {
      var word :| word in left;
      PartialListingStep(Counts(counts), out, left, CountLine(word, counts[word]));
      out := out + [CountLine(word, counts[word])];
      left := left - {word};
    }
  }

  /** The lines written so far list every word not left. */
  ghost predicate PartialListing(acc: Accumulator, out: seq<OutLine>, left: set<string>) {
    && (forall i :: 0 <= i < |out| ==> LineOf(acc, out[i]) && out[i].word !in left)
    && (forall i, j :: 0 <= i < j < |out| ==> out[i].word != out[j].word)
    && (forall w :: w in Words(acc) && w !in left ==> exists i :: 0 <= i < |out| && out[i].word == w)
  }

  lemma PartialListingStep(acc: Accumulator, out: seq<OutLine>, left: set<string>, line: OutLine)
    requires PartialListing(acc, out, left) && LineOf(acc, line) && line.word in left
    ensures PartialListing(acc, out + [line], left - {line.word})
  {
    var longer := out + [line];
    forall w | w in Words(acc) && w !in left - {line.word}
      ensures exists i :: 0 <= i < |longer| && longer[i].word == w
    {
      if w == line.word {
        assert longer[|out|].word == w;
      } else {
        var i :| 0 <= i < |out| && out[i].word == w;
        assert longer[i].word == w;
      }
    }
  }

  /** The word-count reduce body: the output lists the totals of what the buckets hold. */
  method DoReduce(st: Storage, reduceId: nat, nMap: nat)
    modifies st`outs
    ensures reduceId in st.outs && st.outs == old(st.outs)[reduceId := st.outs[reduceId]]
    ensures IsListing(ReadBuckets(Counts(map[]), st.inter, reduceId, nMap), st.outs[reduceId])
  {
    var counts: map<string, int> := map[];
    for i := 0 to nMap
      invariant st.outs == old(st.outs)
      invariant Counts(counts) == ReadBuckets(Counts(map[]), st.inter, reduceId, i)
    {
      if (i, reduceId) in st.inter {
        counts := AddCounts(counts, st.inter[(i, reduceId)]);
      }
    }
    var out := ListCounts(counts);
    st.outs := st.outs[reduceId := out];
  }

  lemma InsertThenAdd(index: map<string, set<string>>, word: string, file: string)
    ensures var next := if word in index then index else index[word := {}];
            next[word := next[word] + {file}] == IndexPair(index, (word, file))
  {
  }

  /** The inner loop of the inverted-index reducer. */
  method AddIndex(start: map<string, set<string>>, text: string) returns (index: map<string, set<string>>)
    ensures Index(index) == Absorb(Index(start), ParseFile(text))
  {
    hide Absorb, ParseLines, ParseLine, Fields, Lines, IndexPair;
    index := start;
    var lines := Lines(text);
    AbsorbStart(Index(start), lines);
    for k := 0 to |lines|
      invariant Index(index) == Absorb(Index(start), ParseLines(lines[..k]))
    {
      ghost var was := index;
      AbsorbLine(Index(start), lines, k);
      ParsedLine(lines[k]);
      AbsorbNone(Index(was));
      var parts := Fields(lines[k]);
      if |parts| == 2 {
        AbsorbOne(Index(was), (parts[0], parts[1]));
        if parts[0] !in index {
          index := index[parts[0] := {}];
        }
        index := index[parts[0] := index[parts[0]] + {parts[1]}];
        InsertThenAdd(was, parts[0], parts[1]);
      }
    }
  }

  /** The elements of a set in some order. */
  method Enumerate(s: set<string>) returns (files: seq<string>)
    ensures Distinct(files) && Elements(files) == s
  {
    files := [];
    var left := s;
    while left != {}
      invariant left <= s && Distinct(files) && Elements(files) == s - left
      decreases |left|
    {
      var f :| f in left;
      ghost var was := files;
      files := files + [f];
      left := left - {f};
      assert Elements(files) == Elements(was) + {f};
      assert forall i :: 0 <= i < |was| ==> was[i] in Elements(was);
    }
  }

  method ListIndex(index: map<string, set<string>>) returns (out: seq<OutLine>)
    ensures IsListing(Index(index), out)
  {
    out := [];
    var left := index.Keys;
    while left != {}
      invariant left <= index.Keys && PartialListing(Index(index), out, left)
      decreases |left|
    {
      var word :| word in left;
      var files := Enumerate(index[word]);
      PartialListingStep(Index(index), out, left, IndexLine(word, files));
      out := out + [IndexLine(word, files)];
      left := left - {word};
    }
  }

  /** The inverted-index reduce body. */
  method DoReduceInvertedIndex(st: Storage, reduceId: nat, nMap: nat)
    modifies st`outs
    ensures reduceId in st.outs && st.outs == old(st.outs)[reduceId := st.outs[reduceId]]
    ensures IsListing(ReadBuckets(Index(map[]), st.inter, reduceId, nMap), st.outs[reduceId])
  {
    var index: map<string, set<string>> := map[];
    for i := 0 to nMap
      invariant st.outs == old(st.outs)
      invariant Index(index) == ReadBuckets(Index(map[]), st.inter, reduceId, i)
    {
      if (i, reduceId) in st.inter {
        index := AddIndex(index, st.inter[(i, reduceId)]);
      }
    }
    var out := ListIndex(index);
    st.outs := st.outs[reduceId := out];
  }
}
