/** What a finished job has produced: exactly the sequential word count, or the sequential
    inverted index, of the input files. */
module MapReduceResults {

  import opened MapReduceText
  import opened MapReduceMaster
  import Runs = MapReduceMasterRuns
  import opened MapReduceWorker
  import opened MapReduceJob

  // ---- The sequential meaning ----

  /** All words of the first `j` input files, file by file. */
  function WordsOfFirst(c: Valid, j: nat): seq<string>
    requires j <= |c.files|
  {
    if j == 0 then [] else WordsOfFirst(c, j - 1) + InputWords(c, j - 1)
  }

  function AllWords(c: Valid): seq<string> {
    WordsOfFirst(c, |c.files|)
  }

  function Occurrences(c: Valid, w: string): nat {
    multiset(AllWords(c))[w]
  }

  /** Base names of the input files that contain `w`. */
  function FilesWith(c: Valid, w: string): set<string> {
    set i | 0 <= i < |c.files| && w in InputWords(c, i) :: BaseName(c.files[i])
  }

  // ---- What a reducer accumulates ----

  /** The pairs reducer `r` has read after `j` buckets. */
  function PairsOfFirst(c: Valid, r: nat, j: nat): seq<(string, string)>
    requires j <= |c.files|
  {
    if j == 0 then []
    else PairsOfFirst(c, r, j - 1) + Pairs(BucketWords(c.sum, c.numReduce, InputWords(c, j - 1), r), LineValue(c, j - 1))
  }

  lemma {:induction false} BucketWordsMeaning(sum: string -> nat, n: nat, words: seq<string>, b: nat)
    requires n > 0
    ensures forall w :: multiset(BucketWords(sum, n, words, b))[w] == if Bucket(sum, w, n) == b then multiset(words)[w] else 0
  {
    if words != [] {
      var init, last := words[..|words| - 1], words[|words| - 1];
      BucketWordsMeaning(sum, n, init, b);
      assert words == init + [last];
    }
  }

  lemma BucketWordsMember(sum: string -> nat, n: nat, words: seq<string>, b: nat, w: string)
    requires n > 0
    ensures w in BucketWords(sum, n, words, b) <==> w in words && Bucket(sum, w, n) == b
  {
  }

  lemma BucketPairsAreTokens(c: Valid, r: nat, i: nat)
    requires i < |c.files|
    ensures TokenPairs(Pairs(BucketWords(c.sum, c.numReduce, InputWords(c, i), r), LineValue(c, i)))
  {
    var ws := BucketWords(c.sum, c.numReduce, InputWords(c, i), r);
    FieldsAreTokens(c.disk[c.files[i]]);
    forall k | 0 <= k < |ws| ensures IsToken(ws[k]) {
      BucketWordsMember(c.sum, c.numReduce, InputWords(c, i), r, ws[k]);
    }
    assert IsToken("1");
  }

  /** Through files, lines, fields and back, a reducer accumulates exactly its pairs, in order. */
  lemma {:induction false} ExpectedIsAbsorb(c: Valid, r: nat, j: nat)
    requires j <= |c.files|
    ensures Expected(c, r, j) == Absorb(EmptyAccumulator(c), PairsOfFirst(c, r, j))
  {
    if j != 0 {
      var pairs := Pairs(BucketWords(c.sum, c.numReduce, InputWords(c, j - 1), r), LineValue(c, j - 1));
      ExpectedIsAbsorb(c, r, j - 1);
      BucketPairsAreTokens(c, r, j - 1);
      ParseFormatted(pairs);
      AbsorbAppend(EmptyAccumulator(c), PairsOfFirst(c, r, j - 1), pairs);
    }
  }

  // ---- Word count ----

  function Firsts(pairs: seq<(string, string)>): seq<string> {
    seq(|pairs|, i requires 0 <= i < |pairs| => pairs[i].0)
  }

  /** Absorbing pairs ("w", "1") counts each word. */
  lemma {:induction false} CountsMeaning(pairs: seq<(string, string)>)
    requires forall k :: 0 <= k < |pairs| ==> pairs[k].1 == "1"
    ensures var acc := Absorb(Counts(map[]), pairs);
            && acc.Counts?
            && (forall w :: w in acc.counts <==> w in Firsts(pairs))
            && (forall w :: w in acc.counts ==> acc.counts[w] == multiset(Firsts(pairs))[w])
  {
    if pairs != [] {
      var init, last := pairs[..|pairs| - 1], pairs[|pairs| - 1];
      CountsMeaning(init);
      AtoiOne();
      assert Firsts(pairs) == Firsts(init) + [last.0];
    }
  }

  lemma {:induction false} CountPairsAreOnes(c: Valid, r: nat, j: nat)
    requires c.job.WordCount? && j <= |c.files|
    ensures forall k :: 0 <= k < |PairsOfFirst(c, r, j)| ==> PairsOfFirst(c, r, j)[k].1 == "1"
  {
    hide InputWords, BucketWords;
    if j != 0 {
      CountPairsAreOnes(c, r, j - 1);
    }
  }

  lemma FirstsAppend(pairs: seq<(string, string)>, words: seq<string>, value: string)
    ensures Firsts(pairs + Pairs(words, value)) == Firsts(pairs) + words
  {
  }

  lemma {:induction false} CountPairs(c: Valid, r: nat, j: nat, w: string)
    requires c.job.WordCount? && j <= |c.files|
    ensures multiset(Firsts(PairsOfFirst(c, r, j)))[w]
         == if Bucket(c.sum, w, c.numReduce) == r then multiset(WordsOfFirst(c, j))[w] else 0
  {
    hide InputWords, BucketWords, Bucket, Pairs, LineValue;
    if j != 0 {
      var words := BucketWords(c.sum, c.numReduce, InputWords(c, j - 1), r);
      CountPairs(c, r, j - 1, w);
      BucketWordsMeaning(c.sum, c.numReduce, InputWords(c, j - 1), r);
      FirstsAppend(PairsOfFirst(c, r, j - 1), words, LineValue(c, j - 1));
    }
  }

  /** One line for each word of the input that hashes to `r`, with its number of occurrences. */
  predicate IsWordCount(c: Valid, r: nat, lines: seq<OutLine>) {
    && (forall i :: 0 <= i < |lines| ==>
          && lines[i].CountLine?
          && Bucket(c.sum, lines[i].word, c.numReduce) == r
          && lines[i].total == Occurrences(c, lines[i].word) > 0)
    && (forall i, j :: 0 <= i < j < |lines| ==> lines[i].word != lines[j].word)
    && (forall w :: w in AllWords(c) && Bucket(c.sum, w, c.numReduce) == r ==>
          exists i :: 0 <= i < |lines| && lines[i].word == w)
  }

  lemma CountListing(c: Valid, r: nat, lines: seq<OutLine>)
    requires c.job.WordCount? && IsListing(Expected(c, r, |c.files|), lines)
    ensures IsWordCount(c, r, lines)
  {
    var pairs := PairsOfFirst(c, r, |c.files|);
    var acc := Expected(c, r, |c.files|);
    ExpectedIsAbsorb(c, r, |c.files|);
    CountPairsAreOnes(c, r, |c.files|);
    CountsMeaning(pairs);
    forall w ensures w in acc.counts <==> w in AllWords(c) && Bucket(c.sum, w, c.numReduce) == r
             ensures w in acc.counts ==> acc.counts[w] == Occurrences(c, w) > 0
    {
      CountPairs(c, r, |c.files|, w);
      assert w in Firsts(pairs) <==> multiset(Firsts(pairs))[w] > 0;
      assert w in AllWords(c) <==> multiset(AllWords(c))[w] > 0;
    }
    forall i | 0 <= i < |lines|
      ensures lines[i].CountLine? && Bucket(c.sum, lines[i].word, c.numReduce) == r
      ensures lines[i].total == Occurrences(c, lines[i].word) > 0
    {
      assert LineOf(acc, lines[i]);
    }
    assert Words(acc) == acc.counts.Keys;
  }

  /** Word count, end to end: in every interleaving of any number of workers, once every task is
      completed each reducer's output is its part of the sequential count. */
  lemma WordCountEndToEnd(c: Valid, steps: seq<Step>)
    requires c.job.WordCount? && IsRun(c, Start(c), steps)
    ensures var s := After(c, Start(c), steps);
            AllCompleted(s.master.reduceTasks) ==>
            forall r :: 0 <= r < c.numReduce ==> r in s.outs && IsWordCount(c, r, s.outs[r])
  {
    var s := After(c, Start(c), steps);
    StartInv(c);
    RunKeeps(c, Start(c), steps);
    if AllCompleted(s.master.reduceTasks) {
      forall r | 0 <= r < c.numReduce ensures r in s.outs && IsWordCount(c, r, s.outs[r]) {
        assert s.master.reduceTasks[r].status.Completed?;
        assert OutputFinal(c, s.outs, r);
        CountListing(c, r, s.outs[r]);
      }
    }
  }

  // ---- Nothing is lost: the totals add up to the number of input words ----

  function SumTotals(lines: seq<OutLine>): int
    requires forall i :: 0 <= i < |lines| ==> lines[i].CountLine?
  {
    if lines == [] then 0 else lines[0].total + SumTotals(lines[1..])
  }

  /** Totals that list the distinct elements of `m` add up to its size. */
  lemma {:induction false} TotalsOfMultiset(lines: seq<OutLine>, m: multiset<string>)
    requires forall i :: 0 <= i < |lines| ==> lines[i].CountLine? && lines[i].total == m[lines[i].word]
    requires forall i, j :: 0 <= i < j < |lines| ==> lines[i].word != lines[j].word
    requires forall w :: w in m ==> exists i :: 0 <= i < |lines| && lines[i].word == w
    ensures SumTotals(lines) == |m|
  {
    if lines == [] {
      if w :| w in m {
        assert false;
      }
      assert m == multiset{};
    } else {
      var w := lines[0].word;
      var rest := m[w := 0];
      assert |rest| == |m| - m[w];
      forall x | x in rest ensures exists i :: 0 <= i < |lines[1..]| && lines[1..][i].word == x {
        var i :| 0 <= i < |lines| && lines[i].word == x;
        assert lines[1..][i - 1].word == x;
      }
      forall i | 0 <= i < |lines[1..]| ensures lines[1..][i].total == rest[lines[1..][i].word] {
        assert lines[1..][i] == lines[i + 1];
      }
      TotalsOfMultiset(lines[1..], rest);
    }
  }

  /** The occurrences in `words` of the words that hash to a bucket below `r`. */
  function WordsBelow(c: Valid, words: seq<string>, r: nat): nat {
    if r == 0 then 0 else WordsBelow(c, words, r - 1) + |BucketWords(c.sum, c.numReduce, words, r - 1)|
  }

  lemma {:induction false} WordsBelowStep(c: Valid, words: seq<string>, w: string, r: nat)
    ensures WordsBelow(c, words + [w], r) == WordsBelow(c, words, r) + if Bucket(c.sum, w, c.numReduce) < r then 1 else 0
  {
    if r != 0 {
      WordsBelowStep(c, words, w, r - 1);
      assert (words + [w])[..|words|] == words;
    }
  }

  /** The buckets are a partition of the words. */
  lemma {:induction false} BucketsPartition(c: Valid, words: seq<string>)
    ensures WordsBelow(c, words, c.numReduce) == |words|
  {
    if words == [] {
      NoWordsBelow(c, c.numReduce);
    } else {
      var init, last := words[..|words| - 1], words[|words| - 1];
      BucketsPartition(c, init);
      WordsBelowStep(c, init, last, c.numReduce);
      assert words == init + [last];
    }
  }

  lemma NoWordsBelow(c: Valid, r: nat)
    ensures WordsBelow(c, [], r) == 0
  {
  }

  predicate AllCounts(outs: map<nat, seq<OutLine>>, r: nat) {
    forall k :: 0 <= k < r ==> k in outs && forall i :: 0 <= i < |outs[k]| ==> outs[k][i].CountLine?
  }

  function GrandTotal(outs: map<nat, seq<OutLine>>, r: nat): int
    requires AllCounts(outs, r)
  {
    if r == 0 then 0 else GrandTotal(outs, r - 1) + SumTotals(outs[r - 1])
  }

  lemma OutputTotal(c: Valid, r: nat, lines: seq<OutLine>)
    requires c.job.WordCount? && IsWordCount(c, r, lines)
    ensures SumTotals(lines) == |BucketWords(c.sum, c.numReduce, AllWords(c), r)|
  {
    var ws := BucketWords(c.sum, c.numReduce, AllWords(c), r);
    BucketWordsMeaning(c.sum, c.numReduce, AllWords(c), r);
    forall w | w in multiset(ws) ensures exists i :: 0 <= i < |lines| && lines[i].word == w {
      BucketWordsMember(c.sum, c.numReduce, AllWords(c), r, w);
    }
    TotalsOfMultiset(lines, multiset(ws));
  }

  lemma {:induction false} OutputsTotal(c: Valid, outs: map<nat, seq<OutLine>>, r: nat)
    requires c.job.WordCount? && r <= c.numReduce
    requires forall k :: 0 <= k < r ==> k in outs && IsWordCount(c, k, outs[k])
    ensures AllCounts(outs, r) && GrandTotal(outs, r) == WordsBelow(c, AllWords(c), r)
  {
    hide BucketWords, AllWords, Bucket, Occurrences;
    if r != 0 {
      OutputsTotal(c, outs, r - 1);
      OutputTotal(c, r - 1, outs[r - 1]);
    }
  }

  /** Conservation: the totals of a finished word count add up to the number of input words. */
  lemma WordCountConserves(c: Valid, steps: seq<Step>)
    requires c.job.WordCount? && IsRun(c, Start(c), steps)
    requires AllCompleted(After(c, Start(c), steps).master.reduceTasks)
    ensures var outs := After(c, Start(c), steps).outs;
            AllCounts(outs, c.numReduce) && GrandTotal(outs, c.numReduce) == |AllWords(c)|
  {
    hide IsWordCount, AllWords;
    WordCountEndToEnd(c, steps);
    var outs := After(c, Start(c), steps).outs;
    assert forall r :: 0 <= r < c.numReduce ==> r in outs && IsWordCount(c, r, outs[r]);
    OutputsTotal(c, outs, c.numReduce);
    BucketsPartition(c, AllWords(c));
  }

  // ---- Inverted index ----

  /** Absorbing pairs (word, file) collects the files of each word. */
  lemma {:induction false} IndexMeaning(pairs: seq<(string, string)>)
    ensures var acc := Absorb(Index(map[]), pairs);
            && acc.Index?
            && (forall w :: w in acc.index <==> w in Firsts(pairs))
            && (forall w, f :: w in acc.index ==> (f in acc.index[w] <==> (w, f) in pairs))
  {
    if pairs != [] {
      var init, last := pairs[..|pairs| - 1], pairs[|pairs| - 1];
      IndexMeaning(init);
      assert Firsts(pairs) == Firsts(init) + [last.0];
      assert pairs == init + [last];
      forall f | (last.0, f) in init ensures last.0 in Firsts(init) {
        var k :| 0 <= k < |init| && init[k] == (last.0, f);
        assert Firsts(init)[k] == last.0;
      }
    }
  }

  lemma {:induction false} IndexPairs(c: Valid, r: nat, j: nat, w: string, f: string)
    requires c.job.InvertedIndex? && j <= |c.files|
    ensures (w, f) in PairsOfFirst(c, r, j) <==>
            Bucket(c.sum, w, c.numReduce) == r &&
            exists i :: 0 <= i < j && w in InputWords(c, i) && f == BaseName(c.files[i])
  {
    hide InputWords, BucketWords, Bucket, BaseName;
    if j != 0 {
      var words := BucketWords(c.sum, c.numReduce, InputWords(c, j - 1), r);
      var last := Pairs(words, LineValue(c, j - 1));
      IndexPairs(c, r, j - 1, w, f);
      BucketWordsMember(c.sum, c.numReduce, InputWords(c, j - 1), r, w);
      if w in words && f == BaseName(c.files[j - 1]) {
        var k :| 0 <= k < |words| && words[k] == w;
        assert last[k] == (w, f);
      }
    }
  }

  lemma FirstsMember(pairs: seq<(string, string)>, w: string)
    ensures w in Firsts(pairs) <==> exists f :: (w, f) in pairs
  {
    if w in Firsts(pairs) {
      var k :| 0 <= k < |Firsts(pairs)| && Firsts(pairs)[k] == w;
      assert (w, pairs[k].1) in pairs;
    }
    if f :| (w, f) in pairs {
      var k :| 0 <= k < |pairs| && pairs[k] == (w, f);
      assert Firsts(pairs)[k] == w;
    }
  }

  /** One line for each word of the input that hashes to `r`, with the base names of exactly the
      files that contain it, none twice. */
  predicate IsInvertedIndex(c: Valid, r: nat, lines: seq<OutLine>) {
    && (forall i :: 0 <= i < |lines| ==>
          && lines[i].IndexLine?
          && Bucket(c.sum, lines[i].word, c.numReduce) == r
          && lines[i].word in AllWords(c)
          && Distinct(lines[i].files) && Elements(lines[i].files) == FilesWith(c, lines[i].word))
    && (forall i, j :: 0 <= i < j < |lines| ==> lines[i].word != lines[j].word)
    && (forall w :: w in AllWords(c) && Bucket(c.sum, w, c.numReduce) == r ==>
          exists i :: 0 <= i < |lines| && lines[i].word == w)
  }

  lemma {:induction false} WordsOfFirstMember(c: Valid, j: nat, w: string)
    requires j <= |c.files|
    ensures w in WordsOfFirst(c, j) <==> exists i :: 0 <= i < j && w in InputWords(c, i)
  {
    if j != 0 {
      WordsOfFirstMember(c, j - 1, w);
    }
  }

  lemma IndexEntry(c: Valid, r: nat, w: string)
    requires c.job.InvertedIndex?
    ensures var acc := Expected(c, r, |c.files|);
            && acc.Index?
            && (w in acc.index <==> w in AllWords(c) && Bucket(c.sum, w, c.numReduce) == r)
            && (w in acc.index ==> acc.index[w] == FilesWith(c, w))
  {
    var n := |c.files|;
    var pairs := PairsOfFirst(c, r, n);
    var acc := Expected(c, r, n);
    ExpectedIsAbsorb(c, r, n);
    IndexMeaning(pairs);
    FirstsMember(pairs, w);
    WordsOfFirstMember(c, n, w);
    forall f ensures (w, f) in pairs <==> Bucket(c.sum, w, c.numReduce) == r && f in FilesWith(c, w) {
      IndexPairs(c, r, n, w, f);
    }
    if w in AllWords(c) {
      var i :| 0 <= i < n && w in InputWords(c, i);
      assert BaseName(c.files[i]) in FilesWith(c, w);
    }
  }

  lemma IndexListing(c: Valid, r: nat, lines: seq<OutLine>)
    requires c.job.InvertedIndex? && IsListing(Expected(c, r, |c.files|), lines)
    ensures IsInvertedIndex(c, r, lines)
  {
    var acc := Expected(c, r, |c.files|);
    forall i | 0 <= i < |lines|
      ensures lines[i].IndexLine? && Bucket(c.sum, lines[i].word, c.numReduce) == r && lines[i].word in AllWords(c)
      ensures Distinct(lines[i].files) && Elements(lines[i].files) == FilesWith(c, lines[i].word)
    {
      assert LineOf(acc, lines[i]);
      IndexEntry(c, r, lines[i].word);
    }
    forall w | w in AllWords(c) && Bucket(c.sum, w, c.numReduce) == r
      ensures exists i :: 0 <= i < |lines| && lines[i].word == w
    {
      IndexEntry(c, r, w);
      assert w in Words(acc);
    }
  }

  /** Inverted index, end to end, over the same runs. */
  lemma InvertedIndexEndToEnd(c: Valid, steps: seq<Step>)
    requires c.job.InvertedIndex? && IsRun(c, Start(c), steps)
    ensures var s := After(c, Start(c), steps);
            AllCompleted(s.master.reduceTasks) ==>
            forall r :: 0 <= r < c.numReduce ==> r in s.outs && IsInvertedIndex(c, r, s.outs[r])
  {
    var s := After(c, Start(c), steps);
    StartInv(c);
    RunKeeps(c, Start(c), steps);
    if AllCompleted(s.master.reduceTasks) {
      forall r | 0 <= r < c.numReduce ensures r in s.outs && IsInvertedIndex(c, r, s.outs[r]) {
        assert s.master.reduceTasks[r].status.Completed?;
        assert OutputFinal(c, s.outs, r);
        IndexListing(c, r, s.outs[r]);
      }
    }
  }

  // ---- The worker's methods compute the same ----

  /** What `DoMap` and `DoMapInvertedIndex` leave is what the interleaved steps leave. */
  lemma MapBodyIsFinal(c: Valid, inter: map<(nat, nat), string>, before: map<(nat, nat), string>, i: nat)
    requires i < |c.files|
    requires BucketsHold(inter, before, i, c.sum, c.numReduce, InputWords(c, i), LineValue(c, i))
    ensures BucketsFinal(c, inter, i)
  {
  }

  lemma {:induction false} ReduceBodyIsExpected(c: Valid, inter: map<(nat, nat), string>, r: nat, j: nat)
    requires r < c.numReduce && j <= |c.files| && forall i :: 0 <= i < j ==> BucketsFinal(c, inter, i)
    ensures ReadBuckets(EmptyAccumulator(c), inter, r, j) == Expected(c, r, j)
  {
    hide FinalBucket, ParseFile, Absorb;
    if j != 0 {
      ReduceBodyIsExpected(c, inter, r, j - 1);
      assert BucketsFinal(c, inter, j - 1);
    }
  }

  /** Once every map body has run, what `DoReduce` (or `DoReduceInvertedIndex`) writes is reducer
      `r`'s part of the sequential result. */
  lemma BodiesComputeTheJob(c: Valid, inter: map<(nat, nat), string>, r: nat, lines: seq<OutLine>)
    requires r < c.numReduce && forall i :: 0 <= i < |c.files| ==> BucketsFinal(c, inter, i)
    requires IsListing(ReadBuckets(EmptyAccumulator(c), inter, r, |c.files|), lines)
    ensures if c.job.WordCount? then IsWordCount(c, r, lines) else IsInvertedIndex(c, r, lines)
  {
    hide IsListing, IsWordCount, IsInvertedIndex, Expected, ReadBuckets;
    ReduceBodyIsExpected(c, inter, r, |c.files|);
    if c.job.WordCount? {
      CountListing(c, r, lines);
    } else {
      IndexListing(c, r, lines);
    }
  }
}
