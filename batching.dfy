/**
 * `ContextManager.create_batches` as a specification: a stable sort by
 * estimate, largest first, then one greedy pass that emits each oversized file
 * truncated and alone and packs the others into batches within the budget.
 */
module Batching {
  import opened Wrappers
  import opened Text
  import opened Records
  import opened Tokens
  import opened Truncation

  /** A `(file_data, tokens)` pair, with the file's input position kept to express sort stability. */
  datatype Entry = Entry(index: nat, file: FileRecord, tokens: nat)

  /** The pairs the first loop of `create_batches` builds. */
  function Entries(enc: Encoder, files: seq<FileRecord>): (es: seq<Entry>)
    ensures |es| == |files|
    ensures forall i :: 0 <= i < |es| ==> es[i].index == i && es[i].file == files[i]
    ensures TokensMatch(enc, es)
  {
    seq(|files|, i requires 0 <= i < |files| => Entry(i, files[i], EstimateFileTokens(enc, files[i])))
  }

  /** Every pair carries its file's estimate. */
  predicate TokensMatch(enc: Encoder, xs: seq<Entry>)
  {
    forall k :: 0 <= k < |xs| ==> xs[k].tokens == EstimateFileTokens(enc, xs[k].file)
  }

  predicate DistinctIndices(xs: seq<Entry>)
  {
    forall i, j :: 0 <= i < j < |xs| ==> xs[i].index != xs[j].index
  }

  function Files(xs: seq<Entry>): (fs: seq<FileRecord>)
    ensures |fs| == |xs| && forall k :: 0 <= k < |xs| ==> fs[k] == xs[k].file
  {
    seq(|xs|, k requires 0 <= k < |xs| => xs[k].file)
  }

  // ------------------------------------------------------ stable sort, largest first

  /**
   * The order `sort(key=tokens, reverse=True)` leaves pairs in: more tokens
   * first, and among equal estimates the earlier input first.
   */
  predicate Before(a: Entry, b: Entry)
  {
    a.tokens > b.tokens || (a.tokens == b.tokens && a.index < b.index)
  }

  predicate SortedEntries(xs: seq<Entry>)
  {
    forall i, j :: 0 <= i < j < |xs| ==> Before(xs[i], xs[j])
  }

  function Insert(e: Entry, xs: seq<Entry>): (r: seq<Entry>)
    ensures multiset(r) == multiset(xs) + multiset{e}
  {
    if xs == [] || Before(e, xs[0]) then [e] + xs
    else
      assert xs == [xs[0]] + xs[1..];
      [xs[0]] + Insert(e, xs[1..])
  }

  /** The sorted pairs: a permutation of the input. */
  function SortEntries(xs: seq<Entry>): (r: seq<Entry>)
    ensures multiset(r) == multiset(xs)
  {
    if xs == [] then []
    else
      assert xs == [xs[0]] + xs[1..];
      Insert(xs[0], SortEntries(xs[1..]))
  }

  lemma {:induction false} InsertSorted(e: Entry, xs: seq<Entry>)
    requires SortedEntries(xs)
    requires forall k :: 0 <= k < |xs| ==> xs[k].index != e.index
    ensures SortedEntries(Insert(e, xs))
  {
    if xs == [] || Before(e, xs[0]) {
    } else {
      var tail := xs[1..];
      InsertSorted(e, tail);
      var r := Insert(e, tail);
      forall k | 0 <= k < |r|
        ensures Before(xs[0], r[k])
      {
        assert r[k] in multiset(r);
        if r[k] != e {
          assert r[k] in multiset(tail);
          var j :| 0 <= j < |tail| && tail[j] == r[k];
          assert xs[j + 1] == r[k];
        }
      }
    }
  }

  lemma {:induction false} SortEntriesSorted(xs: seq<Entry>)
    requires DistinctIndices(xs)
    ensures SortedEntries(SortEntries(xs))
  {
    if xs != [] {
      var tail := xs[1..];
      SortEntriesSorted(tail);
      var s := SortEntries(tail);
      forall k | 0 <= k < |s|
        ensures s[k].index != xs[0].index
      {
        assert s[k] in multiset(tail);
        var j :| 0 <= j < |tail| && tail[j] == s[k];
        assert xs[j + 1] == s[k];
      }
      InsertSorted(xs[0], s);
    }
  }

  /** Members of a permutation carry their estimate like the originals. */
  lemma TokensMatchPermutation(enc: Encoder, xs: seq<Entry>, ys: seq<Entry>)
    requires TokensMatch(enc, xs) && multiset(xs) == multiset(ys)
    ensures TokensMatch(enc, ys)
  {
    forall k | 0 <= k < |ys|
      ensures ys[k].tokens == EstimateFileTokens(enc, ys[k].file)
    {
      assert ys[k] in multiset(xs);
      var j :| 0 <= j < |xs| && xs[j] == ys[k];
    }
  }

  // ------------------------------------------------------ the greedy pass

  /** The loop's three variables: `batches`, `current_batch` and `current_tokens`. */
  datatype Packing = Packing(batches: seq<seq<FileRecord>>, current: seq<FileRecord>, currentTokens: int)

  /** What one pair contributes to the output: the file, or its truncated copy when oversized. */
  function Emit(enc: Encoder, budget: int, e: Entry): (f: FileRecord)
    ensures e.tokens <= budget ==> f == e.file
    ensures e.tokens > budget ==> f.truncation.Some? && f.name == e.file.name && f.path == e.file.path
  {
    if e.tokens > budget then TruncateFile(enc, e.file, budget) else e.file
  }

  function Emits(enc: Encoder, budget: int, xs: seq<Entry>): (fs: seq<FileRecord>)
    ensures |fs| == |xs| && forall k :: 0 <= k < |xs| ==> fs[k] == Emit(enc, budget, xs[k])
  {
    seq(|xs|, k requires 0 <= k < |xs| => Emit(enc, budget, xs[k]))
  }

  /** One iteration of the loop over the sorted pairs. */
  function Step(enc: Encoder, budget: int, st: Packing, e: Entry): (r: Packing)
    ensures |st.batches| <= |r.batches| <= |st.batches| + 1 && r.batches[..|st.batches|] == st.batches
  {
    if e.tokens > budget then
      st.(batches := st.batches + [[TruncateFile(enc, e.file, budget)]])
    else if st.currentTokens + e.tokens > budget && st.current != [] then
      Packing(st.batches + [st.current], [e.file], e.tokens)
    else
      st.(current := st.current + [e.file], currentTokens := st.currentTokens + e.tokens)
  }

  /** The loop's state after the pairs `xs`. */
  function Pack(enc: Encoder, budget: int, xs: seq<Entry>): (st: Packing)
    ensures |st.batches| + (if st.current == [] then 0 else 1) <= |xs|
    ensures xs != [] ==> st.batches != [] || st.current != []
  {
    if xs == [] then Packing([], [], 0)
    else Step(enc, budget, Pack(enc, budget, xs[..|xs| - 1]), xs[|xs| - 1])
  }

  /** Packing one more pair is one more step. */
  lemma PackSnoc(enc: Encoder, budget: int, xs: seq<Entry>, i: nat)
    requires i < |xs|
    ensures Pack(enc, budget, xs[..i + 1]) == Step(enc, budget, Pack(enc, budget, xs[..i]), xs[i])
  {
    assert xs[..i + 1][..i] == xs[..i];
  }

  /** The final `if current_batch: batches.append(current_batch)`. */
  function Close(st: Packing): (bs: seq<seq<FileRecord>>)
    ensures |bs| == |st.batches| + (if st.current == [] then 0 else 1) && bs[..|st.batches|] == st.batches
  {
    if st.current != [] then st.batches + [st.current] else st.batches
  }

  /** `create_batches`. */
  function Batches(enc: Encoder, budget: int, files: seq<FileRecord>): (bs: seq<seq<FileRecord>>)
    ensures bs == [] <==> files == []
    ensures |bs| <= |files|
  {
    if files == [] then []
    else
      var s := SortEntries(Entries(enc, files));
      assert |s| == |multiset(s)| == |files|;
      Close(Pack(enc, budget, s))
  }

  // ------------------------------------------------------ sums and flattening

  /** The summed estimates of a batch. */
  function SumEst(enc: Encoder, b: seq<FileRecord>): (s: nat)
    ensures b != [] ==> s >= EstimateFileTokens(enc, b[0])
  {
    if b == [] then 0 else EstimateFileTokens(enc, b[0]) + SumEst(enc, b[1..])
  }

  /** No file's estimate exceeds the summed estimates of its batch. */
  lemma {:induction false} SumEstElement(enc: Encoder, files: seq<FileRecord>, j: nat)
    requires j < |files|
    ensures EstimateFileTokens(enc, files[j]) <= SumEst(enc, files)
  {
    if j > 0 {
      SumEstElement(enc, files[1..], j - 1);
    }
  }

  lemma {:induction false} SumEstConcat(enc: Encoder, a: seq<FileRecord>, b: seq<FileRecord>)
    ensures SumEst(enc, a + b) == SumEst(enc, a) + SumEst(enc, b)
  {
    if a == [] {
      assert a + b == b;
    } else {
      assert (a + b)[0] == a[0] && (a + b)[1..] == a[1..] + b;
      SumEstConcat(enc, a[1..], b);
    }
  }

  function Flatten(bs: seq<seq<FileRecord>>): seq<FileRecord>
  {
    if bs == [] then [] else Flatten(bs[..|bs| - 1]) + bs[|bs| - 1]
  }

  lemma FlattenSnoc(bs: seq<seq<FileRecord>>, b: seq<FileRecord>)
    ensures Flatten(bs + [b]) == Flatten(bs) + b
  {
    assert (bs + [b])[..|bs|] == bs;
  }

  lemma {:induction false} FlattenConcat(a: seq<seq<FileRecord>>, b: seq<seq<FileRecord>>)
    ensures Flatten(a + b) == Flatten(a) + Flatten(b)
  {
    if b == [] {
      assert a + b == a;
    } else {
      var init := b[..|b| - 1];
      assert a + b == (a + init) + [b[|b| - 1]];
      FlattenSnoc(a + init, b[|b| - 1]);
      FlattenConcat(a, init);
      FlattenSnoc(init, b[|b| - 1]);
      assert b == init + [b[|b| - 1]];
    }
  }

  // ------------------------------------------------------ oversized pairs come first

  /** How many pairs at the front of `xs` are oversized. */
  function LeadingOversized(budget: int, xs: seq<Entry>): (n: nat)
    ensures n <= |xs|
    ensures forall k :: 0 <= k < n ==> xs[k].tokens > budget
    ensures n < |xs| ==> xs[n].tokens <= budget
  {
    if xs == [] then 0
    else
      var init := xs[..|xs| - 1];
      var n := LeadingOversized(budget, init);
      if n == |init| && xs[|xs| - 1].tokens > budget then |xs| else n
  }

  predicate OversizedFirst(budget: int, xs: seq<Entry>)
  {
    forall i, j :: 0 <= i < j < |xs| && xs[j].tokens > budget ==> xs[i].tokens > budget
  }

  /** With oversized pairs first, exactly the leading ones are oversized. */
  lemma RestAreRegular(budget: int, xs: seq<Entry>)
    requires OversizedFirst(budget, xs)
    ensures forall k :: LeadingOversized(budget, xs) <= k < |xs| ==> xs[k].tokens <= budget
  {
  }

  lemma SortedOversizedFirst(budget: int, xs: seq<Entry>)
    requires SortedEntries(xs)
    ensures OversizedFirst(budget, xs)
  {
    forall i, j | 0 <= i < j < |xs| && xs[j].tokens > budget
      ensures xs[i].tokens > budget
    {
      assert Before(xs[i], xs[j]);
    }
  }

  // ------------------------------------------------------ the loop invariant

  /**
   * What holds of the loop's state after the pairs `xs`, with `C` the batches
   * it would return and `O` the number of leading oversized pairs: the batches
   * cover the pairs, the oversized ones come first, and the rest keep the budget.
   */
  predicate PackInv(enc: Encoder, budget: int, xs: seq<Entry>, st: Packing)
  {
    PackCovers(enc, budget, xs, st) && PackFront(enc, budget, xs, st) && PackBudget(enc, budget, xs, st)
  }

  /** Read batch by batch, the batches are the pairs' files, oversized ones truncated. */
  predicate PackCovers(enc: Encoder, budget: int, xs: seq<Entry>, st: Packing)
  {
    Flatten(Close(st)) == Emits(enc, budget, xs)
  }

  /** The first `O` batches hold the oversized files, truncated, one each. */
  predicate PackFront(enc: Encoder, budget: int, xs: seq<Entry>, st: Packing)
  {
    var C := Close(st);
    var O := LeadingOversized(budget, xs);
    && O <= |st.batches|
    && (forall i :: 0 <= i < O ==> C[i] == [TruncateFile(enc, xs[i].file, budget)])
    && (st.current == [] <==> O == |xs|)
    && (st.current == [] ==> |st.batches| == O)
  }

  /** The later batches are not empty, keep the budget, and each overflowed its predecessor. */
  predicate PackBudget(enc: Encoder, budget: int, xs: seq<Entry>, st: Packing)
  {
    var C := Close(st);
    var O := LeadingOversized(budget, xs);
    && (forall i :: O <= i < |C| ==> C[i] != [] && SumEst(enc, C[i]) <= budget)
    && st.currentTokens == SumEst(enc, st.current)
    && (forall i :: O <= i && i + 1 < |C| ==> SumEst(enc, C[i]) + EstimateFileTokens(enc, C[i + 1][0]) > budget)
  }

  lemma EmitsSnoc(enc: Encoder, budget: int, xs: seq<Entry>, e: Entry)
    ensures Emits(enc, budget, xs + [e]) == Emits(enc, budget, xs) + [Emit(enc, budget, e)]
  {
  }

  lemma LeadingOversizedSnoc(budget: int, xs: seq<Entry>, e: Entry)
    ensures LeadingOversized(budget, xs + [e])
         == if LeadingOversized(budget, xs) == |xs| && e.tokens > budget then |xs| + 1
            else LeadingOversized(budget, xs)
  {
    assert (xs + [e])[..|xs|] == xs;
  }

  /** Every iteration adds exactly the pair's emitted file to the batches read in order. */
  lemma StepCovers(enc: Encoder, budget: int, xs: seq<Entry>, st: Packing, e: Entry)
    requires PackCovers(enc, budget, xs, st)
    requires e.tokens > budget ==> st.current == []
    ensures PackCovers(enc, budget, xs + [e], Step(enc, budget, st, e))
  {
    EmitsSnoc(enc, budget, xs, e);
    var st' := Step(enc, budget, st, e);
    if e.tokens > budget {
      var t := TruncateFile(enc, e.file, budget);
      assert Close(st) == st.batches && Close(st') == st.batches + [[t]];
      FlattenSnoc(st.batches, [t]);
    } else if st.currentTokens + e.tokens > budget && st.current != [] {
      assert Close(st') == Close(st) + [[e.file]];
      FlattenSnoc(Close(st), [e.file]);
    } else if st.current == [] {
      assert st'.current == [e.file];
      assert Close(st) == st.batches && Close(st') == st.batches + [[e.file]];
      FlattenSnoc(st.batches, [e.file]);
    } else {
      assert Close(st') == st.batches + [st.current + [e.file]];
      ExtendLastBatch(st.batches, st.current, e.file);
    }
  }

  /** Every iteration keeps the oversized files, and only them, at the front. */
  lemma StepFront(enc: Encoder, budget: int, xs: seq<Entry>, st: Packing, e: Entry)
    requires PackFront(enc, budget, xs, st)
    requires e.tokens > budget ==> LeadingOversized(budget, xs) == |xs|
    ensures PackFront(enc, budget, xs + [e], Step(enc, budget, st, e))
  {
    LeadingOversizedSnoc(budget, xs, e);
    var st' := Step(enc, budget, st, e);
    var C, C' := Close(st), Close(st');
    var O := LeadingOversized(budget, xs);
    if e.tokens > budget {
      assert C == st.batches && C' == st.batches + [[TruncateFile(enc, e.file, budget)]];
      forall i | 0 <= i < O + 1
        ensures C'[i] == [TruncateFile(enc, (xs + [e])[i].file, budget)]
      {
        if i < O {
          assert C'[i] == C[i] && (xs + [e])[i] == xs[i];
        }
      }
    } else {
      assert st'.current != [];
      forall i | 0 <= i < O
        ensures C'[i] == [TruncateFile(enc, (xs + [e])[i].file, budget)]
      {
        assert C'[i] == st'.batches[i] == st.batches[i] == C[i];
        assert (xs + [e])[i] == xs[i];
      }
    }
  }

  lemma StepOversized(enc: Encoder, budget: int, xs: seq<Entry>, st: Packing, e: Entry)
    requires PackFront(enc, budget, xs, st) && PackBudget(enc, budget, xs, st)
    requires e.tokens > budget && LeadingOversized(budget, xs) == |xs|
    ensures PackBudget(enc, budget, xs + [e], Step(enc, budget, st, e))
  {
    LeadingOversizedSnoc(budget, xs, e);
    var st' := Step(enc, budget, st, e);
    assert Close(st') == st.batches + [[TruncateFile(enc, e.file, budget)]];
  }

  lemma StepNewBatch(enc: Encoder, budget: int, xs: seq<Entry>, st: Packing, e: Entry)
    requires PackBudget(enc, budget, xs, st)
    requires e.tokens == EstimateFileTokens(enc, e.file)
    requires e.tokens <= budget && st.currentTokens + e.tokens > budget && st.current != []
    ensures PackBudget(enc, budget, xs + [e], Step(enc, budget, st, e))
  {
    LeadingOversizedSnoc(budget, xs, e);
    var st' := Step(enc, budget, st, e);
    var C := Close(st);
    assert C == st.batches + [st.current];
    assert Close(st') == C + [[e.file]];
    assert SumEst(enc, [e.file]) == e.tokens;
  }

  lemma StepStartFirstBatch(enc: Encoder, budget: int, xs: seq<Entry>, st: Packing, e: Entry)
    requires PackFront(enc, budget, xs, st) && PackBudget(enc, budget, xs, st)
    requires e.tokens == EstimateFileTokens(enc, e.file)
    requires e.tokens <= budget && st.current == []
    ensures PackBudget(enc, budget, xs + [e], Step(enc, budget, st, e))
  {
    LeadingOversizedSnoc(budget, xs, e);
    var st' := Step(enc, budget, st, e);
    assert st'.current == [e.file];
    assert SumEst(enc, [e.file]) == e.tokens;
    assert Close(st') == st.batches + [[e.file]];
  }

  lemma StepExtendBatch(enc: Encoder, budget: int, xs: seq<Entry>, st: Packing, e: Entry)
    requires PackBudget(enc, budget, xs, st)
    requires e.tokens == EstimateFileTokens(enc, e.file)
    requires e.tokens <= budget && st.currentTokens + e.tokens <= budget && st.current != []
    ensures PackBudget(enc, budget, xs + [e], Step(enc, budget, st, e))
  {
    LeadingOversizedSnoc(budget, xs, e);
    var st' := Step(enc, budget, st, e);
    assert st' == Packing(st.batches, st.current + [e.file], st.currentTokens + e.tokens);
    SumEstConcat(enc, st.current, [e.file]);
    assert SumEst(enc, [e.file]) == e.tokens;
    var C, C' := Close(st), Close(st');
    assert C == st.batches + [st.current];
    assert C' == st.batches + [st.current + [e.file]];
    ExtendLastBatch(st.batches, st.current, e.file);
  }

  /** Appending a file to the open batch changes only the last batch, and only at its end. */
  lemma ExtendLastBatch(bs: seq<seq<FileRecord>>, cur: seq<FileRecord>, f: FileRecord)
    requires cur != []
    ensures var C, C' := bs + [cur], bs + [cur + [f]];
            && |C'| == |C|
            && (forall i :: 0 <= i < |bs| ==> C'[i] == C[i])
            && C'[|bs|] == cur + [f] && C'[|bs|][0] == C[|bs|][0]
            && Flatten(C') == Flatten(C) + [f]
  {
    FlattenSnoc(bs, cur);
    FlattenSnoc(bs, cur + [f]);
  }

  /** The loop invariant holds after every prefix of a sorted pass. */
  lemma {:induction false} PackInvariant(enc: Encoder, budget: int, xs: seq<Entry>)
    requires OversizedFirst(budget, xs) && TokensMatch(enc, xs)
    ensures PackInv(enc, budget, xs, Pack(enc, budget, xs))
  {
    if xs != [] {
      var init := xs[..|xs| - 1];
      var e := xs[|xs| - 1];
      assert xs == init + [e];
      assert e.tokens == EstimateFileTokens(enc, e.file);
      PackInvariant(enc, budget, init);
      var st := Pack(enc, budget, init);
      if e.tokens > budget {
        RestAreRegular(budget, init);
      }
      StepCovers(enc, budget, init, st, e);
      StepFront(enc, budget, init, st, e);
      if e.tokens > budget {
        RestAreRegular(budget, init);
        StepOversized(enc, budget, init, st, e);
      } else if st.currentTokens + e.tokens > budget && st.current != [] {
        StepNewBatch(enc, budget, init, st, e);
      } else if st.current == [] {
        StepStartFirstBatch(enc, budget, init, st, e);
      } else {
        StepExtendBatch(enc, budget, init, st, e);
      }
    }
  }

  /** The batches of `create_batches` and the sorted pairs they come from. */
  lemma BatchesInvariant(enc: Encoder, budget: int, files: seq<FileRecord>)
    ensures var s := SortEntries(Entries(enc, files));
            && SortedEntries(s) && TokensMatch(enc, s)
            && multiset(s) == multiset(Entries(enc, files))
            && PackInv(enc, budget, s, Pack(enc, budget, s))
            && Batches(enc, budget, files) == Close(Pack(enc, budget, s))
  {
    var es := Entries(enc, files);
    var s := SortEntries(es);
    SortEntriesSorted(es);
    SortedOversizedFirst(budget, s);
    TokensMatchPermutation(enc, es, s);
    PackInvariant(enc, budget, s);
    if files == [] {
      assert s == [];
    }
  }

  // ------------------------------------------------------ theorems about create_batches

  /** No files, no batches. */
  lemma NoFilesNoBatches(enc: Encoder, budget: int)
    ensures Batches(enc, budget, []) == []
  {
  }

  /**
   * Read batch by batch, the output is the files sorted by estimate, largest
   * first and stable, each oversized one replaced by its truncated copy; so
   * every input appears exactly once, as itself or truncated.
   */
  lemma BatchesCoverEveryFileOnce(enc: Encoder, budget: int, files: seq<FileRecord>)
    ensures var s := SortEntries(Entries(enc, files));
            SortedEntries(s) && Flatten(Batches(enc, budget, files)) == Emits(enc, budget, s)
    ensures multiset(Flatten(Batches(enc, budget, files))) == multiset(Emits(enc, budget, Entries(enc, files)))
  {
    BatchesInvariant(enc, budget, files);
    var es := Entries(enc, files);
    EmitsPermutation(enc, budget, es);
  }

  lemma EmitsCons(enc: Encoder, budget: int, x: Entry, xs: seq<Entry>)
    ensures Emits(enc, budget, [x] + xs) == [Emit(enc, budget, x)] + Emits(enc, budget, xs)
  {
    var l, r := Emits(enc, budget, [x] + xs), [Emit(enc, budget, x)] + Emits(enc, budget, xs);
    forall k | 0 <= k < |l|
      ensures l[k] == r[k]
    {
      if k > 0 {
        assert ([x] + xs)[k] == xs[k - 1];
      }
    }
  }

  lemma {:induction false} EmitsInsert(enc: Encoder, budget: int, e: Entry, xs: seq<Entry>)
    ensures multiset(Emits(enc, budget, Insert(e, xs))) == multiset(Emits(enc, budget, xs)) + multiset{Emit(enc, budget, e)}
  {
    if xs == [] || Before(e, xs[0]) {
      EmitsCons(enc, budget, e, xs);
    } else {
      EmitsInsert(enc, budget, e, xs[1..]);
      EmitsCons(enc, budget, xs[0], Insert(e, xs[1..]));
      EmitsCons(enc, budget, xs[0], xs[1..]);
      assert [xs[0]] + xs[1..] == xs;
    }
  }

  lemma {:induction false} EmitsPermutation(enc: Encoder, budget: int, xs: seq<Entry>)
    ensures multiset(Emits(enc, budget, SortEntries(xs))) == multiset(Emits(enc, budget, xs))
  {
    if xs != [] {
      var x, rest := xs[0], xs[1..];
      var sortedRest := SortEntries(rest);
      assert SortEntries(xs) == Insert(x, sortedRest);
      EmitsPermutation(enc, budget, rest);
      EmitsInsert(enc, budget, x, sortedRest);
      assert [x] + rest == xs;
      EmitsCons(enc, budget, x, rest);
      EmitsMultiset(Emit(enc, budget, x), Emits(enc, budget, rest));
    }
  }

  lemma EmitsMultiset(f: FileRecord, fs: seq<FileRecord>)
    ensures multiset([f] + fs) == multiset(fs) + multiset{f}
  {
  }

  /**
   * No batch is empty. The first batches are the oversized files, one each and
   * truncated, in sorted order; every later batch keeps its summed estimates
   * within the budget; and a later batch was started only because its first
   * file would have pushed the previous one over the budget.
   */
  lemma BatchesShape(enc: Encoder, budget: int, files: seq<FileRecord>)
    ensures var bs := Batches(enc, budget, files);
            var s := SortEntries(Entries(enc, files));
            var O := LeadingOversized(budget, s);
            && (forall i :: 0 <= i < |bs| ==> bs[i] != [])
            && O <= |bs|
            && (forall k :: 0 <= k < |s| ==> (s[k].tokens > budget <==> k < O))
            && (forall i :: 0 <= i < O ==> bs[i] == [TruncateFile(enc, s[i].file, budget)])
            && (forall i :: O <= i < |bs| ==> SumEst(enc, bs[i]) <= budget)
            && (forall i :: O <= i && i + 1 < |bs| ==>
                  SumEst(enc, bs[i]) + EstimateFileTokens(enc, bs[i + 1][0]) > budget)
  {
    var s := SortEntries(Entries(enc, files));
    BatchesInvariant(enc, budget, files);
    SortedOversizedFirst(budget, s);
    var C := Close(Pack(enc, budget, s));
    InvariantShape(enc, budget, s, Pack(enc, budget, s));
    assert Batches(enc, budget, files) == C;
  }

  /** The shape `BatchesShape` states, read off the loop invariant of a pass with oversized pairs first. */
  lemma InvariantShape(enc: Encoder, budget: int, s: seq<Entry>, st: Packing)
    requires OversizedFirst(budget, s) && PackInv(enc, budget, s, st)
    ensures var C := Close(st);
            var O := LeadingOversized(budget, s);
            && (forall i :: 0 <= i < |C| ==> C[i] != [])
            && O <= |C|
            && (forall k :: 0 <= k < |s| ==> (s[k].tokens > budget <==> k < O))
            && (forall i :: 0 <= i < O ==> C[i] == [TruncateFile(enc, s[i].file, budget)])
            && (forall i :: O <= i < |C| ==> SumEst(enc, C[i]) <= budget)
            && (forall i :: O <= i && i + 1 < |C| ==>
                  SumEst(enc, C[i]) + EstimateFileTokens(enc, C[i + 1][0]) > budget)
  {
    RestAreRegular(budget, s);
  }

  /** An oversized file's batch holds its truncated copy, whose keys record the original line count. */
  lemma OversizedBatchRecordsLines(enc: Encoder, budget: int, files: seq<FileRecord>, i: nat)
    requires var s := SortEntries(Entries(enc, files)); i < LeadingOversized(budget, s)
    ensures var bs := Batches(enc, budget, files);
            var s := SortEntries(Entries(enc, files));
            && i < |bs| && |bs[i]| == 1
            && bs[i][0].truncation.Some?
            && bs[i][0].truncation.value.originalLines == s[i].file.lines
            && bs[i][0].truncation.value.truncatedLines <= |SplitLines(s[i].file.content)|
  {
    BatchesShape(enc, budget, files);
  }

  // ------------------------------------------------------ optimize_batching_strategy

  datatype BatchingStrategy = SingleBatch | FileByFile | SmartBatching

  /** `optimize_batching_strategy`: one batch when everything fits, else by file count. */
  function OptimizeBatchingStrategy(enc: Encoder, budget: int, files: seq<FileRecord>): (r: BatchingStrategy)
    ensures r == SingleBatch <==> SumEst(enc, files) <= budget
    ensures r == SingleBatch ==> forall j :: 0 <= j < |files| ==> EstimateFileTokens(enc, files[j]) <= budget
    ensures r == FileByFile ==> |files| <= 10
    ensures r == SmartBatching ==> |files| > 10
  {
    assert forall j :: 0 <= j < |files| ==> EstimateFileTokens(enc, files[j]) <= SumEst(enc, files) by {
      forall j | 0 <= j < |files| {
        SumEstElement(enc, files, j);
      }
    }
    if SumEst(enc, files) <= budget then SingleBatch
    else if |files| <= 10 then FileByFile
    else SmartBatching
  }

  lemma MultisetRemove<T>(b: seq<T>, j: nat)
    requires j < |b|
    ensures multiset(b) == multiset(b[..j] + b[j + 1..]) + multiset{b[j]}
  {
    assert b == b[..j] + [b[j]] + b[j + 1..];
  }

  lemma SplitAt<T>(b: seq<T>, j: nat)
    requires j < |b|
    ensures b == (b[..j] + [b[j]]) + b[j + 1..]
  {
  }

  lemma MultisetCancel<T>(m1: multiset<T>, m2: multiset<T>, x: T)
    requires m1 + multiset{x} == m2 + multiset{x}
    ensures m1 == m2
  {
    assert forall y :: m1[y] == (m1 + multiset{x})[y] - multiset{x}[y];
  }

  lemma SumEstRemove(enc: Encoder, b: seq<FileRecord>, j: nat)
    requires j < |b|
    ensures SumEst(enc, b) == SumEst(enc, b[..j] + b[j + 1..]) + EstimateFileTokens(enc, b[j])
  {
    SplitAt(b, j);
    SumEstConcat(enc, b[..j] + [b[j]], b[j + 1..]);
    SumEstConcat(enc, b[..j], [b[j]]);
    SumEstConcat(enc, b[..j], b[j + 1..]);
  }

  /** Summed estimates do not depend on the order of the files. */
  lemma {:induction false} SumEstPermutation(enc: Encoder, a: seq<FileRecord>, b: seq<FileRecord>)
    requires multiset(a) == multiset(b)
    ensures SumEst(enc, a) == SumEst(enc, b)
    decreases |a|
  {
    if a == [] {
      assert |b| == |multiset(b)| == 0;
    } else {
      assert a[0] in multiset(b);
      var j :| 0 <= j < |b| && b[j] == a[0];
      MultisetRemove(a, 0);
      MultisetRemove(b, j);
      assert a[..0] + a[1..] == a[1..];
      MultisetCancel(multiset(a[1..]), multiset(b[..j] + b[j + 1..]), a[0]);
      SumEstPermutation(enc, a[1..], b[..j] + b[j + 1..]);
      SumEstRemove(enc, b, j);
    }
  }

  lemma FlattenTwo(x: seq<FileRecord>, y: seq<FileRecord>)
    ensures Flatten([x, y]) == x + y
  {
    assert [x, y] == [x] + [y];
    FlattenSnoc([x], y);
    assert [x] == [] + [x];
    FlattenSnoc([], x);
  }

  /** The summed estimates of a list of batches are at least those of its first batch and the next file. */
  lemma TwoBatchesSum(enc: Encoder, bs: seq<seq<FileRecord>>)
    requires |bs| >= 2 && bs[1] != []
    ensures SumEst(enc, Flatten(bs)) >= SumEst(enc, bs[0]) + EstimateFileTokens(enc, bs[1][0])
  {
    var x, y, rest := bs[0], bs[1], bs[2..];
    SplitTwo(bs);
    FlattenConcat([x, y], rest);
    FlattenTwo(x, y);
    SumEstConcat(enc, x + y, Flatten(rest));
    SumEstConcat(enc, x, y);
  }

  lemma SplitTwo<T>(xs: seq<T>)
    requires |xs| >= 2
    ensures xs == [xs[0], xs[1]] + xs[2..]
  {
  }

  predicate AllRegular(budget: int, xs: seq<Entry>)
  {
    forall k :: 0 <= k < |xs| ==> xs[k].tokens <= budget
  }

  lemma EmitsAllRegular(enc: Encoder, budget: int, xs: seq<Entry>)
    requires AllRegular(budget, xs)
    ensures Emits(enc, budget, xs) == Files(xs)
    ensures LeadingOversized(budget, xs) == 0
  {
  }

  lemma AllRegularPermutation(budget: int, xs: seq<Entry>, ys: seq<Entry>)
    requires AllRegular(budget, xs) && multiset(xs) == multiset(ys)
    ensures AllRegular(budget, ys)
  {
    forall k | 0 <= k < |ys|
      ensures ys[k].tokens <= budget
    {
      assert ys[k] in multiset(xs);
    }
  }

  lemma FilesOfEntries(enc: Encoder, files: seq<FileRecord>)
    ensures Files(Entries(enc, files)) == files
  {
  }

  /** When the files' summed estimates fit, no file is oversized, so nothing is truncated. */
  lemma NothingOversizedWhenAllFit(enc: Encoder, budget: int, files: seq<FileRecord>)
    requires SumEst(enc, files) <= budget
    ensures var s := SortEntries(Entries(enc, files));
            && LeadingOversized(budget, s) == 0
            && Emits(enc, budget, s) == Files(s)
            && Emits(enc, budget, Entries(enc, files)) == files
  {
    var es := Entries(enc, files);
    forall k | 0 <= k < |es|
      ensures es[k].tokens <= budget
    {
      SumEstElement(enc, files, k);
    }
    AllRegularPermutation(budget, es, SortEntries(es));
    EmitsAllRegular(enc, budget, es);
    EmitsAllRegular(enc, budget, SortEntries(es));
    FilesOfEntries(enc, files);
  }

  /** With nothing oversized, a second batch exists only because the first could not take its first file. */
  lemma SecondBatchOverflowsFirst(enc: Encoder, budget: int, files: seq<FileRecord>)
    requires LeadingOversized(budget, SortEntries(Entries(enc, files))) == 0
    requires |Batches(enc, budget, files)| >= 2
    ensures var bs := Batches(enc, budget, files);
            bs[1] != [] && SumEst(enc, bs[0]) + EstimateFileTokens(enc, bs[1][0]) > budget
  {
    BatchesShape(enc, budget, files);
  }

  /**
   * When `optimize_batching_strategy` answers `single_batch` for some files,
   * `create_batches` does produce exactly one batch: all the files, sorted.
   */
  lemma SingleBatchMeansOneBatch(enc: Encoder, budget: int, files: seq<FileRecord>)
    requires files != [] && OptimizeBatchingStrategy(enc, budget, files) == SingleBatch
    ensures |Batches(enc, budget, files)| == 1
    ensures Batches(enc, budget, files)[0] == Files(SortEntries(Entries(enc, files)))
  {
    var s := SortEntries(Entries(enc, files));
    var bs := Batches(enc, budget, files);
    NothingOversizedWhenAllFit(enc, budget, files);
    BatchesCoverEveryFileOnce(enc, budget, files);
    assert Flatten(bs) == Files(s);
    assert multiset(Flatten(bs)) == multiset(files);
    SumEstPermutation(enc, Flatten(bs), files);
    if |bs| >= 2 {
      SecondBatchOverflowsFirst(enc, budget, files);
      TwoBatchesSum(enc, bs);
      assert false;
    }
    OneBatchFlattens(bs);
  }

  lemma OneBatchFlattens(bs: seq<seq<FileRecord>>)
    requires |bs| == 1
    ensures Flatten(bs) == bs[0]
  {
    assert bs[..0] == [];
  }

  // ------------------------------------------------------ scenarios

  /** Files whose one-letter contents are estimated at 600, 300, 500, 400 and 1500 tokens; headers cost nothing. */
  function ScenarioEncoder(): Encoder
  {
    s => if |s| != 1 then Some(0)
         else if s[0] == 'A' then Some(600) else if s[0] == 'B' then Some(300)
         else if s[0] == 'C' then Some(500) else if s[0] == 'D' then Some(400)
         else if s[0] == 'E' then Some(1500) else Some(0)
  }

  function ScenarioFile(content: string): FileRecord
  {
    Plain("f.py", "/src/f.py", "f.py", ".py", content, |content|, 1)
  }

  lemma ScenarioEstimates()
    ensures EstimateFileTokens(ScenarioEncoder(), ScenarioFile("A")) == 600
    ensures EstimateFileTokens(ScenarioEncoder(), ScenarioFile("B")) == 300
    ensures EstimateFileTokens(ScenarioEncoder(), ScenarioFile("C")) == 500
    ensures EstimateFileTokens(ScenarioEncoder(), ScenarioFile("D")) == 400
    ensures EstimateFileTokens(ScenarioEncoder(), ScenarioFile("E")) == 1500
  {
  }

  lemma ScenarioThreeEntries()
    ensures Entries(ScenarioEncoder(), [ScenarioFile("A"), ScenarioFile("B"), ScenarioFile("C")])
         == [Entry(0, ScenarioFile("A"), 600), Entry(1, ScenarioFile("B"), 300), Entry(2, ScenarioFile("C"), 500)]
  {
    ScenarioEstimates();
  }

  lemma ScenarioThreeSorted(e0: Entry, e1: Entry, e2: Entry)
    requires e0.tokens == 600 && e1.tokens == 300 && e2.tokens == 500
    ensures SortEntries([e0, e1, e2]) == [e0, e2, e1]
  {
    ScenarioTwoSorted(e1, e2);
    assert [e0, e1, e2][1..] == [e1, e2];
  }

  lemma ScenarioTwoSorted(e1: Entry, e2: Entry)
    requires e1.tokens == 300 && e2.tokens == 500
    ensures SortEntries([e1, e2]) == [e2, e1]
  {
    assert [e1, e2][1..] == [e2];
    assert [e2][1..] == [];
    assert Insert(e1, [e2]) == [e2] + Insert(e1, []);
  }

  lemma ScenarioThreePacked(enc: Encoder, e0: Entry, e1: Entry, e2: Entry)
    requires e0.tokens == 600 && e1.tokens == 300 && e2.tokens == 500
    ensures Pack(enc, 1000, [e0, e2, e1]) == Packing([[e0.file]], [e2.file, e1.file], 800)
  {
    var s := [e0, e2, e1];
    assert s[..2] == [e0, e2] && s[..2][..1] == [e0] && [e0][..0] == [];
    assert Pack(enc, 1000, [e0]) == Packing([], [e0.file], 600);
    assert Pack(enc, 1000, [e0, e2]) == Packing([[e0.file]], [e2.file], 500);
  }

  /** Budget 1000: the 600 file fills one batch, and the 500 and 300 files share the next. */
  lemma ScenarioLargestFirst()
    ensures Batches(ScenarioEncoder(), 1000, [ScenarioFile("A"), ScenarioFile("B"), ScenarioFile("C")])
         == [[ScenarioFile("A")], [ScenarioFile("C"), ScenarioFile("B")]]
  {
    var e0, e1, e2 := Entry(0, ScenarioFile("A"), 600), Entry(1, ScenarioFile("B"), 300), Entry(2, ScenarioFile("C"), 500);
    ScenarioThreeEntries();
    ScenarioThreeSorted(e0, e1, e2);
    ScenarioThreePacked(ScenarioEncoder(), e0, e1, e2);
  }

  /** Budget 1000: files of 600 and 400 tokens fit exactly and share one batch. */
  lemma ScenarioExactFit()
    ensures Batches(ScenarioEncoder(), 1000, [ScenarioFile("A"), ScenarioFile("D")])
         == [[ScenarioFile("A"), ScenarioFile("D")]]
  {
    var enc := ScenarioEncoder();
    var a, d := ScenarioFile("A"), ScenarioFile("D");
    ScenarioEstimates();
    var e0, e1 := Entry(0, a, 600), Entry(1, d, 400);
    assert Entries(enc, [a, d]) == [e0, e1];
    assert SortEntries([e0, e1]) == [e0, e1] by {
      assert [e0, e1][1..] == [e1] && [e1][1..] == [];
      assert Insert(e1, []) == [e1];
    }
    assert Pack(enc, 1000, [e0, e1]) == Packing([], [a, d], 1000) by {
      assert [e0, e1][..1] == [e0] && [e0][..0] == [];
      assert Pack(enc, 1000, [e0]) == Packing([], [a], 600);
    }
  }

  /** Budget 1000: a single 1500-token file comes back alone, as its copy truncated with limit 1000. */
  lemma ScenarioOversized()
    ensures Batches(ScenarioEncoder(), 1000, [ScenarioFile("E")])
         == [[TruncateFile(ScenarioEncoder(), ScenarioFile("E"), 1000)]]
  {
    var enc := ScenarioEncoder();
    var f := ScenarioFile("E");
    ScenarioEstimates();
    var e0 := Entry(0, f, 1500);
    assert Entries(enc, [f]) == [e0];
    assert [e0][1..] == [] && [e0][..0] == [];
    assert SortEntries([e0]) == [e0];
  }
}
