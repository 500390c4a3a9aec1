/** UpdateKeywords: one bit of each listed keyword's bitmap is set or cleared through the cache. */
module KeywordUpdates {
  import opened Bytes
  import opened BitPack
  import opened Labels
  import opened Context
  import opened IndexModel
  import opened KeywordIndex
  import opened ColdRounds
  import opened Tokens

  /** How one keyword's round ended: applied, skipped with a warning, or the capacity exception. */
  datatype StepResult = Done | Skipped | NoCapacity

  function SetBit(bits: Bitmap, bit: int, add: bool): Bitmap
  {
    if add then bits + {bit} else bits - {bit}
  }

  /** The bitmap a keyword ends up with. An empty cache makes the code start from a fresh bitmap. */
  function BitmapAfter(c: ClientContext, s: Store, word: Text, bit: int, add: bool): Bitmap
  {
    SetBit(if |c.CK| == 0 then {} else View(c, s, word), bit, add)
  }

  ghost predicate IndexInv(c: ClientContext, s: Store)
  {
    Inv(c, s) && Pool(c) && c.ckMax >= 1
  }

  /**
   Placeholders are spent on nothing but keywords new to the index, which are among the given words; this
   many came in between.
   */
  ghost predicate Fed(c: ClientContext, c': ClientContext, words: set<Text>, gain: int)
  {
    && RealKeys(c) <= RealKeys(c') <= RealKeys(c) + words
    && c'.dummyCount + |RealKeys(c')| >= c.dummyCount + |RealKeys(c)| + gain
  }

  /** No placeholder is left, and one of the words is still to be indexed. */
  ghost predicate Hungry(c: ClientContext, words: set<Text>)
  {
    c.dummyCount <= 0 && exists w :: w in words && Real(w) && w !in c.KVS
  }

  lemma FedTrans(c0: ClientContext, c1: ClientContext, c2: ClientContext, a: set<Text>, b: set<Text>, m: int, n: int)
    requires Fed(c0, c1, a, m) && Fed(c1, c2, b, n)
    ensures Fed(c0, c2, a + b, m + n)
  {
    hide RealKeys;
  }

  lemma FedMore(c: ClientContext, c': ClientContext, a: set<Text>, b: set<Text>, n: int)
    requires Fed(c, c', a, n) && a <= b
    ensures Fed(c, c', b, n)
  {
    hide RealKeys;
  }

  lemma FedSame(c: ClientContext, c': ClientContext, n: int)
    requires RealKeys(c') == RealKeys(c) && c'.dummyCount >= c.dummyCount + n
    ensures Fed(c, c', {}, n)
  {
    hide RealKeys;
  }

  /** Then there were fewer placeholders, later arrivals included, than words new to the index. */
  lemma FedHungry(c: ClientContext, c': ClientContext, words: set<Text>, n: int)
    requires Fed(c, c', words, n) && Hungry(c', words)
    ensures c.dummyCount + n < |words - c.KVS.Keys|
  {
    hide RealKeys, Real;
    var w :| w in words && Real(w) && w !in c'.KVS;
    KeysAre(c);
    KeysAre(c');
    OneMissing(RealKeys(c), RealKeys(c'), c.KVS.Keys, words, w);
  }

  lemma OneMissing(a: set<Text>, b: set<Text>, known: set<Text>, words: set<Text>, w: Text)
    requires a <= b <= a + words && w in words && w !in b && w !in known && (b - a) !! known
    ensures |b| + 1 <= |a| + |words - known|
  {
    SplitSize(a, b);
    SubsetSize((b - a) + {w}, words - known);
    assert |(b - a) + {w}| == |b - a| + 1;
  }

  lemma KeysAre(c: ClientContext)
    ensures forall w :: w in RealKeys(c) <==> w in c.KVS && Real(w)
  {
    hide Real;
  }

  lemma SplitSize(a: set<Text>, b: set<Text>)
    requires a <= b
    ensures |b| == |a| + |b - a|
  {
    assert b == a + (b - a);
  }

  /** What a completed round guarantees. */
  ghost predicate RoundOk(c: ClientContext, s: Store, c': ClientContext, s': Store, word: Text)
  {
    && IndexFrame(c, c')
    && IndexInv(c', s')
    && (Fresh(c, s) && (|c.CK| > 0 || word !in c.KVS) ==> Fresh(c', s') && NoOverwrite(c.K, s, s'))
    && |WordSet(c'.words)| >= |WordSet(c.words)|
    && |c'.KVS| >= |c.KVS|
    && c'.dummyCount >= c.dummyCount - 1
    && Fed(c, c', {word}, 0)
  }

  /**
   What one keyword's round adds to the tally: a missed pick; or, from an empty cache, that a known word
   started over and that this dropped the bit of another document.
   */
  function RoundTally(c: ClientContext, s: Store, word: Text, bit: int, r: StepResult, t: Tally): Tally
  {
    if r.Skipped? then Missed(c, t)
    else if |c.CK| == 0 then
      t.(rewinds := t.rewinds + (if word in c.KVS then 1 else 0),
         losses := t.losses + (if View(c, s, word) <= {bit} then 0 else 1))
    else t
  }

  lemma SetBitWithin(bits: Bitmap, bit: int, add: bool)
    requires Within(bits, TOTAL_FILE_NO) && 0 <= bit < TOTAL_FILE_NO
    ensures Within(SetBit(bits, bit, add), TOTAL_FILE_NO)
  {
  }

  // ----- steps on the context that a round is made of

  lemma CacheStep(c: ClientContext, s: Store, w: Text, bits: Bitmap)
    requires IndexInv(c, s) && w in c.KVS && Real(w) && Within(bits, TOTAL_FILE_NO)
    ensures var c' := Cached(c, w, bits);
            IndexInv(c', s) && ViewSet(c, s, c', s, w, bits) && (Fresh(c, s) ==> Fresh(c', s))
  {
    hide Inv, Load, Pool, Fresh, Real;
    CacheSets(c, s, w, bits);
    FillFresh(c, s, w, bits);
  }

  lemma EnterStep(c: ClientContext, s: Store, w: Text, bits: Bitmap)
    requires IndexInv(c, s) && Real(w) && Within(bits, TOTAL_FILE_NO)
    ensures var c' := Entered(c, w, bits);
            && IndexInv(c', s) && ViewSet(c, s, c', s, w, bits)
            && (Fresh(c, s) && w !in c.KVS ==> Fresh(c', s))
            && |WordSet(c'.words)| >= |WordSet(c.words)| && |c'.KVS| >= |c.KVS|
            && Fed(c, c', {w}, 0) && (w !in c.KVS ==> |RealKeys(c')| == |RealKeys(c)| + 1)
  {
    hide Inv, Load, Real, BitmapLabel, DummyName, Fresh, RealKeys, Fed;
    EnterKeys(c, w, bits);
    EnterSets(c, s, w, bits);
    SubsetSize(c.KVS.Keys, c.KVS[w := 1].Keys);
    EnterPool(c, w, bits);
    if Fresh(c, s) && w !in c.KVS {
      EnterFresh(c, s, w, bits);
    }
    assert WordSet(c.words + [w]) == WordSet(c.words) + {w};
    SubsetSize(WordSet(c.words), WordSet(c.words + [w]));
  }

  lemma EnterKeys(c: ClientContext, w: Text, bits: Bitmap)
    requires Real(w)
    ensures var c' := Entered(c, w, bits); Fed(c, c', {w}, 0) && (w !in c.KVS ==> |RealKeys(c')| == |RealKeys(c)| + 1)
  {
    hide Real;
    assert RealKeys(Entered(c, w, bits)) == RealKeys(c) + {w};
    SubsetSize(RealKeys(c), RealKeys(c) + {w});
  }

  lemma EnterFresh(c: ClientContext, s: Store, w: Text, bits: Bitmap)
    requires Fresh(c, s) && w !in c.KVS
    ensures Fresh(Entered(c, w, bits), s)
  {
    hide BitmapLabel, Real;
  }

  lemma EnterPool(c: ClientContext, w: Text, bits: Bitmap)
    requires Pool(c) && Real(w)
    ensures Pool(Entered(c, w, bits))
  {
    var c' := Entered(c, w, bits);
    forall i: nat
      ensures DummyName(i) != w
    {
      DummyNameStem(i);
      RealNotDummy(w);
    }
    hide DummyName, Real;
    SubsetSize(DummyIndices(c.KVS, c.dummySize), DummyIndices(c'.KVS, c'.dummySize));
  }

  lemma ConsumeStep(c: ClientContext, s: Store, i: nat)
    requires IndexInv(c, s)
    ensures var c' := Consumed(c, DummyName(i));
            && IndexInv(c', s) && SameView(c, s, c', s) && (Fresh(c, s) ==> Fresh(c', s))
            && RealKeys(c') == RealKeys(c)
  {
    hide Inv, Load, BitmapLabel, View;
    DummyNameStem(i);
    ConsumeKeys(c, DummyName(i));
    ConsumeKeeps(c, s, DummyName(i));
    ConsumePool(c, i);
    ConsumeFresh(c, s, DummyName(i));
  }

  lemma ConsumeKeys(c: ClientContext, d: Text)
    requires Dummyish(d)
    ensures RealKeys(Consumed(c, d)) == RealKeys(c)
  {
    assert !Real(d);
  }

  lemma ConsumeFresh(c: ClientContext, s: Store, d: Text)
    requires Dummyish(d)
    ensures Fresh(c, s) ==> Fresh(Consumed(c, d), s)
  {
    forall w | Real(w)
      ensures w != d
    {
      RealNotDummy(w);
    }
    hide BitmapLabel, Real, Dummyish;
  }

  lemma ConsumePool(c: ClientContext, i: nat)
    requires Pool(c)
    ensures Pool(Consumed(c, DummyName(i)))
  {
    var c' := Consumed(c, DummyName(i));
    forall j: nat | DummyName(j) == DummyName(i)
      ensures i == j
    {
      DummyNameInjective(i, j);
    }
    hide DummyName;
    assert DummyIndices(c.KVS, c.dummySize) - {i} <= DummyIndices(c'.KVS, c'.dummySize);
    SubsetSize(DummyIndices(c.KVS, c.dummySize) - {i}, DummyIndices(c'.KVS, c'.dummySize));
  }

  lemma SetSwap(a: set<Text>, d: Text, w: Text)
    requires w !in a
    ensures |(a - {d}) + {w}| >= |a|
  {
    var rest := a - {d};
    assert |rest + {w}| == |rest| + 1;
    SubsetSize(a, rest + {d});
    assert |rest + {d}| <= |rest| + 1;
  }

  /** A new keyword takes a placeholder's seat, so the list of distinct words does not shrink. */
  lemma SeatTaken(words: seq<Text>, d: Text, w: Text)
    requires w !in words
    ensures |WordSet(Without(words, d) + [w])| >= |WordSet(words)|
  {
    assert WordSet(Without(words, d) + [w]) == (WordSet(words) - {d}) + {w};
    SetSwap(WordSet(words), d, w);
  }

  /** There is a placeholder to consume whenever dummy_count is positive. */
  lemma DummyAvailable(c: ClientContext) returns (i: nat)
    requires Pool(c) && c.dummyCount > 0
    ensures i < c.dummySize && DummyName(i) in c.KVS
  {
    var indices := DummyIndices(c.KVS, c.dummySize);
    assert indices != {};
    i :| i in indices;
  }

  // ----- the rounds

  /** Flip the bit in the cache, loading or creating the bitmap first, then write the word out. */
  method PutBit(cm: ContextManager, host: Host, edb: int, bit: int, word: Text, add: bool)
    requires edb in host.bitmaps && IndexInv(cm.ctx, host.bitmaps[edb])
    requires Real(word) && 0 <= bit < TOTAL_FILE_NO && |cm.ctx.CK| > 0
    modifies cm`ctx, host`bitmaps, host`trace
    ensures edb in host.bitmaps && host.bitmaps == old(host.bitmaps)[edb := host.bitmaps[edb]]
    ensures ViewSet(old(cm.ctx), old(host.bitmaps)[edb], cm.ctx, host.bitmaps[edb], word,
                    SetBit(View(old(cm.ctx), old(host.bitmaps)[edb], word), bit, add))
    ensures RoundOk(old(cm.ctx), old(host.bitmaps)[edb], cm.ctx, host.bitmaps[edb], word)
    ensures cm.ctx.CK.Keys == old(cm.ctx.CK).Keys - {word} && cm.ctx.KVS.Keys == old(cm.ctx.KVS).Keys + {word}
  {
    hide Inv, Load, StoredAt, Fresh, Pool, NoOverwrite, Real, Dummyish, KeyOk, IndexInv, SameView, Fed;
    ghost var c0, s0 := cm.ctx, host.bitmaps[edb];
    PutStep(c0, s0, word, bit, add);
    if word in cm.ctx.CK {
      cm.ctx := cm.ctx.(CK := cm.ctx.CK[word := SetBit(cm.ctx.CK[word], bit, add)]);
    } else if word in cm.ctx.KVS {
      var bm := LoadBitmapFromStorage(cm, host, edb, word, cm.ctx.KVS[word]);
      cm.ctx := cm.ctx.(CK := cm.ctx.CK[word := SetBit(bm, bit, add)]);
    } else {
      cm.ctx := cm.ctx.(CK := cm.ctx.CK[word := SetBit({}, bit, add)],
                        KVS := cm.ctx.KVS[word := 1],
                        words := cm.ctx.words + [word]);
    }
    ghost var c1 := cm.ctx;
    assert c1 == PutCtx(c0, word, SetBit(View(c0, s0, word), bit, add));
    hide View, ViewSet, PutCtx;
    StoreWord(cm, host, edb, word);
    WrittenSize(c1, word);
    PutDone(c0, s0, c1, cm.ctx, host.bitmaps[edb], word, SetBit(View(c0, s0, word), bit, add));
  }

  function PutCtx(c: ClientContext, word: Text, bits: Bitmap): ClientContext
  {
    if word in c.KVS then Cached(c, word, bits) else Entered(c, word, bits)
  }

  lemma PutStep(c: ClientContext, s: Store, word: Text, bit: int, add: bool)
    requires IndexInv(c, s) && Real(word) && 0 <= bit < TOTAL_FILE_NO
    ensures word in c.CK ==> word in c.KVS
    ensures word in c.KVS && word !in c.CK ==> StoredAt(c.K, s, word, c.KVS[word])
    ensures var bits := SetBit(View(c, s, word), bit, add);
            var c1 := PutCtx(c, word, bits);
            && IndexInv(c1, s) && ViewSet(c, s, c1, s, word, bits)
            && (Fresh(c, s) ==> Fresh(c1, s))
            && |WordSet(c1.words)| >= |WordSet(c.words)| && |c1.KVS| >= |c.KVS|
            && IndexFrame(c, c1) && c1.dummyCount == c.dummyCount && Fed(c, c1, {word}, 0)
            && word in c1.CK && c1.CK.Keys - {word} == c.CK.Keys - {word} && c1.KVS.Keys == c.KVS.Keys + {word}
  {
    hide Inv, Load, StoredAt, Fresh, Pool, Real, Dummyish, KeyOk, Fed, RealKeys;
    PutKeys(c, word, SetBit(View(c, s, word), bit, add));
    InvFacts(c, s, word);
    RealNotDummy(word);
    ViewWithin(c, s, word);
    var bits := SetBit(View(c, s, word), bit, add);
    SetBitWithin(View(c, s, word), bit, add);
    if word in c.KVS {
      CacheStep(c, s, word, bits);
    } else {
      EnterStep(c, s, word, bits);
    }
  }

  lemma PutKeys(c: ClientContext, w: Text, bits: Bitmap)
    requires Real(w)
    ensures var c1 := PutCtx(c, w, bits);
            Fed(c, c1, {w}, 0) && c1.CK.Keys - {w} == c.CK.Keys - {w} && c1.KVS.Keys == c.KVS.Keys + {w}
  {
    hide Fed;
    if w in c.KVS {
      assert c.KVS.Keys + {w} == c.KVS.Keys;
      SameKeys(c, PutCtx(c, w, bits));
      FedMore(c, PutCtx(c, w, bits), {}, {w}, 0);
    } else {
      EnterKeys(c, w, bits);
    }
  }

  lemma SameKeys(c: ClientContext, c': ClientContext)
    requires c'.KVS.Keys == c.KVS.Keys && c'.dummyCount == c.dummyCount
    ensures Fed(c, c', {}, 0) && RealKeys(c') == RealKeys(c)
  {
    hide Real;
    assert forall w :: w in c'.KVS <==> w in c'.KVS.Keys;
    assert RealKeys(c') == RealKeys(c);
  }

  /** Writing a known word out changes no keys. */
  lemma FedWritten(c0: ClientContext, c: ClientContext, word: Text, words: set<Text>)
    requires Fed(c0, c, words, 0) && word in c.KVS
    ensures Fed(c0, WrittenOut(c, word), words, 0) && WrittenOut(c, word).KVS.Keys == c.KVS.Keys
  {
    hide Fed;
    assert WrittenOut(c, word).KVS.Keys == c.KVS.Keys;
    SameKeys(c, WrittenOut(c, word));
    FedTrans(c0, c, WrittenOut(c, word), words, {}, 0, 0);
    assert words + {} == words;
  }

  lemma PutDone(c0: ClientContext, s0: Store, c1: ClientContext, c2: ClientContext, s2: Store,
                word: Text, bits: Bitmap)
    requires IndexFrame(c0, c1) && c1.dummyCount == c0.dummyCount && |WordSet(c1.words)| >= |WordSet(c0.words)|
    requires |c1.KVS| >= |c0.KVS| && |c2.KVS| >= |c1.KVS| && Fed(c0, c1, {word}, 0) && word in c1.KVS
    requires ViewSet(c0, s0, c1, s0, word, bits) && (Fresh(c0, s0) ==> Fresh(c1, s0))
    requires c2 == WrittenOut(c1, word) && SameView(c1, s0, c2, s2) && IndexInv(c2, s2)
    requires Fresh(c1, s0) ==> Fresh(c2, s2) && NoOverwrite(c2.K, s0, s2)
    ensures ViewSet(c0, s0, c2, s2, word, bits) && RoundOk(c0, s0, c2, s2, word)
  {
    hide ViewSet, SameView, IndexInv, Fresh, NoOverwrite, Fed, RealKeys, WordSet;
    FedWritten(c0, c1, word, {word});
    SetThenSame(c0, s0, c1, s0, c2, s2, word, bits);
  }

  lemma SetThenSame(c0: ClientContext, s0: Store, c1: ClientContext, s1: Store, c2: ClientContext, s2: Store,
                    word: Text, bits: Bitmap)
    requires ViewSet(c0, s0, c1, s1, word, bits) && SameView(c1, s1, c2, s2)
    ensures ViewSet(c0, s0, c2, s2, word, bits)
  {
    hide View;
  }

  /** store_bitmap_batch(edb_id, {word}) */
  method StoreWord(cm: ContextManager, host: Host, edb: int, word: Text)
    requires edb in host.bitmaps && IndexInv(cm.ctx, host.bitmaps[edb]) && word in cm.ctx.CK
    modifies cm`ctx, host`bitmaps, host`trace
    ensures edb in host.bitmaps && host.bitmaps == old(host.bitmaps)[edb := host.bitmaps[edb]]
    ensures SameView(old(cm.ctx), old(host.bitmaps)[edb], cm.ctx, host.bitmaps[edb])
    ensures IndexInv(cm.ctx, host.bitmaps[edb])
    ensures cm.ctx == WrittenOut(old(cm.ctx), word)
    ensures host.trace == old(host.trace) + [StoreBitmaps(1)]
    ensures Fresh(old(cm.ctx), old(host.bitmaps)[edb]) ==>
      Fresh(cm.ctx, host.bitmaps[edb]) && NoOverwrite(cm.ctx.K, old(host.bitmaps)[edb], host.bitmaps[edb])
  {
    hide Inv, Fresh, Pool, NoOverwrite, View, OutEntries, ApplyStores, SameView;
    ghost var c0 := cm.ctx;
    StoreBitmapBatch(cm, host, edb, [word]);
    BatchPool(c0, [word]);
    AllWrittenSnoc(c0, [word]);
    BatchStart(c0);
    assert [word][..0] == [];
  }

  /** A full cache that does not hold the whole index. */
  predicate Warm(c: ClientContext)
  {
    |c.CK| == c.ckMax && |c.KVS| > c.ckMax
  }

  /** The cache holds the word's new bitmap beside as many other entries as before; nothing is stored yet. */
  ghost predicate Prepared(c0: ClientContext, s: Store, c: ClientContext, word: Text, bits: Bitmap)
  {
    && IndexFrame(c0, c)
    && IndexInv(c, s)
    && ViewSet(c0, s, c, s, word, bits)
    && word in c.CK
    && (Fresh(c0, s) ==> Fresh(c, s))
    && |WordSet(c.words)| >= |WordSet(c0.words)|
    && |c.CK.Keys - {word}| == |c0.CK|
    && word in c.KVS && |c.KVS| == |c0.KVS|
    && c.dummyCount >= c0.dummyCount - 1
    && Fed(c0, c, {word}, 0)
  }

  /** A cached word: the loaded bitmap refills a companion entry, and the word's own bitmap is flipped. */
  method FlipCached(cm: ContextManager, host: Host, edb: int, bit: int, word: Text, add: bool)
    returns (found: bool, ghost draws: seq<nat>)
    requires edb in host.bitmaps && IndexInv(cm.ctx, host.bitmaps[edb])
    requires Real(word) && 0 <= bit < TOTAL_FILE_NO && word in cm.ctx.CK
    modifies cm`ctx, cm`tally, host`trace
    ensures cm.tally == if found then old(cm.tally) else Missed(old(cm.ctx), old(cm.tally))
    ensures !found ==> cm.ctx == old(cm.ctx) && host.trace == old(host.trace) && PickFailed(cm.ctx, draws)
    ensures found ==>
      && Prepared(old(cm.ctx), host.bitmaps[edb], cm.ctx, word,
                  SetBit(View(old(cm.ctx), host.bitmaps[edb], word), bit, add))
      && host.trace == old(host.trace) + [LoadBitmap]
  {
    hide Inv, Load, StoredAt, Fresh, Pool, Real, Dummyish, KeyOk;
    ghost var c0, s0 := cm.ctx, host.bitmaps[edb];
    InvFacts(c0, s0, word);
    RealNotDummy(word);
    ViewWithin(c0, s0, word);
    var wordIn: Text;
    found, wordIn, draws := PickRandomUncachedWord(cm);
    if !found {
      return;
    }
    InvFacts(c0, s0, wordIn);
    var bmIn := LoadBitmapFromStorage(cm, host, edb, wordIn, cm.ctx.KVS[wordIn]);
    FillKeeps(c0, s0, wordIn);
    FillFresh(c0, s0, wordIn, bmIn);
    cm.ctx := cm.ctx.(CK := cm.ctx.CK[wordIn := bmIn]);
    var bits := SetBit(cm.ctx.CK[word], bit, add);
    SetBitWithin(cm.ctx.CK[word], bit, add);
    CacheStep(cm.ctx, s0, word, bits);
    cm.ctx := cm.ctx.(CK := cm.ctx.CK[word := bits]);
    assert cm.ctx.CK.Keys - {word} == c0.CK.Keys - {word} + {wordIn};
  }

  /** A stored word that is not cached: its own bitmap is the one loaded. */
  method FlipStored(cm: ContextManager, host: Host, edb: int, bit: int, word: Text, add: bool)
    requires edb in host.bitmaps && IndexInv(cm.ctx, host.bitmaps[edb])
    requires Real(word) && 0 <= bit < TOTAL_FILE_NO && word in cm.ctx.KVS && word !in cm.ctx.CK
    modifies cm`ctx, host`trace
    ensures Prepared(old(cm.ctx), host.bitmaps[edb], cm.ctx, word,
                     SetBit(View(old(cm.ctx), host.bitmaps[edb], word), bit, add))
    ensures host.trace == old(host.trace) + [LoadBitmap]
  {
    hide Inv, Load, StoredAt, Fresh, Pool, Real, Dummyish, KeyOk;
    ghost var c0, s0 := cm.ctx, host.bitmaps[edb];
    InvFacts(c0, s0, word);
    ViewWithin(c0, s0, word);
    var bmIn := LoadBitmapFromStorage(cm, host, edb, word, cm.ctx.KVS[word]);
    var bits := SetBit(bmIn, bit, add);
    SetBitWithin(bmIn, bit, add);
    CacheStep(c0, s0, word, bits);
    cm.ctx := cm.ctx.(CK := cm.ctx.CK[word := bits]);
    assert cm.ctx.CK.Keys - {word} == c0.CK.Keys;
  }

  /** A new word: some placeholder is loaded, dropped from the index and replaced by the word. */
  method ReplaceDummy(cm: ContextManager, host: Host, edb: int, bit: int, word: Text, add: bool)
    requires edb in host.bitmaps && IndexInv(cm.ctx, host.bitmaps[edb])
    requires Real(word) && 0 <= bit < TOTAL_FILE_NO && word !in cm.ctx.KVS && word !in cm.ctx.CK
    requires cm.ctx.dummyCount > 0
    modifies cm`ctx, host`trace
    ensures Prepared(old(cm.ctx), host.bitmaps[edb], cm.ctx, word,
                     SetBit(View(old(cm.ctx), host.bitmaps[edb], word), bit, add))
    ensures host.trace == old(host.trace) + [LoadBitmap]
  {
    hide Inv, Load, StoredAt, Fresh, Pool, Real, Dummyish, KeyOk, DummyName, Without, Prepared, View;
    ghost var c0, s0 := cm.ctx, host.bitmaps[edb];
    InvFacts(c0, s0, word);
    ghost var i := DummyAvailable(c0);
    SetBitWithin({}, bit, add);
    var n: nat :| n < cm.ctx.dummySize && DummyName(n) in cm.ctx.KVS;
    var wordIn := DummyName(n);
    DummyNameStem(n);
    InvFacts(c0, s0, wordIn);
    var bmIn := LoadBitmapFromStorage(cm, host, edb, wordIn, cm.ctx.KVS[wordIn]);
    TakeSeat(c0, s0, n, word, SetBit({}, bit, add));
    AbsentView(c0, s0, word);
    cm.ctx := cm.ctx.(KVS := cm.ctx.KVS - {wordIn},
                      words := Without(cm.ctx.words, wordIn),
                      dummyCount := cm.ctx.dummyCount - 1);
    cm.ctx := cm.ctx.(CK := cm.ctx.CK[word := SetBit({}, bit, add)],
                      KVS := cm.ctx.KVS[word := 1],
                      words := cm.ctx.words + [word]);
  }

  lemma TakeSeat(c: ClientContext, s: Store, n: nat, word: Text, bits: Bitmap)
    requires IndexInv(c, s) && Real(word) && word !in c.KVS && word !in c.CK && DummyName(n) in c.KVS
    requires Within(bits, TOTAL_FILE_NO)
    ensures Prepared(c, s, Entered(Consumed(c, DummyName(n)), word, bits), word, bits)
  {
    hide IndexInv, Fresh, Pool, Real, DummyName, View, Consumed, Entered;
    var c1 := Consumed(c, DummyName(n));
    ConsumeStep(c, s, n);
    EnterStep(c1, s, word, bits);
    SeatSizes(c, s, DummyName(n), word, bits);
    SeatKeys(c, c1, Entered(c1, word, bits), word);
  }

  /** One placeholder less, one keyword more. */
  lemma SeatKeys(c: ClientContext, c1: ClientContext, c2: ClientContext, word: Text)
    requires RealKeys(c1) == RealKeys(c) && Fed(c1, c2, {word}, 0) && |RealKeys(c2)| == |RealKeys(c1)| + 1
    requires c2.dummyCount == c.dummyCount - 1
    ensures Fed(c, c2, {word}, 0)
  {
    hide RealKeys;
  }

  lemma SeatSizes(c: ClientContext, s: Store, d: Text, word: Text, bits: Bitmap)
    requires IndexInv(c, s) && word !in c.KVS && word !in c.CK && d in c.KVS
    ensures var c' := Entered(Consumed(c, d), word, bits);
            && IndexFrame(c, c') && word !in Consumed(c, d).KVS
            && word in c'.CK && |c'.CK.Keys - {word}| == |c.CK| && word in c'.KVS && |c'.KVS| == |c.KVS|
            && |WordSet(c'.words)| >= |WordSet(c.words)| && c'.dummyCount == c.dummyCount - 1
  {
    hide Inv, Pool, Without, WordSet;
    InvFacts(c, s, word);
    SeatTaken(c.words, d, word);
    SwapKey(c.KVS, d, word, 1);
    AddKey(c.CK, word, bits);
  }

  lemma SwapKey(m: map<Text, int>, d: Text, w: Text, v: int)
    requires d in m && w !in m
    ensures |(m - {d})[w := v]| == |m|
  {
    var m' := (m - {d})[w := v];
    assert m'.Keys == m.Keys - {d} + {w};
    assert |m'.Keys| == |m.Keys|;
  }

  lemma AddKey(m: map<Text, Bitmap>, w: Text, v: Bitmap)
    requires w !in m
    ensures |m[w := v].Keys - {w}| == |m|
  {
    assert m[w := v].Keys - {w} == m.Keys;
  }

  /**
   The round for a full cache, where one companion bitmap is loaded: a random uncached word, the
   word itself, or a placeholder that the new word replaces.
   */
  method SwapBit(cm: ContextManager, host: Host, edb: int, bit: int, word: Text, add: bool)
    returns (r: StepResult, ghost draws: seq<nat>)
    requires edb in host.bitmaps && IndexInv(cm.ctx, host.bitmaps[edb])
    requires Real(word) && 0 <= bit < TOTAL_FILE_NO && |cm.ctx.CK| > 0
    modifies cm`ctx, cm`tally, host`bitmaps, host`trace
    ensures edb in host.bitmaps && host.bitmaps == old(host.bitmaps)[edb := host.bitmaps[edb]]
    ensures cm.tally == if r.Skipped? then Missed(old(cm.ctx), old(cm.tally)) else old(cm.tally)
    ensures !r.Done? ==>
      cm.ctx == old(cm.ctx) && host.bitmaps == old(host.bitmaps) && host.trace == old(host.trace)
    ensures r.Skipped? ==> word in cm.ctx.CK && PickFailed(cm.ctx, draws)
    ensures r.NoCapacity? <==> word !in old(cm.ctx.KVS) && old(cm.ctx.dummyCount) <= 0
    ensures r.Done? ==>
      && ViewSet(old(cm.ctx), old(host.bitmaps)[edb], cm.ctx, host.bitmaps[edb], word,
                 SetBit(View(old(cm.ctx), old(host.bitmaps)[edb], word), bit, add))
      && RoundOk(old(cm.ctx), old(host.bitmaps)[edb], cm.ctx, host.bitmaps[edb], word)
      && |cm.ctx.CK| == |old(cm.ctx.CK)|
      && |cm.ctx.KVS| == |old(cm.ctx.KVS)|
      && host.trace == old(host.trace) + [LoadBitmap, StoreBitmaps(1)]
  {
    hide Inv, Load, View, StoredAt, Fresh, Pool, NoOverwrite, Real, Dummyish, KeyOk;
    ghost var c0, s0 := cm.ctx, host.bitmaps[edb];
    r, draws := Done, [];
    InvFacts(c0, s0, word);
    RealNotDummy(word);
    if word in cm.ctx.CK {
      var found, d := FlipCached(cm, host, edb, bit, word, add);
      if !found {
        r, draws := Skipped, d;
        return;
      }
    } else if word in cm.ctx.KVS {
      FlipStored(cm, host, edb, bit, word, add);
    } else if cm.ctx.dummyCount <= 0 {
      r := NoCapacity;
      return;
    } else {
      ReplaceDummy(cm, host, edb, bit, word, add);
    }
    ghost var c1 := cm.ctx;
    StoreWord(cm, host, edb, word);
    WrittenSize(c1, word);
    FedWritten(c0, c1, word, {word});
  }

  lemma WrittenSize(c: ClientContext, w: Text)
    requires w in c.CK
    ensures |WrittenOut(c, w).CK| == |c.CK.Keys - {w}|
    ensures |WrittenOut(c, w).KVS| >= |c.KVS|
    ensures w in c.KVS ==> WrittenOut(c, w).KVS.Keys == c.KVS.Keys && |WrittenOut(c, w).KVS| == |c.KVS|
  {
    assert WrittenOut(c, w).CK.Keys == c.CK.Keys - {w};
    assert WrittenOut(c, w).KVS.Keys == c.KVS.Keys + {w};
    SubsetSize(c.KVS.Keys, c.KVS.Keys + {w});
  }

  lemma RoundThenEvict(c0: ClientContext, s0: Store, c1: ClientContext, s1: Store, c2: ClientContext, s2: Store,
                       word: Text, bits: Bitmap)
    requires RoundOk(c0, s0, c1, s1, word) && ViewSet(c0, s0, c1, s1, word, bits)
    requires Inv(c2, s2) && Pool(c2) && SameView(c1, s1, c2, s2)
    requires c2 == c1.(CK := c2.CK, KVS := c2.KVS) && |c2.KVS| >= |c1.KVS| && RealKeys(c2) == RealKeys(c1)
    requires Fresh(c1, s1) ==> Fresh(c2, s2) && NoOverwrite(c2.K, s1, s2)
    ensures RoundOk(c0, s0, c2, s2, word) && ViewSet(c0, s0, c2, s2, word, bits)
  {
    hide Inv, Pool, Fresh, NoOverwrite, ViewSet, SameView, RealKeys, WordSet;
    SetThenSame(c0, s0, c1, s1, c2, s2, word, bits);
    if Fresh(c0, s0) && (|c0.CK| > 0 || word !in c0.KVS) {
      KeepsTrans(c0.K, s0, s1, s2);
    }
  }

  /** A round that starts from an empty cache. */
  method StartBit(cm: ContextManager, host: Host, edb: int, bit: int, word: Text, add: bool)
    requires edb in host.bitmaps && IndexInv(cm.ctx, host.bitmaps[edb])
    requires Real(word) && 0 <= bit < TOTAL_FILE_NO && |cm.ctx.CK| == 0
    modifies cm`ctx, host`bitmaps, host`trace
    ensures edb in host.bitmaps && host.bitmaps == old(host.bitmaps)[edb := host.bitmaps[edb]]
    ensures ViewSet(old(cm.ctx), old(host.bitmaps)[edb], cm.ctx, host.bitmaps[edb], word, SetBit({}, bit, add))
    ensures RoundOk(old(cm.ctx), old(host.bitmaps)[edb], cm.ctx, host.bitmaps[edb], word)
    ensures |cm.ctx.CK| == 0
  {
    hide Inv, Load, View, StoredAt, Fresh, Pool, NoOverwrite, Real, Dummyish, KeyOk;
    ghost var c0, s0 := cm.ctx, host.bitmaps[edb];
    var bits := SetBit({}, bit, add);
    SetBitWithin({}, bit, add);
    EnterStep(c0, s0, word, bits);
    cm.ctx := cm.ctx.(CK := cm.ctx.CK[word := bits],
                      KVS := cm.ctx.KVS[word := 1],
                      words := cm.ctx.words + [word]);
    ghost var c1 := cm.ctx;
    StoreWord(cm, host, edb, word);
    WrittenSize(c1, word);
    FedWritten(c0, c1, word, {word});
    assert c1.CK.Keys - {word} == {};
  }

  lemma KeysCold(c: ClientContext, c': ClientContext, word: Text)
    requires |c.CK| == 0 && |c'.CK| == 0 && c.ckMax >= 1
    ensures RoundKeys(c, c', word)
  {
    assert c'.CK.Keys == {} == c.CK.Keys - {word};
  }

  lemma KeysPut(c: ClientContext, c': ClientContext, word: Text)
    requires |c.CK| < c.ckMax || |c.KVS| == c.ckMax
    requires c'.CK.Keys == c.CK.Keys - {word} && c'.KVS.Keys == c.KVS.Keys + {word}
    ensures RoundKeys(c, c', word) && |c'.CK| <= |c.CK|
  {
    assert |c'.CK.Keys| <= |c.CK.Keys|;
  }

  lemma KeysSwapped(c: ClientContext, c': ClientContext, word: Text)
    requires |c.CK| >= c.ckMax != |c.KVS| && c'.ckMax == c.ckMax
    requires |c'.CK| == |c.CK| && |c'.KVS| == |c.KVS|
    ensures RoundKeys(c, c', word)
  {
  }

  lemma KeysEvicted(c: ClientContext, c1: ClientContext, c2: ClientContext, word: Text)
    requires RoundKeys(c, c1, word) && |c1.CK| <= |c.CK| && c1.ckMax == c.ckMax && (|c1.CK| <= c1.ckMax ==> c2 == c1)
    ensures RoundKeys(c, c2, word)
  {
  }

  /** The round for a cache at its bound that does not hold the whole index. */
  method SwapRound(cm: ContextManager, host: Host, edb: int, bit: int, word: Text, add: bool)
    returns (r: StepResult, ghost draws: seq<nat>)
    requires edb in host.bitmaps && IndexInv(cm.ctx, host.bitmaps[edb])
    requires Real(word) && 0 <= bit < TOTAL_FILE_NO && 0 < |cm.ctx.CK| && |cm.ctx.CK| >= cm.ctx.ckMax != |cm.ctx.KVS|
    modifies cm`ctx, cm`tally, host`bitmaps, host`trace
    ensures cm.tally == if r.Skipped? then Missed(old(cm.ctx), old(cm.tally)) else old(cm.tally)
    ensures edb in host.bitmaps && host.bitmaps == old(host.bitmaps)[edb := host.bitmaps[edb]]
    ensures !r.Done? ==>
      cm.ctx == old(cm.ctx) && host.bitmaps == old(host.bitmaps) && host.trace == old(host.trace)
    ensures r.Skipped? ==> word in cm.ctx.CK && PickFailed(cm.ctx, draws)
    ensures r.NoCapacity? <==> word !in old(cm.ctx.KVS) && old(cm.ctx.dummyCount) <= 0
    ensures r.Done? ==>
      && ViewSet(old(cm.ctx), old(host.bitmaps)[edb], cm.ctx, host.bitmaps[edb], word,
                 SetBit(View(old(cm.ctx), old(host.bitmaps)[edb], word), bit, add))
      && RoundOk(old(cm.ctx), old(host.bitmaps)[edb], cm.ctx, host.bitmaps[edb], word)
      && RoundKeys(old(cm.ctx), cm.ctx, word)
      && (|old(cm.ctx.CK)| == cm.ctx.ckMax ==>
            && |cm.ctx.CK| == cm.ctx.ckMax && |cm.ctx.KVS| == |old(cm.ctx.KVS)|
            && host.trace == old(host.trace) + [LoadBitmap, StoreBitmaps(1)])
  {
    hide Inv, Load, View, StoredAt, Fresh, Pool, NoOverwrite, Real, Dummyish, KeyOk, ViewSet, SameView, RealKeys,
         RoundKeys, Fed, WordSet, RoundOk, PickFailed, Missed, SetBit;
    ghost var c0, s0 := cm.ctx, host.bitmaps[edb];
    ghost var bits := SetBit(View(c0, s0, word), bit, add);
    r, draws := SwapBit(cm, host, edb, bit, word, add);
    if !r.Done? {
      return;
    }
    RoundGives(c0, s0, cm.ctx, host.bitmaps[edb], word);
    KeysSwapped(c0, cm.ctx, word);
    TrimAfter(cm, host, edb, word, bits, c0, s0);
  }

  /** The eviction that ends the round. */
  method TrimAfter(cm: ContextManager, host: Host, edb: int, word: Text,
                   ghost bits: Bitmap, ghost c0: ClientContext, ghost s0: Store)
    requires edb in host.bitmaps && RoundOk(c0, s0, cm.ctx, host.bitmaps[edb], word)
    requires ViewSet(c0, s0, cm.ctx, host.bitmaps[edb], word, bits)
    requires RoundKeys(c0, cm.ctx, word) && |cm.ctx.CK| <= |c0.CK|
    modifies cm`ctx, host`bitmaps, host`trace
    ensures edb in host.bitmaps && host.bitmaps == old(host.bitmaps)[edb := host.bitmaps[edb]]
    ensures RoundOk(c0, s0, cm.ctx, host.bitmaps[edb], word)
    ensures ViewSet(c0, s0, cm.ctx, host.bitmaps[edb], word, bits) && RoundKeys(c0, cm.ctx, word)
    ensures |old(cm.ctx.CK)| <= cm.ctx.ckMax ==> cm.ctx == old(cm.ctx) && host.trace == old(host.trace)
    ensures |cm.ctx.CK| <= cm.ctx.ckMax && cm.ctx.ckMax == old(cm.ctx.ckMax)
  {
    hide RoundOk, ViewSet, SameView, RoundKeys, Inv, Pool, Fresh, NoOverwrite, RealKeys;
    ghost var c1, s1 := cm.ctx, host.bitmaps[edb];
    RoundGives(c0, s0, c1, s1, word);
    EvictOverflow(cm, host, edb, word);
    SubsetSize(c1.KVS.Keys, cm.ctx.KVS.Keys);
    RoundThenEvict(c0, s0, c1, s1, cm.ctx, host.bitmaps[edb], word, bits);
    RoundGives(c0, s0, c1, s1, word);
    KeysEvicted(c0, c1, cm.ctx, word);
  }

  lemma RoundGives(c: ClientContext, s: Store, c': ClientContext, s': Store, word: Text)
    requires RoundOk(c, s, c', s', word)
    ensures IndexFrame(c, c') && Inv(c', s') && Pool(c') && c'.ckMax >= 1
    ensures c'.dummyCount >= c.dummyCount - 1 && |c'.KVS| >= |c.KVS|
  {
    hide Inv, Pool, Fresh, NoOverwrite, WordSet, Fed;
  }

  lemma KeysShrink(a: set<Text>, w: Text)
    ensures |a| - 1 <= |a - {w}| <= |a|
  {
  }

  /** One keyword's round of UpdateKeywords. */
  method UpdateKeyword(cm: ContextManager, host: Host, edb: int, bit: int, word: Text, add: bool)
    returns (r: StepResult, ghost draws: seq<nat>)
    requires edb in host.bitmaps && IndexInv(cm.ctx, host.bitmaps[edb])
    requires Real(word) && 0 <= bit < TOTAL_FILE_NO
    modifies cm`ctx, cm`tally, host`bitmaps, host`trace
    ensures cm.tally == RoundTally(old(cm.ctx), old(host.bitmaps)[edb], word, bit, r, old(cm.tally))
    ensures edb in host.bitmaps && host.bitmaps == old(host.bitmaps)[edb := host.bitmaps[edb]]
    ensures !r.Done? ==>
      cm.ctx == old(cm.ctx) && host.bitmaps == old(host.bitmaps) && host.trace == old(host.trace)
    ensures r.Skipped? ==> word in cm.ctx.CK && PickFailed(cm.ctx, draws)
    ensures r.NoCapacity? <==>
      && |old(cm.ctx.CK)| > 0 && |old(cm.ctx.CK)| >= cm.ctx.ckMax && |old(cm.ctx.KVS)| != cm.ctx.ckMax
      && word !in old(cm.ctx.KVS) && old(cm.ctx.dummyCount) <= 0
    ensures r.Done? ==>
      && ViewSet(old(cm.ctx), old(host.bitmaps)[edb], cm.ctx, host.bitmaps[edb], word,
                 BitmapAfter(old(cm.ctx), old(host.bitmaps)[edb], word, bit, add))
      && RoundOk(old(cm.ctx), old(host.bitmaps)[edb], cm.ctx, host.bitmaps[edb], word)
      && RoundKeys(old(cm.ctx), cm.ctx, word)
    ensures !r.Done? ==> |old(cm.ctx.CK)| >= cm.ctx.ckMax && |old(cm.ctx.KVS)| != cm.ctx.ckMax
    ensures IndexFrame(old(cm.ctx), cm.ctx) && cm.ctx.dummyCount >= old(cm.ctx.dummyCount) - 1
    ensures |old(cm.ctx.CK)| <= cm.ctx.ckMax ==> |old(cm.ctx.CK)| - 1 <= |cm.ctx.CK| <= cm.ctx.ckMax
    ensures |old(cm.ctx.CK)| == 0 ==> |cm.ctx.CK| == 0
    ensures Warm(old(cm.ctx)) ==> Warm(cm.ctx)
    ensures Warm(old(cm.ctx)) && r.Done? ==> host.trace == old(host.trace) + [LoadBitmap, StoreBitmaps(1)]
  {
    hide Inv, Load, View, StoredAt, Fresh, Pool, NoOverwrite, Real, Dummyish, KeyOk, ViewSet, SameView, RealKeys,
         RoundKeys, Fed, WordSet;
    ghost var c0, s0 := cm.ctx, host.bitmaps[edb];
    draws := [];
    if |cm.ctx.CK| == 0 {
      StartBit(cm, host, edb, bit, word, add);
      KeysCold(c0, cm.ctx, word);
      cm.tally := RoundTally(c0, s0, word, bit, Done, cm.tally);
      return Done, draws;
    }
    if |cm.ctx.CK| < cm.ctx.ckMax {
      PutBit(cm, host, edb, bit, word, add);
      KeysShrink(c0.CK.Keys, word);
      KeysPut(c0, cm.ctx, word);
      return Done, draws;
    }
    if |cm.ctx.KVS| == cm.ctx.ckMax {
      PutBit(cm, host, edb, bit, word, add);
      KeysShrink(c0.CK.Keys, word);
      KeysPut(c0, cm.ctx, word);
      TrimAfter(cm, host, edb, word, SetBit(View(c0, s0, word), bit, add), c0, s0);
      return Done, draws;
    }
    r, draws := SwapRound(cm, host, edb, bit, word, add);
  }

  /** The same bit is set or cleared in the view of every listed keyword, and of no other. */
  ghost predicate ViewsFlipped(c: ClientContext, s: Store, c': ClientContext, s': Store,
                               words: seq<Text>, bit: int, add: bool)
  {
    forall w :: View(c', s', w) == if w in words then SetBit(View(c, s, w), bit, add) else View(c, s, w)
  }

  /** The listed keywords start over with a fresh bitmap; no other view changes. */
  ghost predicate ViewsReset(c: ClientContext, s: Store, c': ClientContext, s': Store,
                             words: seq<Text>, bit: int, add: bool)
  {
    forall w :: View(c', s', w) == if w in words then SetBit({}, bit, add) else View(c, s, w)
  }

  /** Whatever the outcome, each view is either untouched or flipped, and only listed keywords are flipped. */
  ghost predicate ViewsPartly(c: ClientContext, s: Store, c': ClientContext, s': Store,
                              words: seq<Text>, bit: int, add: bool)
  {
    forall w :: View(c', s', w) == View(c, s, w)
             || (w in words && View(c', s', w) == SetBit(View(c, s, w), bit, add))
  }

  // ----- the same, bit by bit: one document's own bit, and everybody else's

  /** One document's bit is set or cleared for the listed keywords and as before for all others. */
  ghost predicate OwnFlipped(c: ClientContext, s: Store, c': ClientContext, s': Store,
                             words: seq<Text>, bit: int, add: bool)
  {
    forall w :: bit in View(c', s', w) <==> if w in words then add else bit in View(c, s, w)
  }

  ghost predicate OwnPartly(c: ClientContext, s: Store, c': ClientContext, s': Store,
                            words: seq<Text>, bit: int, add: bool)
  {
    forall w :: (bit in View(c', s', w) <==> bit in View(c, s, w)) || (w in words && (bit in View(c', s', w) <==> add))
  }

  /** No keyword gains another document. */
  ghost predicate NoneGained(c: ClientContext, s: Store, c': ClientContext, s': Store, bit: int)
  {
    forall w, k :: k != bit && k in View(c', s', w) ==> k in View(c, s, w)
  }

  ghost predicate OthersKept(c: ClientContext, s: Store, c': ClientContext, s': Store, bit: int)
  {
    forall w, k :: k != bit ==> (k in View(c', s', w) <==> k in View(c, s, w))
  }

  /** Some listed keyword has lost another document. */
  ghost predicate OthersLost(c: ClientContext, s: Store, c': ClientContext, s': Store, words: seq<Text>, bit: int)
  {
    exists w, k :: w in words && k != bit && k in View(c, s, w) && k !in View(c', s', w)
  }

  /** The tally tells exactly whether the bits of other documents are what they were. */
  ghost predicate Tallied(c: ClientContext, s: Store, t: Tally, c': ClientContext, s': Store, t': Tally,
                          words: seq<Text>, bit: int)
  {
    && NoneGained(c, s, c', s', bit)
    && t'.losses >= t.losses
    && (if t'.losses == t.losses then OthersKept(c, s, c', s', bit) else OthersLost(c, s, c', s', words, bit))
  }

  lemma TalliedTrans(c0: ClientContext, s0: Store, t0: Tally, c1: ClientContext, s1: Store, t1: Tally,
                     c2: ClientContext, s2: Store, t2: Tally, first: seq<Text>, second: seq<Text>, words: seq<Text>,
                     bit: int)
    requires Tallied(c0, s0, t0, c1, s1, t1, first, bit) && Tallied(c1, s1, t1, c2, s2, t2, second, bit)
    requires forall w :: w in first || w in second ==> w in words
    ensures Tallied(c0, s0, t0, c2, s2, t2, words, bit)
  {
    hide View;
    if t1.losses > t0.losses {
      var w, k :| w in first && k != bit && k in View(c0, s0, w) && k !in View(c1, s1, w);
      assert k !in View(c2, s2, w);
    } else if t2.losses > t1.losses {
      var w, k :| w in second && k != bit && k in View(c1, s1, w) && k !in View(c2, s2, w);
      assert k in View(c0, s0, w);
    }
  }

  lemma TalliedSame(c: ClientContext, s: Store, t: Tally, c': ClientContext, s': Store, t': Tally, words: seq<Text>,
                    bit: int)
    requires SameView(c, s, c', s') && t'.losses == t.losses
    ensures Tallied(c, s, t, c', s', t', words, bit)
  {
    hide View;
  }

  lemma OnlyBit(bits: Bitmap, bit: int)
    ensures bits <= {bit} || exists k :: k in bits && k != bit
  {
    if forall k :: k in bits ==> k == bit {
      assert bits <= {bit};
    }
  }

  lemma RoundTallied(c: ClientContext, s: Store, t: Tally, c': ClientContext, s': Store, word: Text, bit: int,
                     add: bool)
    requires ViewSet(c, s, c', s', word, BitmapAfter(c, s, word, bit, add))
    ensures Tallied(c, s, t, c', s', RoundTally(c, s, word, bit, Done, t), [word], bit)
  {
    hide View;
    if |c.CK| == 0 && !(View(c, s, word) <= {bit}) {
      OnlyBit(View(c, s, word), bit);
      var k :| k in View(c, s, word) && k != bit;
      assert word in [word] && k !in View(c', s', word);
    }
  }

  lemma SameBits(before: Bitmap, after: Bitmap, bit: int, add: bool)
    requires forall k :: k != bit ==> (k in after <==> k in before)
    ensures (bit in after <==> bit in before) ==> after == before
    ensures (bit in after <==> add) ==> after == SetBit(before, bit, add)
  {
    if bit in after <==> bit in before {
      forall k
        ensures k in after <==> k in before
      {
        assert k != bit ==> (k in after <==> k in before);
      }
    }
    if bit in after <==> add {
      forall k
        ensures k in after <==> k in SetBit(before, bit, add)
      {
        assert k != bit ==> (k in after <==> k in before);
      }
    }
  }

  /** Own bit and other bits together make up the views. */
  lemma FlippedByBits(c: ClientContext, s: Store, c': ClientContext, s': Store, words: seq<Text>, bit: int, add: bool)
    requires OthersKept(c, s, c', s', bit)
    ensures OwnFlipped(c, s, c', s', words, bit, add) ==> ViewsFlipped(c, s, c', s', words, bit, add)
    ensures OwnPartly(c, s, c', s', words, bit, add) ==> ViewsPartly(c, s, c', s', words, bit, add)
  {
    hide View;
    forall w
      ensures (bit in View(c', s', w) <==> bit in View(c, s, w)) ==> View(c', s', w) == View(c, s, w)
      ensures (bit in View(c', s', w) <==> add) ==> View(c', s', w) == SetBit(View(c, s, w), bit, add)
    {
      SameBits(View(c, s, w), View(c', s', w), bit, add);
    }
  }

  /** A round shrinks the cache by at most one, so these caches cannot run empty within n rounds. */
  predicate NeverCold(c: ClientContext, n: nat)
  {
    Warm(c) || |c.CK| >= n
  }

  datatype UpdateOutcome = Completed | InvalidId | SomeSkipped | OutOfCapacity

  /** What any number of rounds keeps. */
  ghost predicate RoundsOk(c: ClientContext, s: Store, t: Tally, c': ClientContext, s': Store, t': Tally)
  {
    && IndexFrame(c, c')
    && IndexInv(c', s')
    && (Fresh(c, s) && t'.rewinds == t.rewinds ==> Fresh(c', s') && NoOverwrite(c.K, s, s'))
    && |WordSet(c'.words)| >= |WordSet(c.words)|
    && |c'.KVS| >= |c.KVS|
    && |c'.CK| <= c'.ckMax
    && (Warm(c) ==> Warm(c'))
    && Grew(t, t') && (Companions(c) ==> t'.barren == t.barren)
  }

  lemma OwnOneMore(c0: ClientContext, s0: Store, c1: ClientContext, s1: Store, c2: ClientContext, s2: Store,
                   words: seq<Text>, word: Text, bit: int, add: bool)
    requires OwnFlipped(c0, s0, c1, s1, words, bit, add)
    requires ViewSet(c1, s1, c2, s2, word, BitmapAfter(c1, s1, word, bit, add))
    ensures OwnFlipped(c0, s0, c2, s2, words + [word], bit, add)
  {
    hide View;
  }

  lemma ResetOneMore(c0: ClientContext, s0: Store, c1: ClientContext, s1: Store, c2: ClientContext, s2: Store,
                     words: seq<Text>, word: Text, bit: int, add: bool)
    requires ViewsReset(c0, s0, c1, s1, words, bit, add)
    requires ViewSet(c1, s1, c2, s2, word, SetBit({}, bit, add))
    ensures ViewsReset(c0, s0, c2, s2, words + [word], bit, add)
  {
    hide View;
  }

  lemma PartlyOneMore(c0: ClientContext, s0: Store, c1: ClientContext, s1: Store, c2: ClientContext, s2: Store,
                      all: seq<Text>, word: Text, bit: int, add: bool)
    requires OwnPartly(c0, s0, c1, s1, all, bit, add) && word in all
    requires ViewSet(c1, s1, c2, s2, word, BitmapAfter(c1, s1, word, bit, add))
    ensures OwnPartly(c0, s0, c2, s2, all, bit, add)
  {
    hide View;
  }

  lemma RoundsOneMore(c0: ClientContext, s0: Store, t0: Tally, c1: ClientContext, s1: Store, t1: Tally,
                      c2: ClientContext, s2: Store, t2: Tally, word: Text, bit: int)
    requires RoundsOk(c0, s0, t0, c1, s1, t1) && RoundOk(c1, s1, c2, s2, word)
    requires |c2.CK| <= c2.ckMax && (Warm(c1) ==> Warm(c2)) && t2 == RoundTally(c1, s1, word, bit, Done, t1)
    ensures RoundsOk(c0, s0, t0, c2, s2, t2)
  {
    hide IndexInv, Fresh, NoOverwrite, WordSet, View, Fed, RealKeys;
    if t2.rewinds == t0.rewinds && Fresh(c0, s0) {
      KeepsTrans(c0.K, s0, s1, s2);
    }
  }

  // ----- foreseeing which rounds drop another document's bit

  /** What the first i rounds do to cached words and placeholders, and when they drop another document's bit. */
  ghost predicate Course(c0: ClientContext, s0: Store, t0: Tally, c: ClientContext, t: Tally, words: seq<Text>, i: nat,
                         bit: int)
    requires i <= |words|
  {
    && Track(c0, c, words[..i]) && Fed(c0, c, WordSet(words), 0)
    && (t.losses == t0.losses <==> !LossAhead(c0, s0, c0.KVS.Keys, words[..i], bit))
  }

  lemma CourseStart(c: ClientContext, s: Store, t: Tally, words: seq<Text>, bit: int)
    requires |c.CK| <= c.ckMax
    ensures Course(c, s, t, c, t, words, 0, bit)
  {
    hide View, RunsCold, Steadfast, RealKeys;
    TrackStart(c);
    assert words[..0] == [];
    FedSame(c, c, 0);
    FedMore(c, c, {}, WordSet(words), 0);
  }

  lemma LossOneMore(c: ClientContext, s: Store, known: set<Text>, words: seq<Text>, i: nat, bit: int)
    requires i < |words|
    ensures LossAhead(c, s, known, words[..i + 1], bit) <==>
      LossAhead(c, s, known, words[..i], bit) || LossAt(c, s, known, words, i, bit)
  {
    hide LossAt;
    var a, b := words[..i], words[..i + 1];
    forall j | 0 <= j < i
      ensures LossAt(c, s, known, a, j, bit) <==> LossAt(c, s, known, b, j, bit)
    {
      LossAtSame(c, s, known, a, b, j, bit);
    }
    LossAtSame(c, s, known, b, words, i, bit);
  }

  lemma LossAtSame(c: ClientContext, s: Store, known: set<Text>, a: seq<Text>, b: seq<Text>, j: nat, bit: int)
    requires j < |a| && j < |b| && forall k :: 0 <= k <= j ==> a[k] == b[k]
    ensures LossAt(c, s, known, a, j, bit) <==> LossAt(c, s, known, b, j, bit)
  {
    assert a[..j] == b[..j];
  }

  lemma CourseDone(c0: ClientContext, s0: Store, t0: Tally, c1: ClientContext, s1: Store, t1: Tally,
                   c2: ClientContext, s2: Store, t2: Tally, words: seq<Text>, i: nat, bit: int)
    requires i < |words| && Course(c0, s0, t0, c1, t1, words, i, bit) && Tallied(c0, s0, t0, c1, s1, t1, words, bit)
    requires RoundOk(c1, s1, c2, s2, words[i]) && RoundKeys(c1, c2, words[i]) && c0.ckMax >= 1
    requires t2 == RoundTally(c1, s1, words[i], bit, Done, t1)
    ensures Course(c0, s0, t0, c2, t2, words, i + 1, bit)
  {
    hide View, RunsCold, Track, RoundKeys, Fed, LossAhead, IndexInv, Fresh, NoOverwrite, WordSet, NoneGained,
         OthersLost;
    var word := words[i];
    assert words[..i + 1] == words[..i] + [word];
    TrackStep(c0, c1, c2, words[..i], word);
    ColdIsEmpty(c0, c1, words[..i]);
    LossOneMore(c0, s0, c0.KVS.Keys, words, i, bit);
    ListedFed(c0, c1, c2, words, i);
    if t1.losses == t0.losses {
      SameOthers(View(c0, s0, word), View(c1, s1, word), bit);
    }
  }

  lemma ListedFed(c0: ClientContext, c1: ClientContext, c2: ClientContext, words: seq<Text>, i: nat)
    requires i < |words| && Fed(c0, c1, WordSet(words), 0) && Fed(c1, c2, {words[i]}, 0)
    ensures Fed(c0, c2, WordSet(words), 0)
  {
    hide Fed;
    FedTrans(c0, c1, c2, WordSet(words), {words[i]}, 0, 0);
    assert WordSet(words) + {words[i]} == WordSet(words);
  }

  lemma SameOthers(before: Bitmap, after: Bitmap, bit: int)
    requires forall k :: k != bit ==> (k in after <==> k in before)
    ensures after <= {bit} <==> before <= {bit}
  {
    OnlyBit(before, bit);
    OnlyBit(after, bit);
  }

  /** A skipped or refused round loses nothing, and neither would any later one. */
  lemma CourseStuck(c0: ClientContext, s0: Store, t0: Tally, c: ClientContext, t: Tally, t': Tally,
                    words: seq<Text>, i: nat, n: nat, bit: int)
    requires i <= n <= |words| && Course(c0, s0, t0, c, t, words, i, bit) && |c.CK| >= c.ckMax != |c.KVS|
    requires t'.losses == t.losses
    ensures Course(c0, s0, t0, c, t', words, n, bit)
  {
    hide View, Track, Fed, Steadfast, WordSet;
    var known := c0.KVS.Keys;
    assert words[..n] == words[..i] + words[i..n];
    TrackStuck(c0, c, words[..i], words[i..n]);
    forall j | 0 <= j < n
      ensures LossAt(c0, s0, known, words[..n], j, bit) <==> j < i && LossAt(c0, s0, known, words[..i], j, bit)
    {
      assert words[..n][..j] == words[..j];
      if j < i {
        assert words[..i][..j] == words[..j];
      } else {
        assert words[..j] == words[..i] + words[i..j];
        SteadfastMore(c0.CK.Keys, known, c0.ckMax, words[..i], words[i..j]);
      }
    }
    hide LossAt;
  }

  /** What two lists of words do one after the other is what they do as one. */
  lemma LossJoins(c0: ClientContext, s0: Store, t0: Tally, c1: ClientContext, s1: Store, t1: Tally, t2: Tally,
                  first: seq<Text>, second: seq<Text>, bit: int)
    requires Track(c0, c1, first) && Tallied(c0, s0, t0, c1, s1, t1, first, bit) && t2.losses >= t1.losses
    requires t1.losses == t0.losses <==> !LossAhead(c0, s0, c0.KVS.Keys, first, bit)
    requires t2.losses == t1.losses <==> !LossAhead(c1, s1, c1.KVS.Keys, second, bit)
    ensures t2.losses == t0.losses <==> !LossAhead(c0, s0, c0.KVS.Keys, first + second, bit)
  {
    hide LossAt, NoneGained, OthersLost, Track;
    var known, all, n := c0.KVS.Keys, first + second, |first|;
    forall j | 0 <= j < n
      ensures LossAt(c0, s0, known, first, j, bit) <==> LossAt(c0, s0, known, all, j, bit)
    {
      LossAtSame(c0, s0, known, first, all, j, bit);
    }
    if t1.losses == t0.losses {
      forall j | 0 <= j < |second|
        ensures LossAt(c1, s1, c1.KVS.Keys, second, j, bit) <==> LossAt(c0, s0, known, all, n + j, bit)
      {
        LossAtJoined(c0, s0, c1, s1, first, second, j, bit);
      }
      assert forall j :: n <= j < |all| && LossAt(c0, s0, known, all, j, bit) ==>
        LossAt(c1, s1, c1.KVS.Keys, second, j - n, bit);
    }
  }

  lemma LossAtJoined(c0: ClientContext, s0: Store, c1: ClientContext, s1: Store,
                     first: seq<Text>, second: seq<Text>, j: nat, bit: int)
    requires Track(c0, c1, first) && OthersKept(c0, s0, c1, s1, bit) && j < |second|
    ensures LossAt(c1, s1, c1.KVS.Keys, second, j, bit)
       <==> LossAt(c0, s0, c0.KVS.Keys, first + second, |first| + j, bit)
  {
    hide View, Track, RunsCold;
    var all := first + second;
    assert all[..|first| + j] == first + second[..j];
    assert all[|first| + j] == second[j];
    TrackCold(c0, c1, first, second[..j]);
    SameOthers(View(c0, s0, second[j]), View(c1, s1, second[j]), bit);
  }

  /** Once the cache is full for good, longer lists lose no more. */
  lemma LossStuck(c0: ClientContext, s0: Store, c: ClientContext, first: seq<Text>, second: seq<Text>, bit: int)
    requires Track(c0, c, first) && |c.CK| >= c.ckMax != |c.KVS|
    ensures LossAhead(c0, s0, c0.KVS.Keys, first + second, bit) <==> LossAhead(c0, s0, c0.KVS.Keys, first, bit)
  {
    hide View, Track, Steadfast, WordSet;
    var known, all, n := c0.KVS.Keys, first + second, |first|;
    TrackStuck(c0, c, first, second);
    forall j | 0 <= j < |all|
      ensures LossAt(c0, s0, known, all, j, bit) <==> j < n && LossAt(c0, s0, known, first, j, bit)
    {
      if j < n {
        LossAtSame(c0, s0, known, first, all, j, bit);
      } else {
        assert all[..j] == first + second[..j - n];
        SteadfastMore(c0.CK.Keys, known, c0.ckMax, first, second[..j - n]);
      }
    }
    hide LossAt;
  }

  /** Only the cached words, the bound and the views matter. */
  lemma LossElsewhere(c: ClientContext, s: Store, c': ClientContext, s': Store, known: set<Text>, words: seq<Text>,
                      bit: int)
    requires c'.CK == c.CK && c'.ckMax == c.ckMax && SameView(c, s, c', s')
    ensures LossAhead(c, s, known, words, bit) <==> LossAhead(c', s', known, words, bit)
  {
    hide View, RunsCold;
    forall j | 0 <= j < |words|
      ensures LossAt(c, s, known, words, j, bit) <==> LossAt(c', s', known, words, j, bit)
    {
    }
    hide LossAt;
  }

  /** What holds when the first i of the listed keywords have had their round. */
  ghost predicate Progress(c0: ClientContext, s0: Store, t0: Tally, c: ClientContext, s: Store, t: Tally,
                           words: seq<Text>, i: nat, bit: int, add: bool, outcome: UpdateOutcome)
    requires i <= |words|
  {
    && RoundsOk(c0, s0, t0, c, s, t)
    && Tallied(c0, s0, t0, c, s, t, words, bit)
    && (outcome.Completed? ==> OwnFlipped(c0, s0, c, s, words[..i], bit, add))
    && OwnPartly(c0, s0, c, s, words, bit, add)
    && (NeverCold(c0, |words|) ==> NeverCold(c, |words| - i) && t.losses == t0.losses && t.rewinds == t0.rewinds)
    && (|c0.CK| == 0 ==>
      outcome.Completed? && |c.CK| == 0 && ViewsReset(c0, s0, c, s, words[..i], bit, add))
    && (if outcome.Completed? then t.misses == t0.misses else t.misses > t0.misses)
    && c.dummyCount >= c0.dummyCount - i
    && |c.CK| >= |c0.CK| - i
  }

  lemma ProgressStart(c: ClientContext, s: Store, t: Tally, words: seq<Text>, bit: int, add: bool)
    requires IndexInv(c, s) && |c.CK| <= c.ckMax
    ensures Progress(c, s, t, c, s, t, words, 0, bit, add, Completed)
  {
    hide View, Inv, Pool, BitmapLabel, Real;
  }

  lemma ProgressDone(c0: ClientContext, s0: Store, t0: Tally, c1: ClientContext, s1: Store, t1: Tally,
                     c2: ClientContext, s2: Store, t2: Tally,
                     words: seq<Text>, i: nat, bit: int, add: bool, outcome: UpdateOutcome)
    requires i < |words| && Progress(c0, s0, t0, c1, s1, t1, words, i, bit, add, outcome)
    requires ViewSet(c1, s1, c2, s2, words[i], BitmapAfter(c1, s1, words[i], bit, add))
    requires RoundOk(c1, s1, c2, s2, words[i]) && t2 == RoundTally(c1, s1, words[i], bit, Done, t1)
    requires |c1.CK| - 1 <= |c2.CK| <= c2.ckMax && (Warm(c1) ==> Warm(c2)) && (|c1.CK| == 0 ==> |c2.CK| == 0)
    ensures Progress(c0, s0, t0, c2, s2, t2, words, i + 1, bit, add, outcome)
  {
    hide Inv, Pool, Fresh, View, WordSet, Real, NoOverwrite, OwnFlipped, OwnPartly, ViewsReset, ViewSet, Tallied;
    var word := words[i];
    assert words[..i + 1] == words[..i] + [word];
    RoundsOneMore(c0, s0, t0, c1, s1, t1, c2, s2, t2, word, bit);
    RoundTallied(c1, s1, t1, c2, s2, word, bit, add);
    TalliedTrans(c0, s0, t0, c1, s1, t1, c2, s2, t2, words, [word], words, bit);
    PartlyOneMore(c0, s0, c1, s1, c2, s2, words, word, bit, add);
    if outcome.Completed? {
      OwnOneMore(c0, s0, c1, s1, c2, s2, words[..i], word, bit, add);
    }
    if |c0.CK| == 0 {
      ResetOneMore(c0, s0, c1, s1, c2, s2, words[..i], word, bit, add);
    }
  }

  lemma ProgressSkipped(c0: ClientContext, s0: Store, t0: Tally, c1: ClientContext, s1: Store, t1: Tally,
                        words: seq<Text>, i: nat, bit: int, add: bool, outcome: UpdateOutcome)
    requires i < |words| && Progress(c0, s0, t0, c1, s1, t1, words, i, bit, add, outcome) && |c1.CK| > 0
    ensures Progress(c0, s0, t0, c1, s1, Missed(c1, t1), words, i + 1, bit, add, SomeSkipped)
  {
    hide ViewsReset, OwnPartly, OwnFlipped, IndexInv, Fresh, NoOverwrite, OthersKept, OthersLost, NoneGained;
    if Companions(c0) {
      CompanionsNotBarren(c1, t1);
    }
  }

  lemma ProgressGives(c0: ClientContext, s0: Store, t0: Tally, c1: ClientContext, s1: Store, t1: Tally,
                      words: seq<Text>, i: nat, bit: int, add: bool, outcome: UpdateOutcome)
    requires i <= |words| && Progress(c0, s0, t0, c1, s1, t1, words, i, bit, add, outcome)
    ensures IndexInv(c1, s1) && |c1.CK| <= c1.ckMax && IndexFrame(c0, c1)
    ensures c1.dummyCount >= c0.dummyCount - i && c0.ckMax >= 1 && Tallied(c0, s0, t0, c1, s1, t1, words, bit)
    ensures |c0.CK| == 0 ==> outcome.Completed? && |c1.CK| == 0
  {
    hide Inv, Pool, Fresh, OwnFlipped, OwnPartly, ViewsReset, Tallied;
  }

  lemma ProgressEnds(c0: ClientContext, s0: Store, t0: Tally, c1: ClientContext, s1: Store, t1: Tally,
                     words: seq<Text>, i: nat, bit: int, add: bool, outcome: UpdateOutcome)
    requires i <= |words| && Progress(c0, s0, t0, c1, s1, t1, words, i, bit, add, outcome)
    ensures RoundsOk(c0, s0, t0, c1, s1, t1) && Tallied(c0, s0, t0, c1, s1, t1, words, bit)
    ensures outcome.Completed? && i == |words| ==> OwnFlipped(c0, s0, c1, s1, words, bit, add)
    ensures t1.losses == t0.losses ==>
      && ViewsPartly(c0, s0, c1, s1, words, bit, add)
      && (outcome.Completed? && i == |words| ==> ViewsFlipped(c0, s0, c1, s1, words, bit, add))
    ensures NeverCold(c0, |words|) ==> t1.losses == t0.losses && t1.rewinds == t0.rewinds
    ensures |c0.CK| == 0 && i == |words| ==> ViewsReset(c0, s0, c1, s1, words, bit, add)
    ensures |c0.CK| == 0 ==> outcome.Completed? && |c1.CK| == 0
    ensures if outcome.Completed? then t1.misses == t0.misses else t1.misses > t0.misses
    ensures c1.dummyCount >= c0.dummyCount - i && |c1.CK| >= |c0.CK| - i
  {
    hide RoundsOk, OwnFlipped, OwnPartly, ViewsReset, ViewsFlipped, ViewsPartly, NoneGained, OthersKept, OthersLost;
    assert i == |words| ==> words[..i] == words;
    if t1.losses == t0.losses {
      FlippedByBits(c0, s0, c1, s1, words, bit, add);
    }
  }

  /**
   UpdateKeywords, from any cache. The document's own bit is right in every keyword once all rounds are
   done; the bits of other documents are untouched exactly if the tally of losses is.
   */
  method UpdateKeywords(cm: ContextManager, host: Host, edb: int, docId: Text, content: Text, add: bool)
    returns (outcome: UpdateOutcome)
    requires edb in host.bitmaps && IndexInv(cm.ctx, host.bitmaps[edb]) && |cm.ctx.CK| <= cm.ctx.ckMax
    requires forall w :: w in TokensOf(content) ==> Real(w)
    modifies cm`ctx, cm`tally, host`bitmaps, host`trace
    ensures edb in host.bitmaps && host.bitmaps == old(host.bitmaps)[edb := host.bitmaps[edb]]
    ensures outcome.InvalidId? <==> !(0 < Atoi(docId) <= TOTAL_FILE_NO)
    ensures outcome.InvalidId? ==>
      cm.ctx == old(cm.ctx) && host.bitmaps == old(host.bitmaps) && cm.tally == old(cm.tally)
    ensures RoundsOk(old(cm.ctx), old(host.bitmaps)[edb], old(cm.tally), cm.ctx, host.bitmaps[edb], cm.tally)
    ensures Tallied(old(cm.ctx), old(host.bitmaps)[edb], old(cm.tally), cm.ctx, host.bitmaps[edb], cm.tally,
                    TokensOf(content), Atoi(docId) - 1)
    ensures outcome.Completed? ==>
      OwnFlipped(old(cm.ctx), old(host.bitmaps)[edb], cm.ctx, host.bitmaps[edb], TokensOf(content), Atoi(docId) - 1,
                 add)
    ensures !outcome.InvalidId? ==>
      && Track(old(cm.ctx), cm.ctx, TokensOf(content))
      && (cm.tally.losses == old(cm.tally.losses) <==>
            !LossAhead(old(cm.ctx), old(host.bitmaps)[edb], old(cm.ctx.KVS).Keys, TokensOf(content), Atoi(docId) - 1))
    ensures Fed(old(cm.ctx), cm.ctx, WordSet(TokensOf(content)), 0)
    ensures outcome.OutOfCapacity? ==>
      Hungry(cm.ctx, WordSet(TokensOf(content))) && |cm.ctx.CK| >= cm.ctx.ckMax != |cm.ctx.KVS|
    ensures cm.tally.losses == old(cm.tally.losses) ==>
      ViewsPartly(old(cm.ctx), old(host.bitmaps)[edb], cm.ctx, host.bitmaps[edb],
                  TokensOf(content), Atoi(docId) - 1, add)
    ensures cm.tally.losses == old(cm.tally.losses) && outcome.Completed? ==>
      ViewsFlipped(old(cm.ctx), old(host.bitmaps)[edb], cm.ctx, host.bitmaps[edb],
                   TokensOf(content), Atoi(docId) - 1, add)
    ensures NeverCold(old(cm.ctx), |TokensOf(content)|) ==>
      cm.tally.losses == old(cm.tally.losses) && cm.tally.rewinds == old(cm.tally.rewinds)
    ensures |old(cm.ctx.CK)| == 0 && !outcome.InvalidId? ==>
      && outcome.Completed?
      && |cm.ctx.CK| == 0
      && ViewsReset(old(cm.ctx), old(host.bitmaps)[edb], cm.ctx, host.bitmaps[edb],
                    TokensOf(content), Atoi(docId) - 1, add)
    ensures outcome.Completed? ==> cm.tally.misses == old(cm.tally.misses)
    ensures outcome.SomeSkipped? ==> cm.tally.misses > old(cm.tally.misses)
    ensures outcome.OutOfCapacity? ==> cm.ctx.dummyCount <= 0 && old(cm.ctx.dummyCount) < |TokensOf(content)|
    ensures cm.ctx.dummyCount >= old(cm.ctx.dummyCount) - |TokensOf(content)|
    ensures |cm.ctx.CK| >= |old(cm.ctx.CK)| - |TokensOf(content)|
  {
    hide Inv, View, Fresh, Pool, NoOverwrite, Real, Dummyish, ViewSet, OwnFlipped, ViewsFlipped, ViewsPartly,
         ViewsReset, Tallied;
    hide RoundOk, RoundsOk, RoundKeys, RoundTally, Missed, Progress, IndexInv, Bytes.Atoi, TokensOf, NeverCold, Course,
         Track, LossAhead, Fed, Hungry, WordSet;
    ghost var c0, s0, t0 := cm.ctx, host.bitmaps[edb], cm.tally;
    ghost var tokens := TokensOf(content);
    ProgressStart(c0, s0, t0, tokens, Atoi(docId) - 1, add);
    CourseStart(c0, s0, t0, tokens, Atoi(docId) - 1);
    var wordList := WordTokenize(content);
    var idInt := Atoi(docId);
    if idInt <= 0 || idInt > TOTAL_FILE_NO {
      ProgressEnds(c0, s0, t0, cm.ctx, host.bitmaps[edb], cm.tally, tokens, 0, idInt - 1, add, Completed);
      CourseEnds(c0, s0, t0, cm.ctx, cm.tally, tokens, 0, idInt - 1);
      return InvalidId;
    }
    outcome := Completed;
    var i := 0;
    while i < |wordList|
      invariant 0 <= i <= |wordList|
      invariant outcome.Completed? || outcome.SomeSkipped?
      invariant edb in host.bitmaps && host.bitmaps == old(host.bitmaps)[edb := host.bitmaps[edb]]
      invariant Progress(c0, s0, t0, cm.ctx, host.bitmaps[edb], cm.tally, wordList, i, idInt - 1, add, outcome)
      invariant Course(c0, s0, t0, cm.ctx, cm.tally, wordList, i, idInt - 1)
    {
      ghost var c1, s1, t1 := cm.ctx, host.bitmaps[edb], cm.tally;
      ProgressGives(c0, s0, t0, c1, s1, t1, wordList, i, idInt - 1, add, outcome);
      var r, draws := UpdateKeyword(cm, host, edb, idInt - 1, wordList[i], add);
      RoundTallies(c1, s1, wordList[i], idInt - 1, r, t1);
      match r {
        case Done =>
          ProgressDone(c0, s0, t0, c1, s1, t1, cm.ctx, host.bitmaps[edb], cm.tally, wordList, i, idInt - 1, add,
                       outcome);
          CourseDone(c0, s0, t0, c1, s1, t1, cm.ctx, host.bitmaps[edb], cm.tally, wordList, i, idInt - 1);
        case Skipped =>
          ProgressSkipped(c0, s0, t0, c1, s1, t1, wordList, i, idInt - 1, add, outcome);
          CourseStuck(c0, s0, t0, c1, t1, cm.tally, wordList, i, i + 1, idInt - 1);
          outcome := SomeSkipped;
        case NoCapacity =>
          ProgressEnds(c0, s0, t0, c1, s1, t1, wordList, i, idInt - 1, add, outcome);
          CourseStuck(c0, s0, t0, c1, t1, t1, wordList, i, |wordList|, idInt - 1);
          CourseEnds(c0, s0, t0, c1, t1, wordList, |wordList|, idInt - 1);
          StillHungry(c1, wordList, i);
          return OutOfCapacity;
      }
      i := i + 1;
    }
    ProgressEnds(c0, s0, t0, cm.ctx, host.bitmaps[edb], cm.tally, wordList, i, idInt - 1, add, outcome);
    CourseEnds(c0, s0, t0, cm.ctx, cm.tally, wordList, i, idInt - 1);
  }

  lemma StillHungry(c: ClientContext, words: seq<Text>, i: nat)
    requires i < |words| && c.dummyCount <= 0 && Real(words[i]) && words[i] !in c.KVS
    ensures Hungry(c, WordSet(words))
  {
    hide Real;
  }

  lemma CourseEnds(c0: ClientContext, s0: Store, t0: Tally, c: ClientContext, t: Tally, words: seq<Text>, i: nat,
                   bit: int)
    requires i <= |words| && Course(c0, s0, t0, c, t, words, i, bit)
    ensures Fed(c0, c, WordSet(words), 0)
    ensures i == |words| ==>
      Track(c0, c, words) && (t.losses == t0.losses <==> !LossAhead(c0, s0, c0.KVS.Keys, words, bit))
  {
    hide Track, LossAhead, Fed, WordSet;
    assert i == |words| ==> words[..i] == words;
  }

  lemma RoundTallies(c: ClientContext, s: Store, word: Text, bit: int, r: StepResult, t: Tally)
    ensures r.Skipped? ==> RoundTally(c, s, word, bit, r, t) == Missed(c, t) && Missed(c, t).losses == t.losses
    ensures r.NoCapacity? && |c.CK| > 0 ==> RoundTally(c, s, word, bit, r, t) == t
  {
  }

  /**
   From an empty cache, one keyword's update agrees with setting a single bit exactly when no other
   document is filed under the keyword.
   */
  lemma ColdUpdateAgrees(before: Bitmap, bit: int, add: bool)
    ensures SetBit({}, bit, add) == SetBit(before, bit, add) <==> before <= {bit}
  {
    if SetBit({}, bit, add) == SetBit(before, bit, add) {
      forall k | k in before
        ensures k == bit
      {
        assert k != bit ==> k in SetBit(before, bit, add);
      }
    }
  }
}
