/** Search and UpdateKeywords over the cached index, with the batch store and the random picks they use. */
module KeywordIndex {
  import opened Bytes
  import opened BitPack
  import opened Labels
  import opened Context
  import opened IndexModel

  /** load_bitmap_from_storage */
  method LoadBitmapFromStorage(cm: ContextManager, host: Host, edb: int, word: Text, version: int)
    returns (bits: Bitmap)
    requires edb in host.bitmaps && StoredAt(cm.ctx.K, host.bitmaps[edb], word, version)
    modifies host`trace
    ensures bits == Load(cm.ctx.K, host.bitmaps[edb], word, version)
    ensures host.trace == old(host.trace) + [LoadBitmap]
  {
    hide BitmapLabel, BitmapKey;
    var c := host.LoadBitmapEntry(edb, BitmapLabel(cm.ctx.K, word, version));
    bits := DecryptBitmap(c, BitmapKey(cm.ctx.K, word, version));
  }

  /** The loop of store_bitmap_batch: version, encrypt and uncache each word in turn. */
  method SealWords(cm: ContextManager, words: seq<Text>) returns (outs: seq<(Label, Cipher)>)
    requires Batchable(cm.ctx, words)
    modifies cm`ctx
    ensures cm.ctx == AllWritten(old(cm.ctx), words)
    ensures outs == OutEntries(old(cm.ctx), words)
  {
    hide BitmapLabel, BitmapKey, EncryptBitmap, AllWritten, OutEntries, Batchable;
    ghost var c0 := cm.ctx;
    outs := [];
    var i := 0;
    BatchStart(c0);
    while i < |words|
      invariant 0 <= i <= |words|
      invariant Batchable(c0, words[..i])
      invariant cm.ctx == AllWritten(c0, words[..i])
      invariant outs == OutEntries(c0, words[..i])
    {
      var word := words[i];
      BatchExtend(c0, words, i);
      var nextVersion := (if word in cm.ctx.KVS then cm.ctx.KVS[word] else 0) + 1;
      outs := outs + [(BitmapLabel(cm.ctx.K, word, nextVersion),
                       EncryptBitmap(cm.ctx.CK[word], BitmapKey(cm.ctx.K, word, nextVersion)))];
      cm.ctx := cm.ctx.(KVS := cm.ctx.KVS[word := nextVersion], CK := cm.ctx.CK - {word});
      i := i + 1;
    }
    assert words[..i] == words;
  }

  /** store_bitmap_batch */
  method StoreBitmapBatch(cm: ContextManager, host: Host, edb: int, words: seq<Text>)
    requires edb in host.bitmaps && Inv(cm.ctx, host.bitmaps[edb]) && Batchable(cm.ctx, words)
    modifies cm`ctx, host`bitmaps, host`trace
    ensures cm.ctx == AllWritten(old(cm.ctx), words)
    ensures host.bitmaps
         == old(host.bitmaps)[edb := ApplyStores(old(host.bitmaps)[edb], OutEntries(old(cm.ctx), words))]
    ensures Inv(cm.ctx, host.bitmaps[edb])
    ensures SameView(old(cm.ctx), old(host.bitmaps)[edb], cm.ctx, host.bitmaps[edb])
    ensures host.trace == old(host.trace) + (if words == [] then [] else [StoreBitmaps(|words|)])
    ensures Fresh(old(cm.ctx), old(host.bitmaps)[edb]) ==>
      Fresh(cm.ctx, host.bitmaps[edb]) && NoOverwrite(cm.ctx.K, old(host.bitmaps)[edb], host.bitmaps[edb])
  {
    hide Inv, View, Fresh, SameView, NoOverwrite, OutEntry;
    ghost var c0, s0 := cm.ctx, host.bitmaps[edb];
    BatchKeeps(c0, s0, words);
    if Fresh(c0, s0) {
      BatchFresh(c0, s0, words);
    }
    if |words| <= 0 {
      BatchStart(c0);
      assert host.bitmaps == host.bitmaps[edb := s0];
      return;
    }
    var outs := SealWords(cm, words);
    host.StoreBitmapEntries(edb, outs);
  }

  /** The tally after a missed pick: barren if the cache was as large as the word list, 256 unlucky draws if not. */
  function Missed(c: ClientContext, t: Tally): Tally
  {
    t.(misses := t.misses + 1, barren := t.barren + if |c.CK| >= |c.words| then 1 else 0)
  }

  /** More distinct words than the cache can hold: something to swap in always exists. */
  predicate Companions(c: ClientContext)
  {
    |WordSet(c.words)| > c.ckMax
  }

  lemma CompanionsNotBarren(c: ClientContext, t: Tally)
    requires Companions(c) && |c.CK| <= c.ckMax
    ensures Missed(c, t).barren == t.barren
  {
    DistinctWords(c.words);
  }

  /**
   pick_random_uncached_word: at most 256 draws. It fails only when the cache is at least as large as
   the word list, or when every one of the draws hit a cached word.
   */
  method PickRandomUncachedWord(cm: ContextManager) returns (found: bool, word: Text, ghost draws: seq<nat>)
    modifies cm`tally
    ensures cm.tally == if found then old(cm.tally) else Missed(cm.ctx, old(cm.tally))
    ensures found ==> word in cm.ctx.words && word !in cm.ctx.CK
    ensures !found ==> |cm.ctx.CK| >= |cm.ctx.words| || |draws| == 256
    ensures forall k :: k in draws && !found ==> k < |cm.ctx.words| && cm.ctx.words[k] in cm.ctx.CK
  {
    found, word, draws := false, [], [];
    ghost var missed := Missed(cm.ctx, cm.tally);
    if |cm.ctx.words| == 0 {
      cm.tally := missed;
      return;
    }
    var n := |cm.ctx.words|;
    if |cm.ctx.CK| >= n {
      cm.tally := missed;
      return;
    }
    var attempt := 0;
    while attempt < 256
      invariant attempt <= 256 && |draws| == attempt && !found && cm.tally == old(cm.tally)
      invariant forall k :: k in draws ==> k < n && cm.ctx.words[k] in cm.ctx.CK
    {
      var r: nat :| r < n by { assert 0 < n; }
      var candidate := cm.ctx.words[r];
      if candidate !in cm.ctx.CK {
        found, word := true, candidate;
        return;
      }
      draws := draws + [r];
      attempt := attempt + 1;
    }
    cm.tally := missed;
  }

  /** std::sample: some n distinct keys, or all of them if there are fewer. */
  method Sample(keys: set<Text>, n: int) returns (picked: seq<Text>)
    requires n >= 0
    ensures NoDup(picked) && (forall w :: w in picked ==> w in keys)
    ensures |picked| == (if n <= |keys| then n else |keys|)
    ensures |WordSet(picked)| == |picked|
  {
    picked := [];
    var rest := keys;
    while |picked| < n && rest != {}
      invariant NoDup(picked) && rest == keys - WordSet(picked)
      invariant forall w :: w in picked ==> w in keys
      invariant |picked| <= n && |rest| + |picked| == |keys| && |WordSet(picked)| == |picked|
      decreases rest
    {
      var w :| w in rest;
      assert WordSet(picked + [w]) == WordSet(picked) + {w};
      rest, picked := rest - {w}, picked + [w];
    }
  }

  /** All the effects an index operation may have on the context: nothing but CK, KVS, words and dummy_count. */
  predicate IndexFrame(c: ClientContext, c': ClientContext)
  {
    c' == c.(CK := c'.CK, KVS := c'.KVS, words := c'.words, dummyCount := c'.dummyCount)
  }

  /** The tail of Search and UpdateKeywords: write out random words other than this one until CK fits. */
  method EvictOverflow(cm: ContextManager, host: Host, edb: int, word: Text)
    requires edb in host.bitmaps && Inv(cm.ctx, host.bitmaps[edb]) && cm.ctx.ckMax >= 1
    modifies cm`ctx, host`bitmaps, host`trace
    ensures edb in host.bitmaps && host.bitmaps == old(host.bitmaps)[edb := host.bitmaps[edb]]
    ensures Inv(cm.ctx, host.bitmaps[edb])
    ensures SameView(old(cm.ctx), old(host.bitmaps)[edb], cm.ctx, host.bitmaps[edb])
    ensures cm.ctx == old(cm.ctx).(CK := cm.ctx.CK, KVS := cm.ctx.KVS)
    ensures cm.ctx.KVS.Keys >= old(cm.ctx.KVS).Keys && RealKeys(cm.ctx) == RealKeys(old(cm.ctx))
    ensures |old(cm.ctx.CK)| <= cm.ctx.ckMax ==> cm.ctx == old(cm.ctx)
    ensures |cm.ctx.CK| == if |old(cm.ctx.CK)| <= cm.ctx.ckMax then |old(cm.ctx.CK)| else cm.ctx.ckMax
    ensures host.trace == old(host.trace)
      + (if |old(cm.ctx.CK)| <= cm.ctx.ckMax then [] else [StoreBitmaps(|old(cm.ctx.CK)| - cm.ctx.ckMax)])
    ensures Fresh(old(cm.ctx), old(host.bitmaps)[edb]) ==>
      Fresh(cm.ctx, host.bitmaps[edb]) && NoOverwrite(cm.ctx.K, old(host.bitmaps)[edb], host.bitmaps[edb])
    ensures Pool(old(cm.ctx)) ==> Pool(cm.ctx)
  {
    hide Inv, View, Fresh, Pool, NoOverwrite, OutEntries, ApplyStores, AllWritten, SameView, RealKeys;
    FreshRefl(cm.ctx, host.bitmaps[edb]);
    var outAmt := |cm.ctx.CK| - cm.ctx.ckMax;
    if outAmt <= 0 {
      return;
    }
    ghost var c0, s0 := cm.ctx, host.bitmaps[edb];
    var wordsWithoutW := cm.ctx.CK.Keys - {word};
    var wordsOut := Sample(wordsWithoutW, outAmt);
    StoreBitmapBatch(cm, host, edb, wordsOut);
    BatchSize(c0, wordsOut);
    BatchRealKeys(c0, s0, wordsOut);
    if Pool(c0) {
      BatchPool(c0, wordsOut);
    }
  }

  lemma FreshRefl(c: ClientContext, s: Store)
    ensures NoOverwrite(c.K, s, s)
    ensures SameView(c, s, c, s)
  {
  }

  /** Why a random pick found nothing: too few words, or 256 draws that all hit the cache. */
  ghost predicate PickFailed(c: ClientContext, draws: seq<nat>)
  {
    || |c.CK| >= |c.words|
    || (|draws| == 256 && forall k :: k in draws ==> k < |c.words| && c.words[k] in c.CK)
  }

  /**
   With more distinct words than cache entries a companion exists, so a pick can only miss by drawing
   cached words 256 times in a row.
   */
  lemma MissIsBadLuck(c: ClientContext, draws: seq<nat>)
    requires PickFailed(c, draws) && |WordSet(c.words)| > |c.CK|
    ensures |draws| == 256 && (forall k :: k in draws ==> k < |c.words| && c.words[k] in c.CK)
    ensures exists k :: 0 <= k < |c.words| && c.words[k] !in c.CK
  {
    DistinctWords(c.words);
    if forall w :: w in WordSet(c.words) ==> w in c.CK {
      SubsetSize(WordSet(c.words), c.CK.Keys);
    }
    var w :| w in WordSet(c.words) && w !in c.CK;
  }

  lemma {:induction false} DistinctWords(words: seq<Text>)
    ensures |WordSet(words)| <= |words|
  {
    if words != [] {
      var n := |words| - 1;
      DistinctWords(words[..n]);
      assert WordSet(words) == WordSet(words[..n]) + {words[n]};
    }
  }

  /** Search */
  method Search(cm: ContextManager, host: Host, edb: int, word: Text)
    returns (ok: bool, res: Bitmap, ghost draws: seq<nat>)
    requires edb in host.bitmaps && Inv(cm.ctx, host.bitmaps[edb]) && cm.ctx.ckMax >= 1
    modifies cm`ctx, cm`tally, host`bitmaps, host`trace
    ensures edb in host.bitmaps && host.bitmaps == old(host.bitmaps)[edb := host.bitmaps[edb]]
    ensures cm.tally == if ok then old(cm.tally) else Missed(old(cm.ctx), old(cm.tally))
    ensures !ok ==> cm.ctx == old(cm.ctx) && host.bitmaps == old(host.bitmaps) && host.trace == old(host.trace)
    ensures !ok ==> (word !in cm.ctx.KVS || word in cm.ctx.CK) && PickFailed(cm.ctx, draws)
    ensures ok ==> res == View(old(cm.ctx), old(host.bitmaps)[edb], word)
    ensures Inv(cm.ctx, host.bitmaps[edb])
    ensures SameView(old(cm.ctx), old(host.bitmaps)[edb], cm.ctx, host.bitmaps[edb])
    ensures cm.ctx == old(cm.ctx).(CK := cm.ctx.CK, KVS := cm.ctx.KVS)
    ensures cm.ctx.KVS.Keys >= old(cm.ctx.KVS).Keys && RealKeys(cm.ctx) == RealKeys(old(cm.ctx))
    ensures ok ==> |cm.ctx.CK| <= cm.ctx.ckMax
    ensures |cm.ctx.CK| >= |old(cm.ctx.CK)| || |cm.ctx.CK| == cm.ctx.ckMax
    ensures ok && |old(cm.ctx.CK)| == cm.ctx.ckMax ==>
      host.trace == old(host.trace) + (if word in old(cm.ctx.KVS) then [LoadBitmap, StoreBitmaps(1)] else [])
    ensures Fresh(old(cm.ctx), old(host.bitmaps)[edb]) ==>
      Fresh(cm.ctx, host.bitmaps[edb]) && NoOverwrite(cm.ctx.K, old(host.bitmaps)[edb], host.bitmaps[edb])
    ensures Pool(old(cm.ctx)) ==> Pool(cm.ctx)
  {
    hide Inv, Fresh, Pool, NoOverwrite, Load, StoredAt, KeyOk, Dummyish;
    ghost var c0, s0 := cm.ctx, host.bitmaps[edb];
    FreshRefl(c0, s0);
    ok, res, draws := true, {}, [];
    var wordExists := word in cm.ctx.KVS;
    if !wordExists {
      var found, wordIn, d := PickRandomUncachedWord(cm);
      if !found {
        ok, draws := false, d;
        return;
      }
      AbsentView(c0, s0, word);
    } else {
      var wordCached := word in cm.ctx.CK;
      var wordIn: Text := word;
      if wordCached {
        var found, picked, d := PickRandomUncachedWord(cm);
        if !found {
          ok, draws := false, d;
          return;
        }
        wordIn := picked;
        res := cm.ctx.CK[word];
      }
      InvFacts(c0, s0, wordIn);
      var bmIn := LoadBitmapFromStorage(cm, host, edb, wordIn, cm.ctx.KVS[wordIn]);
      if !wordCached {
        res := bmIn;
      }
      FillKeeps(c0, s0, wordIn);
      FillFresh(c0, s0, wordIn, bmIn);
      cm.ctx := cm.ctx.(CK := cm.ctx.CK[wordIn := bmIn]);
    }
    EvictOverflow(cm, host, edb, word);
  }

  lemma AbsentView(c: ClientContext, s: Store, w: Text)
    requires Inv(c, s) && w !in c.KVS
    ensures View(c, s, w) == {}
  {
  }

  lemma FillFresh(c: ClientContext, s: Store, w: Text, bits: Bitmap)
    requires Inv(c, s) && w in c.KVS
    ensures Fresh(c, s) ==> Fresh(Cached(c, w, bits), s)
    ensures Pool(c) ==> Pool(Cached(c, w, bits))
  {
    hide Inv;
  }
}
