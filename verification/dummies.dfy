/** append_dummy_keywords: fresh placeholders with empty bitmaps join the index in batches. */
module Dummies {
  import opened Bytes
  import opened BitPack
  import opened Labels
  import opened Context
  import opened IndexModel
  import opened KeywordUpdates

  /** Larger than any dummy_size a 32-bit counter can hold. */
  const DUMMY_LIMIT: int := 10000000000

  function OneDummyAdded(c: ClientContext): ClientContext
    requires c.dummySize >= 0
  {
    var dummy := DummyName(c.dummySize);
    c.(KVS := if dummy in c.KVS then c.KVS else c.KVS[dummy := 0],
       words := c.words + [dummy],
       dummyCount := c.dummyCount + 1,
       dummySize := c.dummySize + 1)
  }

  function DummyEntry(c: ClientContext): (Label, Cipher)
    requires c.dummySize >= 0
  {
    var dummy := DummyName(c.dummySize);
    (BitmapLabel(c.K, dummy, 0), EncryptBitmap({}, BitmapKey(c.K, dummy, 0)))
  }

  function DummiesAdded(c: ClientContext, n: nat): (c': ClientContext)
    requires c.dummySize >= 0
    ensures c' == c.(KVS := c'.KVS, words := c'.words, dummyCount := c.dummyCount + n, dummySize := c.dummySize + n)
  {
    if n == 0 then c else OneDummyAdded(DummiesAdded(c, n - 1))
  }

  function DummyEntries(c: ClientContext, n: nat): (outs: seq<(Label, Cipher)>)
    requires c.dummySize >= 0
    ensures |outs| == n
  {
    if n == 0 then [] else DummyEntries(c, n - 1) + [DummyEntry(DummiesAdded(c, n - 1))]
  }

  /** A zero bitmap stored under a placeholder label disturbs no stored word, not even where labels collide. */
  lemma ZeroEntryKeeps(c: ClientContext, s: Store, d: Text, x: Text)
    requires Inv(c, s) && Dummyish(d) && x in c.KVS && (x !in c.CK || Dummyish(x))
    ensures var s' := s[BitmapLabel(c.K, d, 0) := EncryptBitmap({}, BitmapKey(c.K, d, 0))];
            && StoredAt(c.K, s', x, c.KVS[x])
            && (x !in c.CK ==> Load(c.K, s', x, c.KVS[x]) == Load(c.K, s, x, c.KVS[x]))
  {
    var v := c.KVS[x];
    if BitmapLabel(c.K, x, v) == BitmapLabel(c.K, d, 0) {
      LabelKeyAgree(c.K, x, v, d, 0);
      WrittenLoads(c.K, s, d, 0, {});
      assert !Real(x);
      hide BitmapLabel, BitmapKey, DecryptBitmap, Stem, Real, Unpack;
    }
    hide BitmapLabel, BitmapKey, Stem, Real, Unpack;
  }

  lemma OneDummyKeeps(c: ClientContext, s: Store)
    requires IndexInv(c, s) && c.dummySize < DUMMY_LIMIT
    ensures var c', e := OneDummyAdded(c), DummyEntry(c);
            && IndexInv(c', s[e.0 := e.1]) && SameView(c, s, c', s[e.0 := e.1])
            && |WordSet(c'.words)| == |WordSet(c.words)| + 1
            && |c'.KVS| == |c.KVS| + 1
            && (Fresh(c, s) ==> Fresh(c', s[e.0 := e.1]) && NoOverwrite(c.K, s, s[e.0 := e.1]))
  {
    hide Fresh, NoOverwrite;
    OneDummyFresh(c, s);
    hide Inv, Pool, Load, StoredAt, Real, Dummyish, BitmapLabel, BitmapKey, EncryptBitmap, DummyName, View, SameView;
    OneDummyInv(c, s);
    OneDummyPool(c, s);
  }

  /** A placeholder's label is no real keyword's label. */
  lemma OneDummyFresh(c: ClientContext, s: Store)
    requires c.dummySize >= 0
    ensures var c', e := OneDummyAdded(c), DummyEntry(c);
            Fresh(c, s) ==> Fresh(c', s[e.0 := e.1]) && NoOverwrite(c.K, s, s[e.0 := e.1])
  {
    var c', e := OneDummyAdded(c), DummyEntry(c);
    DummyNameStem(c.dummySize);
    forall x, v: nat | Real(x)
      ensures BitmapLabel(c.K, x, v) != e.0
    {
      if BitmapLabel(c.K, x, v) == e.0 {
        LabelKeyAgree(c.K, x, v, DummyName(c.dummySize), 0);
      }
    }
    hide BitmapLabel, BitmapKey, DummyName, Dummyish;
  }

  lemma OneDummyInv(c: ClientContext, s: Store)
    requires Inv(c, s) && Pool(c) && c.dummySize < DUMMY_LIMIT
    ensures var c', e := OneDummyAdded(c), DummyEntry(c);
            Inv(c', s[e.0 := e.1]) && SameView(c, s, c', s[e.0 := e.1])
  {
    hide Load, StoredAt, Real, Dummyish, BitmapLabel, BitmapKey, EncryptBitmap, DummyName;
    var d := DummyName(c.dummySize);
    DummyNameStem(c.dummySize);
    WrittenLoads(c.K, s, d, 0, {});
    forall x | x in c.KVS && (x !in c.CK || Dummyish(x)) {
      ZeroEntryKeeps(c, s, d, x);
    }
  }

  lemma PoolSize(c: ClientContext)
    requires Pool(c)
    ensures c.dummySize >= 0 && DummyName(c.dummySize) !in c.KVS && DummyName(c.dummySize) !in c.CK
  {
  }

  lemma OneDummyPool(c: ClientContext, s: Store)
    requires Inv(c, s) && Pool(c)
    ensures var c' := OneDummyAdded(c);
            && Pool(c') && |WordSet(c'.words)| == |WordSet(c.words)| + 1 && |c'.KVS| == |c.KVS| + 1
  {
    hide Inv, DummyName, DummyIndices, WordSet;
    var d := DummyName(c.dummySize);
    InvFacts(c, s, d);
    OneMoreIndex(c.KVS, c.dummySize);
    OneMoreWord(c.words, d);
    assert c.KVS[d := 0].Keys == c.KVS.Keys + {d};
  }

  lemma OneMoreWord(words: seq<Text>, d: Text)
    requires d !in words
    ensures |WordSet(words + [d])| == |WordSet(words)| + 1
  {
    assert WordSet(words + [d]) == WordSet(words) + {d};
  }

  lemma OneMoreIndex(kvs: map<Text, int>, n: nat)
    requires DummyName(n) !in kvs
    ensures |DummyIndices(kvs[DummyName(n) := 0], n + 1)| == |DummyIndices(kvs, n)| + 1
    ensures forall i: nat :: i > n ==> DummyName(i) != DummyName(n)
  {
    forall i: nat | DummyName(i) == DummyName(n)
      ensures i == n
    {
      DummyNameInjective(i, n);
    }
    hide DummyName;
    assert DummyIndices(kvs[DummyName(n) := 0], n + 1) == DummyIndices(kvs, n) + {n};
  }

  lemma {:induction false} DummiesKeep(c: ClientContext, s: Store, n: nat)
    requires IndexInv(c, s) && 0 <= c.dummySize && c.dummySize + n <= DUMMY_LIMIT
    ensures var c', s' := DummiesAdded(c, n), ApplyStores(s, DummyEntries(c, n));
            && IndexInv(c', s') && SameView(c, s, c', s')
            && |WordSet(c'.words)| == |WordSet(c.words)| + n
            && |c'.KVS| == |c.KVS| + n
            && (Fresh(c, s) ==> Fresh(c', s') && NoOverwrite(c.K, s, s'))
  {
    hide Inv, Pool, View, OneDummyAdded, DummyEntry, WordSet, Fresh, NoOverwrite;
    KeepsAll(c.K, s);
    if n > 0 {
      DummiesKeep(c, s, n - 1);
      OneDummyKeeps(DummiesAdded(c, n - 1), ApplyStores(s, DummyEntries(c, n - 1)));
      assert DummyEntries(c, n)[..n - 1] == DummyEntries(c, n - 1);
      if Fresh(c, s) {
        KeepsTrans(c.K, s, ApplyStores(s, DummyEntries(c, n - 1)), ApplyStores(s, DummyEntries(c, n)));
      }
    }
  }

  lemma KeepsAll(K: Text, s: Store)
    ensures NoOverwrite(K, s, s)
  {
  }

  lemma {:induction false} DummiesCompose(c: ClientContext, m: nat, n: nat)
    requires c.dummySize >= 0
    ensures DummiesAdded(DummiesAdded(c, m), n) == DummiesAdded(c, m + n)
  {
    hide OneDummyAdded;
    if n > 0 {
      DummiesCompose(c, m, n - 1);
    }
  }

  /** Placeholders are no keywords proper. */
  lemma {:induction false} DummiesRealKeys(c: ClientContext, n: nat)
    requires c.dummySize >= 0
    ensures RealKeys(DummiesAdded(c, n)) == RealKeys(c)
  {
    if n > 0 {
      DummiesRealKeys(c, n - 1);
      OneDummyRealKeys(DummiesAdded(c, n - 1));
    }
  }

  lemma OneDummyRealKeys(c: ClientContext)
    requires c.dummySize >= 0
    ensures RealKeys(OneDummyAdded(c)) == RealKeys(c)
  {
    DummyNameStem(c.dummySize);
    assert !Real(DummyName(c.dummySize));
    hide Real, DummyName;
  }

  /** One batch of append_dummy_keywords. */
  method SealDummies(cm: ContextManager, batch: nat) returns (outs: seq<(Label, Cipher)>)
    requires cm.ctx.dummySize >= 0
    modifies cm`ctx
    ensures cm.ctx == DummiesAdded(old(cm.ctx), batch) && outs == DummyEntries(old(cm.ctx), batch)
  {
    hide BitmapLabel, BitmapKey, EncryptBitmap, DummyName;
    outs := [];
    for j := 0 to batch
      invariant cm.ctx == DummiesAdded(old(cm.ctx), j) && outs == DummyEntries(old(cm.ctx), j)
    {
      var dummy := DummyName(cm.ctx.dummySize);
      outs := outs + [(BitmapLabel(cm.ctx.K, dummy, 0), EncryptBitmap({}, BitmapKey(cm.ctx.K, dummy, 0)))];
      cm.ctx := cm.ctx.(KVS := if dummy in cm.ctx.KVS then cm.ctx.KVS else cm.ctx.KVS[dummy := 0],
                        words := cm.ctx.words + [dummy],
                        dummyCount := cm.ctx.dummyCount + 1,
                        dummySize := cm.ctx.dummySize + 1);
    }
  }

  /** What appending n placeholders does. */
  ghost predicate Appended(c: ClientContext, s: Store, c': ClientContext, s': Store, n: nat)
  {
    && c.dummySize >= 0
    && c' == DummiesAdded(c, n)
    && IndexInv(c', s') && SameView(c, s, c', s')
    && |WordSet(c'.words)| == |WordSet(c.words)| + n
    && |c'.KVS| == |c.KVS| + n
    && (Fresh(c, s) ==> Fresh(c', s') && NoOverwrite(c.K, s, s'))
  }

  lemma AppendedMore(c0: ClientContext, s0: Store, c1: ClientContext, s1: Store, done: nat, batch: nat)
    requires Appended(c0, s0, c1, s1, done) && c1.dummySize + batch <= DUMMY_LIMIT
    ensures c1.dummySize == c0.dummySize + done
    ensures Appended(c0, s0, DummiesAdded(c1, batch), ApplyStores(s1, DummyEntries(c1, batch)), done + batch)
  {
    hide IndexInv, SameView, WordSet, DummyEntries, ApplyStores, Fresh, NoOverwrite;
    if Fresh(c0, s0) {
      DummiesKeep(c1, s1, batch);
      KeepsTrans(c0.K, s0, s1, ApplyStores(s1, DummyEntries(c1, batch)));
    }
    DummiesKeep(c1, s1, batch);
    SameTrans(c0, s0, c1, s1, DummiesAdded(c1, batch), ApplyStores(s1, DummyEntries(c1, batch)));
    DummiesCompose(c0, done, batch);
  }

  /** append_dummy_keywords */
  method AppendDummyKeywords(cm: ContextManager, host: Host, edb: int, amount: int)
    requires edb in host.bitmaps && IndexInv(cm.ctx, host.bitmaps[edb])
    requires amount > 0 ==> cm.ctx.dummySize + amount <= DUMMY_LIMIT
    modifies cm`ctx, host`bitmaps, host`trace
    ensures edb in host.bitmaps && host.bitmaps == old(host.bitmaps)[edb := host.bitmaps[edb]]
    ensures Appended(old(cm.ctx), old(host.bitmaps)[edb], cm.ctx, host.bitmaps[edb], if amount > 0 then amount else 0)
  {
    hide DummiesAdded, DummyEntries, ApplyStores, IndexInv, Appended;
    ghost var c0, s0 := cm.ctx, host.bitmaps[edb];
    AppendedNone(c0, s0);
    var count := if amount > 0 then amount else 0;
    while count > 0
      invariant 0 <= count && (amount > 0 ==> count <= amount) && (amount <= 0 ==> count == 0)
      invariant edb in host.bitmaps && host.bitmaps == old(host.bitmaps)[edb := host.bitmaps[edb]]
      invariant Appended(c0, s0, cm.ctx, host.bitmaps[edb], if amount > 0 then amount - count else 0)
    {
      var batch := if count < PER_ROUND_SIZE then count else PER_ROUND_SIZE;
      AppendedSize(c0, s0, cm.ctx, host.bitmaps[edb], amount - count);
      AppendedMore(c0, s0, cm.ctx, host.bitmaps[edb], amount - count, batch);
      var outs := SealDummies(cm, batch);
      host.StoreBitmapEntries(edb, outs);
      count := count - batch;
    }
  }

  lemma AppendedSize(c0: ClientContext, s0: Store, c1: ClientContext, s1: Store, done: nat)
    requires Appended(c0, s0, c1, s1, done)
    ensures c1.dummySize == c0.dummySize + done && c0.dummySize >= 0
  {
  }

  lemma AppendedNone(c: ClientContext, s: Store)
    requires IndexInv(c, s)
    ensures Appended(c, s, c, s, 0)
  {
    hide View, Fresh;
    PoolSize(c);
    KeepsAll(c.K, s);
  }

  lemma SameTrans(c0: ClientContext, s0: Store, c1: ClientContext, s1: Store, c2: ClientContext, s2: Store)
    requires SameView(c0, s0, c1, s1) && SameView(c1, s1, c2, s2)
    ensures SameView(c0, s0, c2, s2)
  {
    hide View;
  }
}
