/** provision_all_doc_slot_tombstones and ecall_update_init: the first contents of a new database. */
module Provision {
  import opened Bytes
  import opened Labels
  import opened Context
  import opened Bundle
  import opened IndexModel
  import opened KeywordUpdates
  import opened Dummies
  import opened DocModel
  import opened DocAccess

  /** The first n slots hold tombstones of version zero, and only slots are stored. */
  ghost predicate Provisioned(K: Text, docs: DocStore, n: int)
  {
    && (forall i :: 0 < i <= n ==> StoredSlot(K, docs, Decimal(i)) == SlotRead(EMPTY_SLOT, 0))
    && (forall id :: !DocKey(id) ==> DocLabel(K, id) !in docs)
  }

  lemma ProvisionOne(K: Text, docs: DocStore, n: nat, packed: Text)
    requires n < TOTAL_FILE_NO && Provisioned(K, docs, n)
    requires |packed| == MAX_FILE_SIZE && SectionsV2([], [], 0) <= packed
    ensures Provisioned(K, WithBundle(K, docs, Decimal(n + 1), packed), n + 1)
  {
    var docs' := WithBundle(K, docs, Decimal(n + 1), packed);
    BundleReads(K, docs, Decimal(n + 1), EMPTY_SLOT, 0, packed);
    DecimalIsKey(n + 1);
    forall id | !DocKey(id)
      ensures DocLabel(K, id) !in docs'
    {
      if DocLabel(K, id) == DocLabel(K, Decimal(n + 1)) {
        DocLabelInjective(K, id, Decimal(n + 1));
      }
    }
    forall i | 0 < i <= n
      ensures StoredSlot(K, docs', Decimal(i)) == SlotRead(EMPTY_SLOT, 0)
    {
      if Decimal(i) == Decimal(n + 1) {
        DecimalInjective(i, n + 1);
      }
    }
  }

  /** One batch of tombstones. */
  method PackTombstones(K: Text, startId: nat, batch: nat, ghost docs: DocStore) returns (outs: seq<(Label, Cipher)>)
    requires 0 < startId && startId - 1 + batch <= TOTAL_FILE_NO && Provisioned(K, docs, startId - 1)
    ensures |outs| == batch && Provisioned(K, ApplyStores(docs, outs), startId - 1 + batch)
  {
    hide Provisioned, DocLabel, Decimal, SectionsV2;
    outs := [];
    for i := 0 to batch
      invariant |outs| == i && Provisioned(K, ApplyStores(docs, outs), startId - 1 + i)
    {
      var docIdStr := Decimal(startId + i);
      var packed := PackDocBundleV2([], [], 0);
      ProvisionOne(K, ApplyStores(docs, outs), startId - 1 + i, packed);
      ghost var before := outs;
      outs := outs + [(DocLabel(K, docIdStr), Cipher(Master(K), packed))];
      assert outs[..|outs| - 1] == before;
    }
  }

  /** provision_all_doc_slot_tombstones */
  method ProvisionAllDocSlotTombstones(cm: ContextManager, host: Host, edb: int)
    requires edb in host.docs && Provisioned(cm.ctx.K, host.docs[edb], 0) && cm.ctx.docCK == map[]
    modifies cm`ctx, host`docs, host`trace
    ensures edb in host.docs && host.docs == old(host.docs)[edb := host.docs[edb]]
    ensures cm.ctx == old(cm.ctx).(allDocs := {}, endofDocId := TOTAL_FILE_NO + 1,
                                   slotVersion := seq(TOTAL_FILE_NO, _ => 0))
    ensures DocInv(cm.ctx, host.docs[edb]) && VersionsLag(cm.ctx, host.docs[edb])
    ensures forall id :: DocKey(id) ==> Contents(cm.ctx, host.docs[edb], id) == EMPTY_SLOT
  {
    hide Provisioned, StoredSlot, Contents, DocInv, VersionsLag, DocKey;
    var batchSize := Max(1, cm.ctx.retrievalBatch);
    cm.ctx := cm.ctx.(allDocs := {}, endofDocId := TOTAL_FILE_NO + 1, slotVersion := seq(TOTAL_FILE_NO, _ => 0));
    ghost var c := cm.ctx;
    var startId := 1;
    while startId <= TOTAL_FILE_NO
      invariant 1 <= startId && cm.ctx == c
      invariant edb in host.docs && host.docs == old(host.docs)[edb := host.docs[edb]]
      invariant Provisioned(c.K, host.docs[edb], if startId - 1 <= TOTAL_FILE_NO then startId - 1 else TOTAL_FILE_NO)
      decreases TOTAL_FILE_NO + 1 - startId
    {
      var batch := if batchSize < TOTAL_FILE_NO - startId + 1 then batchSize else TOTAL_FILE_NO - startId + 1;
      var outs := PackTombstones(cm.ctx.K, startId, batch, host.docs[edb]);
      host.StoreDocEntries(edb, outs);
      startId := startId + batchSize;
    }
    AllProvisioned(c, host.docs[edb]);
  }

  lemma AllProvisioned(c: ClientContext, docs: DocStore)
    requires Provisioned(c.K, docs, TOTAL_FILE_NO) && c.docCK == map[] && c.slotVersion == seq(TOTAL_FILE_NO, _ => 0)
    ensures DocInv(c, docs) && VersionsLag(c, docs)
    ensures forall id :: DocKey(id) ==> Contents(c, docs, id) == EMPTY_SLOT
  {
    forall id | DocKey(id)
      ensures StoredSlot(c.K, docs, id) == SlotRead(EMPTY_SLOT, 0)
    {
      assert id == Decimal(Atoi(id));
    }
    hide StoredSlot, DocLabel, Atoi, Decimal;
    assert Fits(EMPTY_SLOT);
  }

  /** A context that owns nothing yet, over an empty store. */
  predicate FreshClient(c: ClientContext)
  {
    && c.CK == map[] && c.docCK == map[] && c.KVS == map[] && c.words == []
    && c.ckMax >= 1 && c.docCkMax >= 0 && 0 <= c.dummySize <= DUMMY_LIMIT
  }

  /** ecall_update_init */
  method UpdateInit(cm: ContextManager, host: Host, edb: int)
    requires host.Registered(edb) && FreshClient(cm.ctx) && host.docs[edb] == map[]
    modifies cm`ctx, host`bitmaps, host`docs, host`trace
    ensures edb in host.bitmaps && host.bitmaps == old(host.bitmaps)[edb := host.bitmaps[edb]]
    ensures edb in host.docs && host.docs == old(host.docs)[edb := host.docs[edb]]
    ensures IndexInv(cm.ctx, host.bitmaps[edb]) && DocInv(cm.ctx, host.docs[edb])
    ensures VersionsLag(cm.ctx, host.docs[edb])
    ensures forall w :: View(cm.ctx, host.bitmaps[edb], w) == {}
    ensures forall id :: DocKey(id) ==> Contents(cm.ctx, host.docs[edb], id) == EMPTY_SLOT
    ensures cm.ctx.allDocs == {} && |cm.ctx.CK| == 0 && |cm.ctx.docCK| == 0
    ensures |WordSet(cm.ctx.words)| == old(cm.ctx.dummySize) == cm.ctx.dummySize == cm.ctx.dummyCount
    ensures |cm.ctx.KVS| == cm.ctx.dummySize && RealKeys(cm.ctx) == {}
    ensures cm.ctx == old(cm.ctx).(KVS := cm.ctx.KVS, words := cm.ctx.words, dummyCount := cm.ctx.dummyCount,
                                   allDocs := {}, endofDocId := cm.ctx.endofDocId, slotVersion := cm.ctx.slotVersion)
    ensures old(host.bitmaps)[edb] == map[] ==> Fresh(cm.ctx, host.bitmaps[edb])
  {
    hide DocInv, VersionsLag, Contents, DocKey, Pool, Inv, View, Fresh, RealKeys;
    var initialDummySize := cm.ctx.dummySize;
    cm.ctx := cm.ctx.(dummySize := 0);
    cm.ctx := cm.ctx.(dummyCount := 0);
    ghost var c0, s0 := cm.ctx, host.bitmaps[edb];
    EmptyIndex(c0, s0);
    NothingStored(c0);
    AppendDummyKeywords(cm, host, edb, initialDummySize);
    ghost var c1 := cm.ctx;
    AppendedFacts(c0, s0, c1, host.bitmaps[edb], initialDummySize);
    NothingProvisioned(c1.K, host.docs[edb]);
    ProvisionAllDocSlotTombstones(cm, host, edb);
    SameIndexFields(c1, cm.ctx, host.bitmaps[edb]);
  }

  lemma EmptyIndex(c: ClientContext, s: Store)
    requires c.CK == map[] && c.KVS == map[] && c.words == [] && c.ckMax >= 1 && c.dummySize == 0 && c.dummyCount == 0
    ensures IndexInv(c, s) && (forall w :: View(c, s, w) == {}) && WordSet(c.words) == {} && RealKeys(c) == {}
  {
    hide Real, Dummyish, DummyName;
  }

  lemma NothingStored(c: ClientContext)
    ensures Fresh(c, map[])
  {
  }

  lemma AppendedFacts(c: ClientContext, s: Store, c': ClientContext, s': Store, n: nat)
    requires Appended(c, s, c', s', n) && (forall w :: View(c, s, w) == {})
    ensures IndexInv(c', s') && (forall w :: View(c', s', w) == {}) && RealKeys(c') == RealKeys(c)
    ensures c' == c.(KVS := c'.KVS, words := c'.words, dummyCount := c.dummyCount + n, dummySize := c.dummySize + n)
    ensures Fresh(c, s) ==> Fresh(c', s')
  {
    hide View, Pool, Inv, OneDummyAdded, DummiesAdded, Fresh, NoOverwrite, RealKeys, WordSet, IndexInv;
    DummiesRealKeys(c, n);
  }

  lemma NothingProvisioned(K: Text, docs: DocStore)
    requires docs == map[]
    ensures Provisioned(K, docs, 0)
  {
  }

  /** Index meaning depends only on the index fields of the context. */
  lemma SameIndexFields(c: ClientContext, c': ClientContext, s: Store)
    requires c'.K == c.K && c'.CK == c.CK && c'.KVS == c.KVS && c'.words == c.words
    requires c'.dummyCount == c.dummyCount && c'.dummySize == c.dummySize && c'.ckMax == c.ckMax
    ensures IndexInv(c, s) ==> IndexInv(c', s)
    ensures SameView(c, s, c', s) && (Fresh(c, s) ==> Fresh(c', s)) && RealKeys(c') == RealKeys(c)
  {
    hide Load, StoredAt, KeyOk, Dummyish, DummyName, Real, BitmapLabel;
  }
}
