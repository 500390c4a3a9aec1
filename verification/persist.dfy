/** Moving the active context to storage and back: persist_active_context_to_storage and its inverse. */
module Persist {
  import opened Bytes
  import opened BitPack
  import opened Labels
  import opened Context
  import opened Scalars
  import opened Cursor
  import opened IndexModel
  import opened KeywordIndex
  import opened KeywordUpdates
  import opened Dummies
  import opened DocModel
  import opened DocCache
  import opened Select
  import opened Snapshot

  /** The sealed blob is this much longer than its plaintext, and is read back into a fixed buffer. */
  const SEAL_OVERHEAD: nat := 560
  const SNAPSHOT_BUFFER: nat := 2048000

  /** Everything in a context that is neither cache, key map nor version counter. */
  predicate SameSettings(c: ClientContext, c': ClientContext)
  {
    c' == c.(CK := c'.CK, docCK := c'.docCK, KVS := c'.KVS, words := c'.words, slotVersion := c'.slotVersion)
  }

  /**
   The same logical database: every keyword's bitmap, every slot's contents, the live set, key, limits
   and counters. No keyword is dropped, no keyword version is overwritten, and slot counters grow by at
   most k.
   */
  ghost predicate SameClient(c: ClientContext, s: Store, d: DocStore, c': ClientContext, s': Store, d': DocStore,
                             k: nat)
  {
    && SameSettings(c, c') && |c'.KVS| >= |c.KVS| && RealKeys(c') == RealKeys(c)
    && SameView(c, s, c', s') && SameContents(c, d, c', d')
    && WriteOnce(c, s, c', s') && VersionsKept(c, d, c', d', k)
  }

  lemma SameClientRefl(c: ClientContext, s: Store, d: DocStore)
    ensures SameClient(c, s, d, c, s, d, 0)
  {
    hide View, Contents, VersionsKept, WriteOnce;
    WriteOnceRefl(c, s);
    VersionsUntouched(c, d, c, 0);
  }

  lemma SameClientTrans(c0: ClientContext, s0: Store, d0: DocStore, c1: ClientContext, s1: Store, d1: DocStore,
                        c2: ClientContext, s2: Store, d2: DocStore, k1: nat, k2: nat)
    requires SameClient(c0, s0, d0, c1, s1, d1, k1) && SameClient(c1, s1, d1, c2, s2, d2, k2)
    ensures SameClient(c0, s0, d0, c2, s2, d2, k1 + k2)
  {
    hide View, Contents, VersionsKept, WriteOnce, DocKey;
    WriteOnceTrans(c0, s0, c1, s1, c2, s2);
    VersionsKeptTrans(c0, d0, c1, d1, c2, d2, k1, k2);
  }

  lemma SameClientMore(c: ClientContext, s: Store, d: DocStore, c': ClientContext, s': Store, d': DocStore, k: nat,
                       m: nat)
    requires SameClient(c, s, d, c', s', d', k) && k <= m
    ensures SameClient(c, s, d, c', s', d', m)
  {
    hide View, Contents, VersionsKept, WriteOnce;
    VersionsKeptMore(c, d, c', d', k, m);
  }

  /** The keys a snapshot of this context can come to hold. */
  function Footprint(c: ClientContext): nat
  {
    |c.KVS.Keys + c.CK.Keys|
  }

  /** Room for one more flush and snapshot: the integers fit, and so does the sealed blob. */
  predicate Room(c: ClientContext)
  {
    && IsI32(c.clientId) && |c.K| == KEY_LEN && |c.encKey| <= I32_MAX
    && IsI32(c.ckMax) && IsI32(c.docCkMax) && IsI32(c.dummyCount) && IsI32(c.dummySize) && IsI32(c.endofDocId)
    && IsI32(c.replenishCounter) && IsI32(c.retrievalLimit) && IsI32(c.retrievalThreshold) && IsI32(c.retrievalBatch)
    && Within(c.allDocs, TOTAL_FILE_NO)
    && (forall w :: w in c.KVS ==> c.KVS[w] < I32_MAX)
    && 41314 + |c.encKey| + 40 * Footprint(c) + SEAL_OVERHEAD <= SNAPSHOT_BUFFER
  }

  /** unseal_context_metadata on what the host hands back */
  function Unseal(buf: Text): Restored
  {
    if |buf| + SEAL_OVERHEAD > SNAPSHOT_BUFFER then Rejected else ParseSnapshot(buf)
  }

  // ----- the size of a snapshot

  lemma {:induction false} EntriesSize(kvs: map<Text, int>, order: seq<Text>)
    requires forall w :: w in order ==> w in kvs
    ensures |Entries(kvs, order)| <= 40 * |order|
    decreases |order|
  {
    hide U32;
    if order != [] {
      var n := |order| - 1;
      assert order[n] in order;
      EntriesSize(kvs, order[..n]);
    }
  }

  lemma TailSize(c: ClientContext)
    ensures |Tail(c, 5)| == 16 + 4 * |c.slotVersion|
  {
    hide U32;
    VersionsLength(c.slotVersion);
  }

  lemma SnapshotSize(c: ClientContext, order: seq<Text>)
    requires OrderOf(c.KVS, order) && forall w :: w in order ==> w in c.KVS
    requires |c.K| == KEY_LEN && |c.slotVersion| == TOTAL_FILE_NO
    ensures |SnapshotOf(c, order, 5)| <= 41314 + |c.encKey| + 40 * |c.KVS|
  {
    hide U32, Tail, Entries, OrderOf;
    EntriesSize(c.KVS, order);
    OrderSize(c.KVS, order);
    TailSize(c);
  }

  // ----- flushing the index

  lemma FlushedAll(c: ClientContext, words: seq<Text>)
    requires Batchable(c, words) && WordSet(words) == c.CK.Keys && |words| == |c.CK|
    ensures var c' := AllWritten(c, words);
            && c'.CK == map[] && c'.KVS.Keys == c.KVS.Keys + c.CK.Keys
            && c' == c.(CK := map[], KVS := c'.KVS)
            && (forall w :: w in c'.KVS ==> c'.KVS[w] <= (if w in c.KVS then c.KVS[w] else 0) + 1)
  {
    BumpedKeys(c.KVS, words);
    var c' := AllWritten(c, words);
    assert c'.CK.Keys == {};
  }

  /** Room enough before the flush is room enough to seal after it. */
  lemma FlushedFits(c: ClientContext, c': ClientContext, s: Store, d: DocStore)
    requires Room(c) && c'.CK == map[] && c'.KVS.Keys == c.KVS.Keys + c.CK.Keys
    requires c' == c.(CK := map[], KVS := c'.KVS) && IndexInv(c', s) && DocInv(c, d)
    requires forall w :: w in c'.KVS ==> c'.KVS[w] <= (if w in c.KVS then c.KVS[w] else 0) + 1
    ensures SnapshotFits(c') && (forall w :: w in c'.KVS ==> Storable(w))
    ensures 41314 + |c'.encKey| + 40 * |c'.KVS| + SEAL_OVERHEAD <= SNAPSHOT_BUFFER
  {
    hide Pool, StoredAt, Load, StoredSlot, Fits, DocKey, DocLabel, Real, Dummyish;
    assert |c'.KVS| == |c'.KVS.Keys| == Footprint(c);
  }

  // ----- flushing the documents

  /** persist_cached_slot_to_server for every cached slot. */
  method FlushDocCk(cm: ContextManager, host: Host, edb: int)
    requires edb in host.docs && DocInv(cm.ctx, host.docs[edb])
    modifies cm`ctx, host`docs, host`trace
    ensures edb in host.docs && host.docs == old(host.docs)[edb := host.docs[edb]]
    ensures Flushing(old(cm.ctx), old(host.docs)[edb], cm.ctx, host.docs[edb], old(cm.ctx).docCK.Keys)
  {
    hide Flushing, DocInv, NoDup;
    ghost var c0, d0 := cm.ctx, host.docs[edb];
    var docCkIds := SomeOrder(cm.ctx.docCK.Keys);
    FlushStart(c0, d0);
    assert WordSet(docCkIds[..0]) == {};
    for i := 0 to |docCkIds|
      invariant edb in host.docs && host.docs == old(host.docs)[edb := host.docs[edb]]
      invariant Flushing(c0, d0, cm.ctx, host.docs[edb], WordSet(docCkIds[..i]))
    {
      NextToFlush(docCkIds, i);
      FlushOne(cm, host, edb, docCkIds[i], c0, d0, WordSet(docCkIds[..i]));
      MoreWords(docCkIds, i);
    }
    assert docCkIds[..|docCkIds|] == docCkIds;
  }

  lemma NextToFlush(ids: seq<Text>, i: nat)
    requires i < |ids| && NoDup(ids)
    ensures ids[i] in WordSet(ids) && ids[i] !in WordSet(ids[..i])
  {
  }

  method FlushOne(cm: ContextManager, host: Host, edb: int, docId: Text,
                  ghost c0: ClientContext, ghost d0: DocStore, ghost done: set<Text>)
    requires edb in host.docs && Flushing(c0, d0, cm.ctx, host.docs[edb], done)
    requires docId in c0.docCK && docId !in done
    modifies cm`ctx, host`docs, host`trace
    ensures edb in host.docs && host.docs == old(host.docs)[edb := host.docs[edb]]
    ensures Flushing(c0, d0, cm.ctx, host.docs[edb], done + {docId})
  {
    hide Flushing, DocInv, StoredSlot, SameContents, VersionsLag, NoRegress, NoWrap, Persisted, NextVersion, DocKey,
         Atoi;
    ghost var c1, d1 := cm.ctx, host.docs[edb];
    FlushingGives(c0, d0, c1, d1, done);
    CounterOf(c1, d1, docId);
    PersistCachedSlotToServer(cm, host, edb, docId);
    FlushStep(c0, d0, c1, d1, cm.ctx, host.docs[edb], done, docId);
  }

  // ----- persisting

  /** The snapshot reads back as a context with the same logical database as c, over the stores s' and d'. */
  ghost predicate StandsFor(snapshot: Text, c: ClientContext, s: Store, d: DocStore, s': Store, d': DocStore)
  {
    var r := Unseal(snapshot);
    r.Restored? && SameClient(c, s, d, r.ctx, s', d', 1) && Ready(r.ctx, s', d')
      && r.ctx.KVS.Keys == c.KVS.Keys + c.CK.Keys
  }

  /** The same client with both caches written out. */
  ghost predicate FlushedClient(c: ClientContext, s: Store, d: DocStore, c': ClientContext, s': Store, d': DocStore)
  {
    && SameClient(c, s, d, c', s', d', 1) && Ready(c', s', d') && c'.words == c.words
    && c'.CK == map[] && c'.docCK == map[] && c'.KVS.Keys == c.KVS.Keys + c.CK.Keys
  }

  /** persist_active_context_to_storage: the snapshot is sealed between the two flushes. */
  method PersistActiveContextToStorage(cm: ContextManager, host: Host, edb: int)
    requires host.Registered(edb) && Ready(cm.ctx, host.bitmaps[edb], host.docs[edb]) && Room(cm.ctx)
    modifies cm`ctx, host`bitmaps, host`docs, host`snapshots, host`trace
    ensures edb in host.bitmaps && host.bitmaps == old(host.bitmaps)[edb := host.bitmaps[edb]]
    ensures edb in host.docs && host.docs == old(host.docs)[edb := host.docs[edb]]
    ensures edb in host.snapshots && host.snapshots == old(host.snapshots)[edb := host.snapshots[edb]]
    ensures FlushedClient(old(cm.ctx), old(host.bitmaps)[edb], old(host.docs)[edb],
                          cm.ctx, host.bitmaps[edb], host.docs[edb])
    ensures StandsFor(host.snapshots[edb], old(cm.ctx), old(host.bitmaps)[edb], old(host.docs)[edb],
                      host.bitmaps[edb], host.docs[edb])
  {
    hide Inv, DocInv, Pool, Fresh, NoOverwrite, SameView, View, SameContents, VersionsKept, Room,
         Flushing, StandsFor, FlushedClient, AllWritten, OutEntries, ApplyStores, SnapshotOf, OrderOf, Halfway, Ready,
         Batchable, Revived, Unseal;
    ghost var c0, s0, d0 := cm.ctx, host.bitmaps[edb], host.docs[edb];
    ReadyGives(c0, s0, d0);
    var wordsOut := SomeOrder(cm.ctx.CK.Keys);
    AllBatchable(c0, wordsOut);
    StoreBitmapBatch(cm, host, edb, wordsOut);
    ghost var c1, s1 := cm.ctx, host.bitmaps[edb];
    IndexFlushed(c0, s0, d0, c1, s1, wordsOut);
    HalfwayGives(c0, s0, d0, c1, s1);

    var buf := SerializeContextMetadata(cm.ctx);
    ghost var order :| IsSnapshot(c1, order, buf);
    host.StoreContextSnapshot(edb, buf);
    SnapshotUnseals(c0, s0, d0, c1, s1, order);

    FlushDocCk(cm, host, edb);
    ghost var c2, d2 := cm.ctx, host.docs[edb];
    DocsFlushed(c0, s0, d0, c1, s1, c2, d2, buf);
  }

  lemma ReadyGives(c: ClientContext, s: Store, d: DocStore)
    requires Ready(c, s, d)
    ensures Inv(c, s) && IndexInv(c, s) && DocInv(c, d) && c.ckMax >= 1 && |c.CK| <= c.ckMax
  {
  }

  lemma HalfwayGives(c0: ClientContext, s0: Store, d0: DocStore, c1: ClientContext, s1: Store)
    requires Halfway(c0, s0, d0, c1, s1)
    ensures DocInv(c1, d0) && c1.docCK == c0.docCK && c1.K == c0.K
  {
    hide DocInv, IndexInv, SameView, SameContents, WriteOnce, SnapshotFits;
  }

  lemma AllBatchable(c: ClientContext, words: seq<Text>)
    requires NoDup(words) && WordSet(words) == c.CK.Keys
    ensures Batchable(c, words)
  {
    assert forall w :: w in words ==> w in WordSet(words);
  }

  /** Between the two flushes: the index is out, the documents are untouched. */
  ghost predicate Halfway(c0: ClientContext, s0: Store, d0: DocStore, c1: ClientContext, s1: Store)
  {
    && c1.CK == map[] && c1.KVS.Keys == c0.KVS.Keys + c0.CK.Keys && c1 == c0.(CK := map[], KVS := c1.KVS)
    && RealKeys(c1) == RealKeys(c0)
    && IndexInv(c1, s1) && SameView(c0, s0, c1, s1) && WriteOnce(c0, s0, c1, s1)
    && DocInv(c1, d0) && SameContents(c0, d0, c1, d0)
    && SnapshotFits(c1) && (forall w :: w in c1.KVS ==> Storable(w))
    && 41314 + |c1.encKey| + 40 * |c1.KVS| + SEAL_OVERHEAD <= SNAPSHOT_BUFFER
  }

  lemma IndexFlushed(c0: ClientContext, s0: Store, d0: DocStore, c1: ClientContext, s1: Store, words: seq<Text>)
    requires Ready(c0, s0, d0) && Room(c0) && Batchable(c0, words)
    requires WordSet(words) == c0.CK.Keys && |words| == |c0.CK|
    requires c1 == AllWritten(c0, words) && Inv(c1, s1) && SameView(c0, s0, c1, s1)
    requires Fresh(c0, s0) ==> Fresh(c1, s1) && NoOverwrite(c1.K, s0, s1)
    ensures Halfway(c0, s0, d0, c1, s1)
  {
    hide Inv, DocInv, Pool, Fresh, NoOverwrite, View, Room, RealKeys, AllWritten, SnapshotFits, Contents, Batchable,
         Storable;
    FlushedAll(c0, words);
    KeysFlushed(c0, s0, words);
    BatchPool(c0, words);
    SameDocFields(c0, c1, d0);
    FlushedFits(c0, c1, s1, d0);
  }

  lemma KeysFlushed(c: ClientContext, s: Store, words: seq<Text>)
    requires IndexInv(c, s) && Batchable(c, words)
    ensures RealKeys(AllWritten(c, words)) == RealKeys(c)
  {
    hide Inv, Pool, RealKeys, AllWritten, Batchable;
    BatchRealKeys(c, s, words);
  }

  lemma SameKeySet(c: ClientContext, c': ClientContext)
    requires c'.KVS == c.KVS
    ensures RealKeys(c') == RealKeys(c)
  {
    hide Real;
  }

  /** The context that the snapshot of c1 restores. */
  function Revived(c1: ClientContext): ClientContext
  {
    c1.(docCK := map[], words := [])
  }

  lemma SnapshotUnseals(c0: ClientContext, s0: Store, d0: DocStore, c1: ClientContext, s1: Store, order: seq<Text>)
    requires Halfway(c0, s0, d0, c1, s1) && OrderOf(c1.KVS, order) && forall w :: w in order ==> w in c1.KVS
    ensures Unseal(SnapshotOf(c1, order, 5)) == Restored(Revived(c1))
  {
    hide IndexInv, DocInv, SameView, SameContents, WriteOnce, ParseSnapshot, SnapshotOf, OrderOf, Storable;
    SnapshotRoundTrip(c1, order, 5);
    SnapshotSize(c1, order);
    Uncached(c1);
  }

  lemma Uncached(c1: ClientContext)
    requires c1.CK == map[]
    ensures Cutoff(c1, 5, DefaultContext()) == Revived(c1)
  {
  }

  lemma DocsFlushed(c0: ClientContext, s0: Store, d0: DocStore, c1: ClientContext, s1: Store,
                    c2: ClientContext, d2: DocStore, snapshot: Text)
    requires Ready(c0, s0, d0) && Halfway(c0, s0, d0, c1, s1) && Flushing(c1, d0, c2, d2, c1.docCK.Keys)
    requires Unseal(snapshot) == Restored(Revived(c1))
    ensures FlushedClient(c0, s0, d0, c2, s1, d2) && c2.K == c0.K
    ensures StandsFor(snapshot, c0, s0, d0, s1, d2)
  {
    hide Ready, Halfway, Flushing, FlushedClient, StandsFor, Unseal, Revived;
    FlushedInMemory(c0, s0, d0, c1, s1, c2, d2);
    FlushedToDisk(c0, s0, d0, c1, s1, c2, d2);
    StandsForRevived(snapshot, c0, s0, d0, c1, s1, d2);
  }

  lemma StandsForRevived(snapshot: Text, c0: ClientContext, s0: Store, d0: DocStore, c1: ClientContext, s1: Store,
                         d2: DocStore)
    requires Unseal(snapshot) == Restored(Revived(c1)) && c1.KVS.Keys == c0.KVS.Keys + c0.CK.Keys
    requires SameClient(c0, s0, d0, Revived(c1), s1, d2, 1) && Ready(Revived(c1), s1, d2)
    ensures StandsFor(snapshot, c0, s0, d0, s1, d2)
  {
    hide SameClient, Ready, Unseal;
  }

  lemma FlushedInMemory(c0: ClientContext, s0: Store, d0: DocStore, c1: ClientContext, s1: Store,
                        c2: ClientContext, d2: DocStore)
    requires Ready(c0, s0, d0) && Halfway(c0, s0, d0, c1, s1) && Flushing(c1, d0, c2, d2, c1.docCK.Keys)
    ensures FlushedClient(c0, s0, d0, c2, s1, d2) && c2.K == c0.K
  {
    hide Ready, FlushedClient, IndexInv, SameView, WriteOnce, SameContents, SnapshotFits, DocInv, Storable,
         VersionsKept, Flushing, RealKeys;
    FlushedSlots(c0, d0, c1, c2, d2);
    FlushedIndex(c0, s0, c1, s1, c2);
    FlushedBoth(c0, s0, d0, c1, s1, c2, d2);
  }

  lemma FlushedIndex(c0: ClientContext, s0: Store, c1: ClientContext, s1: Store, c2: ClientContext)
    requires DocFrame(c1, c2) && IndexInv(c1, s1) && SameView(c0, s0, c1, s1) && WriteOnce(c0, s0, c1, s1)
    ensures IndexInv(c2, s1) && SameView(c0, s0, c2, s1) && WriteOnce(c0, s0, c2, s1) && RealKeys(c2) == RealKeys(c1)
  {
    hide IndexInv, SameView, WriteOnce, RealKeys;
    SameKeySet(c1, c2);
    SameIndex(c1, c2, s1);
    SameTrans(c0, s0, c1, s1, c2, s1);
    WriteOnceMoved(c0, s0, c1, s1, c2);
  }

  lemma FlushedBoth(c0: ClientContext, s0: Store, d0: DocStore, c1: ClientContext, s1: Store, c2: ClientContext,
                    d2: DocStore)
    requires Ready(c0, s0, d0) && DocFrame(c1, c2) && c1 == c0.(CK := map[], KVS := c1.KVS)
    requires c1.KVS.Keys == c0.KVS.Keys + c0.CK.Keys && RealKeys(c1) == RealKeys(c0)
    requires IndexInv(c2, s1) && SameView(c0, s0, c2, s1) && WriteOnce(c0, s0, c2, s1) && RealKeys(c2) == RealKeys(c1)
    requires DocInv(c2, d2) && c2.docCK == map[] && SameContents(c0, d0, c2, d2) && VersionsKept(c0, d0, c2, d2, 1)
    ensures FlushedClient(c0, s0, d0, c2, s1, d2) && c2.K == c0.K
  {
    hide IndexInv, SameView, WriteOnce, SameContents, DocInv, VersionsKept, RealKeys;
    SubsetSize(c0.KVS.Keys, c1.KVS.Keys);
  }

  lemma FlushedSlots(c0: ClientContext, d0: DocStore, c1: ClientContext, c2: ClientContext, d2: DocStore)
    requires c1 == c0.(CK := map[], KVS := c1.KVS) && Flushing(c1, d0, c2, d2, c1.docCK.Keys)
    ensures DocFrame(c1, c2) && DocInv(c2, d2) && c2.docCK == map[]
    ensures SameContents(c0, d0, c2, d2) && VersionsKept(c0, d0, c2, d2, 1)
  {
    hide DocInv, SameContents, VersionsKept, VersionsLag, NoRegress, NoWrap, CountersWithin, Atoi, DocKey;
    assert c2.docCK == map[] by { assert c1.docCK - c1.docCK.Keys == map[]; }
    SameDocFields(c0, c1, d0);
    FlushedVersions(c1, d0, c2, d2, c1.docCK.Keys);
    VersionsUntouched(c0, d0, c1, 0);
    VersionsKeptTrans(c0, d0, c1, d0, c2, d2, 0, 1);
    SameContentsTrans(c0, d0, c1, d0, c2, d2);
  }

  lemma WriteOnceMoved(c0: ClientContext, s0: Store, c1: ClientContext, s1: Store, c2: ClientContext)
    requires WriteOnce(c0, s0, c1, s1) && (Fresh(c1, s1) ==> Fresh(c2, s1))
    ensures WriteOnce(c0, s0, c2, s1)
  {
    hide Fresh, NoOverwrite;
  }

  lemma FlushedToDisk(c0: ClientContext, s0: Store, d0: DocStore, c1: ClientContext, s1: Store,
                      c2: ClientContext, d2: DocStore)
    requires Ready(c0, s0, d0) && Halfway(c0, s0, d0, c1, s1) && Flushing(c1, d0, c2, d2, c1.docCK.Keys)
    ensures SameClient(c0, s0, d0, Revived(c1), s1, d2, 1) && Ready(Revived(c1), s1, d2)
    ensures c1.KVS.Keys == c0.KVS.Keys + c0.CK.Keys
  {
    hide Inv, Pool, View, Fresh, NoOverwrite, Contents, DocKey, StoredSlot, Fits, DocLabel, SnapshotFits, Atoi,
         DocInv, Storable, VersionsKept, VersionsLag, NoRegress, NoWrap;
    hide RealKeys;
    SameKeySet(c1, Revived(c1));
    SubsetSize(c0.KVS.Keys, c1.KVS.Keys);
    SealedVersions(c0, d0, c1, c2, d2);
    assert c2.docCK == map[] by { assert c1.docCK - c1.docCK.Keys == map[]; }
    SameDocFields(c0, c1, d0);
    SameIndex(c1, Revived(c1), s1);
    ReviveDocs(c1, d0, c2, d2);
    SameContentsTrans(c0, d0, c1, d0, c2, d2);
    SameContentsTrans(c0, d0, c2, d2, Revived(c1), d2);
  }

  /** The snapshot holds the counters from before the flush, which lag by one at most. */
  lemma SealedVersions(c0: ClientContext, d0: DocStore, c1: ClientContext, c2: ClientContext, d2: DocStore)
    requires c1 == c0.(CK := map[], KVS := c1.KVS) && Flushing(c1, d0, c2, d2, c1.docCK.Keys)
    ensures VersionsKept(c0, d0, Revived(c1), d2, 1)
  {
    hide StoredSlot, DocKey, Atoi, DocInv, SameContents, NoRegress;
  }

  /** Index meaning depends only on the index fields of the context; the word list may shrink. */
  lemma SameIndex(c: ClientContext, c': ClientContext, s: Store)
    requires c'.K == c.K && c'.CK == c.CK && c'.KVS == c.KVS && (c'.words == c.words || c'.words == [])
    requires c'.dummyCount == c.dummyCount && c'.dummySize == c.dummySize && c'.ckMax == c.ckMax
    ensures IndexInv(c, s) ==> IndexInv(c', s)
    ensures SameView(c, s, c', s) && (Fresh(c, s) ==> Fresh(c', s))
  {
    hide Load, StoredAt, KeyOk, Dummyish, DummyName, Real, BitmapLabel;
  }

  /** With empty caches only the stored slots count, so the older counters of the snapshot do not matter. */
  lemma ReviveDocs(c1: ClientContext, d1: DocStore, c2: ClientContext, d2: DocStore)
    requires DocInv(c1, d1) && DocInv(c2, d2) && c2.docCK == map[] && c2.K == c1.K
    ensures DocInv(Revived(c1), d2) && SameContents(c2, d2, Revived(c1), d2)
    ensures VersionsLag(c1, d2) ==> VersionsLag(Revived(c1), d2)
  {
    hide StoredSlot, Fits, DocKey, DocLabel, Atoi;
  }

  // ----- loading

  /**
   A reloaded context differs from the restored one in its caches and word list only; the keyword cache is
   refilled, and every keyword is listed.
   */
  ghost predicate Reloaded(r: ClientContext, s: Store, d: DocStore, c: ClientContext)
  {
    && SameClient(r, s, d, c, s, d, 0) && Ready(c, s, d)
    && c.KVS == r.KVS && c.docCK == map[] && WordSet(c.words) == c.KVS.Keys
    && |c.CK| == if |r.KVS| < c.ckMax then |r.KVS| else c.ckMax
  }

  /** Part way through the refill loop: i keys are cached. */
  ghost predicate Filling(r: ClientContext, s: Store, c: ClientContext, keys: seq<Text>, i: nat)
  {
    && i <= |keys| && IndexInv(c, s) && SameView(r, s, c, s) && (Fresh(r, s) ==> Fresh(c, s))
    && c == r.(CK := c.CK, words := c.words) && WordSet(c.words) == r.KVS.Keys
    && c.CK.Keys == WordSet(keys[..i]) && |c.CK| == i && i <= c.ckMax
  }

  /** The store of one database. */
  function StoreOf(stores: map<int, Store>, edb: int): Store
  {
    if edb in stores then stores[edb] else map[]
  }

  /** The file is there, fits the buffer and parses. */
  predicate CanLoad(snapshots: map<int, Text>, edb: int)
  {
    edb in snapshots && Unseal(snapshots[edb]).Restored?
  }

  /** If it does, it holds a context for the stores as they are. */
  ghost predicate LoadReady(snapshots: map<int, Text>, edb: int, s: Store, d: DocStore)
  {
    CanLoad(snapshots, edb) ==> Ready(Unseal(snapshots[edb]).ctx, s, d)
  }

  ghost predicate LoadedFrom(snapshots: map<int, Text>, edb: int, s: Store, d: DocStore, c: ClientContext)
  {
    CanLoad(snapshots, edb) && Reloaded(Unseal(snapshots[edb]).ctx, s, d, c)
  }

  /** load_active_context_from_storage */
  method LoadActiveContextFromStorage(cm: ContextManager, host: Host, edb: int) returns (ok: bool)
    requires host.Registered(edb) && LoadReady(host.snapshots, edb, StoreOf(host.bitmaps, edb), StoreOf(host.docs, edb))
    modifies cm`ctx, cm`currentEdb, host`trace
    ensures ok <==> CanLoad(host.snapshots, edb)
    ensures !ok ==> cm.ctx == old(cm.ctx) && cm.currentEdb == old(cm.currentEdb)
    ensures ok ==> cm.currentEdb == edb
    ensures ok ==> LoadedFrom(host.snapshots, edb, StoreOf(host.bitmaps, edb), StoreOf(host.docs, edb), cm.ctx)
  {
    hide Ready, Reloaded, ParseSnapshot, Filling, OrderOf, NoDup, WordSet;
    var buf := host.LoadContextSnapshot(edb, SNAPSHOT_BUFFER - SEAL_OVERHEAD);
    NothingParses();
    if |buf| == 0 {
      return false;
    }
    var restored: ClientContext;
    ok, restored := DeserializeContextMetadata(buf);
    if !ok {
      return;
    }
    ghost var r, s, d := ParseSnapshot(buf).ctx, host.bitmaps[edb], host.docs[edb];
    cm.ctx := restored;
    cm.currentEdb := edb;
    cm.ctx := cm.ctx.(CK := map[]);
    cm.ctx := cm.ctx.(docCK := map[]);
    var keys := SomeOrder(cm.ctx.KVS.Keys);
    FillStart(buf, r, s, d, cm.ctx, keys);
    var i := RefillCk(cm, host, edb, keys, r);
    FillEnd(buf, r, s, d, cm.ctx, keys, i);
  }

  /** The refill loop of load_active_context_from_storage. */
  method RefillCk(cm: ContextManager, host: Host, edb: int, keys: seq<Text>, ghost r: ClientContext) returns (i: nat)
    requires edb in host.bitmaps && Filling(r, host.bitmaps[edb], cm.ctx, keys, 0) && (0 < |keys| ==> 0 < r.ckMax)
    requires WordSet(keys) == r.KVS.Keys && NoDup(keys)
    modifies cm`ctx, host`trace
    ensures Filling(r, host.bitmaps[edb], cm.ctx, keys, i)
    ensures i == |keys| || i == r.ckMax
  {
    hide Filling, StoredAt, Load, NoDup;
    i := 0;
    while i < |keys|
      invariant i <= |keys| && Filling(r, host.bitmaps[edb], cm.ctx, keys, i) && (i < |keys| ==> i < r.ckMax)
    {
      var wordIn := keys[i];
      FillGives(r, host.bitmaps[edb], cm.ctx, keys, i);
      var bmIn := LoadBitmapFromStorage(cm, host, edb, wordIn, cm.ctx.KVS[wordIn]);
      FillStep(r, host.bitmaps[edb], cm.ctx, keys, i);
      cm.ctx := cm.ctx.(CK := cm.ctx.CK[wordIn := bmIn]);
      i := i + 1;
      FillCount(r, host.bitmaps[edb], cm.ctx, keys, i);
      if |cm.ctx.CK| == cm.ctx.ckMax {
        break;
      }
    }
  }

  lemma NothingParses()
    ensures ParseSnapshot([]).Rejected?
  {
  }

  /** Whatever was in the file, a parsed context has empty caches and the settings its words do not affect. */
  lemma ParsedCaches(buf: Text)
    requires ParseSnapshot(buf).Restored?
    ensures var r := ParseSnapshot(buf).ctx; r.CK == map[] && r.docCK == map[] && r.words == []
  {
    hide TakeI32, TakeBytes, TakeKeys, Unpack, Optional, OptionalVersions;
  }

  lemma RewordIndex(c: ClientContext, s: Store, words: seq<Text>)
    requires IndexInv(c, s) && WordSet(words) == c.KVS.Keys
    ensures var c' := c.(words := words);
            IndexInv(c', s) && SameView(c, s, c', s) && (Fresh(c, s) ==> Fresh(c', s))
  {
    hide Load, StoredAt, KeyOk, Dummyish, DummyName, Real, BitmapLabel;
    assert forall w :: w in words ==> w in WordSet(words);
  }

  lemma FillStart(buf: Text, r: ClientContext, s: Store, d: DocStore, c: ClientContext, keys: seq<Text>)
    requires ParseSnapshot(buf) == Restored(r) && Ready(r, s, d)
    requires OrderOf(r.KVS, c.words) && c == r.(words := c.words, CK := map[], docCK := map[])
    requires NoDup(keys) && WordSet(keys) == r.KVS.Keys
    ensures Filling(r, s, c, keys, 0) && (0 < |keys| ==> 0 < r.ckMax)
  {
    hide Inv, Pool, View, Fresh, DocInv, ParseSnapshot;
    ParsedCaches(buf);
    RewordIndex(r, s, c.words);
    assert keys[..0] == [];
    assert c.CK.Keys == {} == WordSet([]);
  }

  lemma FillGives(r: ClientContext, s: Store, c: ClientContext, keys: seq<Text>, i: nat)
    requires Filling(r, s, c, keys, i) && i < |keys| && WordSet(keys) == r.KVS.Keys && NoDup(keys)
    ensures keys[i] in c.KVS && keys[i] !in c.CK && StoredAt(c.K, s, keys[i], c.KVS[keys[i]])
    ensures c.K == r.K
  {
    hide Inv, Pool, View, Fresh, StoredAt, SameView, KeyOk, Dummyish;
    assert keys[i] in WordSet(keys) && keys[i] !in WordSet(keys[..i]);
    InvFacts(c, s, keys[i]);
  }

  lemma FillStep(r: ClientContext, s: Store, c: ClientContext, keys: seq<Text>, i: nat)
    requires Filling(r, s, c, keys, i) && i < |keys| && WordSet(keys) == r.KVS.Keys && NoDup(keys) && i < r.ckMax
    ensures keys[i] in c.KVS
    ensures Filling(r, s, Cached(c, keys[i], Load(c.K, s, keys[i], c.KVS[keys[i]])), keys, i + 1)
  {
    hide IndexInv, SameView, Fresh, StoredAt, Load, NoDup, WordSet;
    FillGives(r, s, c, keys, i);
    FillIndex(c, s, keys[i]);
    MoreWords(keys, i);
    var c' := Cached(c, keys[i], Load(c.K, s, keys[i], c.KVS[keys[i]]));
    SameTrans(r, s, c, s, c', s);
    assert c'.CK.Keys == c.CK.Keys + {keys[i]};
  }

  lemma FillIndex(c: ClientContext, s: Store, w: Text)
    requires IndexInv(c, s) && w in c.KVS && w !in c.CK
    ensures var c' := Cached(c, w, Load(c.K, s, w, c.KVS[w]));
            IndexInv(c', s) && SameView(c, s, c', s) && (Fresh(c, s) ==> Fresh(c', s))
  {
    hide Inv, Pool, View, Fresh, Load;
    FillKeeps(c, s, w);
    FillFresh(c, s, w, Load(c.K, s, w, c.KVS[w]));
  }

  lemma MoreWords(keys: seq<Text>, i: nat)
    requires i < |keys|
    ensures WordSet(keys[..i + 1]) == WordSet(keys[..i]) + {keys[i]}
  {
  }

  lemma FillCount(r: ClientContext, s: Store, c: ClientContext, keys: seq<Text>, i: nat)
    requires Filling(r, s, c, keys, i)
    ensures |c.CK| == i <= c.ckMax == r.ckMax
  {
    hide IndexInv, SameView, Fresh;
  }

  lemma FillEnd(buf: Text, r: ClientContext, s: Store, d: DocStore, c: ClientContext, keys: seq<Text>, i: nat)
    requires ParseSnapshot(buf) == Restored(r) && Ready(r, s, d) && Filling(r, s, c, keys, i)
    requires |keys| == |r.KVS| && (i == |keys| || i == r.ckMax)
    ensures Reloaded(r, s, d, c)
  {
    hide IndexInv, View, Fresh, DocInv, ParseSnapshot, Contents, VersionsKept, WordSet, NoOverwrite;
    SameKeySet(r, c);
    hide RealKeys;
    ParsedCaches(buf);
    SameDocFields(r, c, d);
    FreshRefl(c, s);
    VersionsUntouched(r, d, c, 0);
  }
}
