/** Fetching, spilling and updating document slots through the bounded plaintext cache. */
module DocCache {
  import opened Bytes
  import opened Labels
  import opened Context
  import opened Scalars
  import opened Bundle
  import opened DocModel

  /** What every document operation leaves true. */
  ghost predicate DocsOk(c: ClientContext, d: DocStore, c': ClientContext, d': DocStore)
  {
    DocFrame(c, c') && DocInv(c', d')
  }

  /** fetch_doc_slot_from_server */
  method FetchDocSlotFromServer(cm: ContextManager, host: Host, edb: int, docId: Text) returns (ok: bool)
    requires edb in host.docs && DocInv(cm.ctx, host.docs[edb])
    modifies cm`ctx, host`trace
    ensures DocsOk(old(cm.ctx), host.docs[edb], cm.ctx, host.docs[edb])
    ensures SameContents(old(cm.ctx), host.docs[edb], cm.ctx, host.docs[edb])
    ensures ok <==> DocKey(docId)
    ensures cm.ctx.docCK.Keys == old(cm.ctx.docCK).Keys + (if DocKey(docId) then {docId} else {})
    ensures host.trace == old(host.trace) + (if docId in old(cm.ctx.docCK) then [] else [LoadDocs(1)])
    ensures VersionsLag(old(cm.ctx), host.docs[edb]) ==> VersionsLag(cm.ctx, host.docs[edb])
    ensures forall n :: VersionsLag(old(cm.ctx), host.docs[edb]) && NoWrap(old(cm.ctx), n + 1) ==> NoWrap(cm.ctx, n)
    ensures !ok ==> cm.ctx == old(cm.ctx)
    ensures VersionsKept(old(cm.ctx), host.docs[edb], cm.ctx, host.docs[edb], 1)
  {
    hide StoredSlot, Fits, DocLabel, Contents, ReadSlot, Atoi, Decimal, VersionsKept;
    ghost var c0, d0 := cm.ctx, host.docs[edb];
    SameContentsRefl(c0, d0);
    VersionsUntouched(c0, d0, c0, 1);
    if docId in cm.ctx.docCK {
      return true;
    }
    var ciphers := host.LoadDocEntries(edb, [DocLabel(cm.ctx.K, docId)]);
    var r := ReadSlot(cm.ctx.K, ciphers[0]);
    assert r == StoredSlot(c0.K, d0, docId) by {
      Looked(c0.K, d0, docId, ciphers[0]);
    }
    if r.Unreadable? {
      return false;
    }
    var slot, bundleVersion := r.slot, r.version;
    MissingUnlessKey(c0, d0, docId);
    FetchKeeps(c0, d0, docId);
    var idInt := Atoi(docId);
    if idInt > 0 && idInt <= TOTAL_FILE_NO && bundleVersion > 0 {
      var v := cm.ctx.slotVersion[idInt - 1];
      cm.ctx := cm.ctx.(slotVersion := cm.ctx.slotVersion[idInt - 1 := if bundleVersion > v then bundleVersion else v]);
    }
    cm.ctx := cm.ctx.(docCK := cm.ctx.docCK[docId := slot]);
    assert cm.ctx.slotVersion == Fetched(c0, docId, r).slotVersion;
    ok := true;
  }

  lemma Looked(K: Text, docs: DocStore, id: Text, d: StoredDoc)
    requires d == if DocLabel(K, id) in docs then Found(docs[DocLabel(K, id)]) else Missing
    ensures ReadSlot(K, d) == StoredSlot(K, docs, id)
  {
  }

  lemma MissingUnlessKey(c: ClientContext, docs: DocStore, id: Text)
    requires DocInv(c, docs) && StoredSlot(c.K, docs, id).SlotRead?
    ensures DocKey(id)
  {
    hide DocKey, Fits, DocLabel;
  }

  /** persist_cached_slot_to_server */
  method PersistCachedSlotToServer(cm: ContextManager, host: Host, edb: int, docId: Text)
    requires edb in host.docs && DocInv(cm.ctx, host.docs[edb])
    modifies cm`ctx, host`docs, host`trace
    ensures edb in host.docs && host.docs == old(host.docs)[edb := host.docs[edb]]
    ensures DocsOk(old(cm.ctx), old(host.docs)[edb], cm.ctx, host.docs[edb])
    ensures SameContents(old(cm.ctx), old(host.docs)[edb], cm.ctx, host.docs[edb])
    ensures cm.ctx.docCK == old(cm.ctx.docCK) - {docId}
    ensures host.trace == old(host.trace) + (if docId in old(cm.ctx.docCK) then [StoreDocs(1)] else [])
    ensures VersionsLag(old(cm.ctx), old(host.docs)[edb]) && NoWrap(old(cm.ctx), 1) ==>
      VersionsLag(cm.ctx, host.docs[edb]) && NoRegress(cm.ctx.K, old(host.docs)[edb], host.docs[edb])
    ensures forall n: nat :: NoWrap(old(cm.ctx), n + 1) ==> NoWrap(cm.ctx, n)
    ensures docId in old(cm.ctx.docCK) ==>
      && cm.ctx == Persisted(old(cm.ctx), docId)
      && StoredSlot(cm.ctx.K, host.docs[edb], docId)
         == SlotRead(old(cm.ctx.docCK)[docId], NextVersion(old(cm.ctx), docId))
    ensures forall id :: id != docId ==>
      StoredSlot(cm.ctx.K, host.docs[edb], id) == StoredSlot(cm.ctx.K, old(host.docs)[edb], id)
    ensures VersionsKept(old(cm.ctx), old(host.docs)[edb], cm.ctx, host.docs[edb], 1)
  {
    hide StoredSlot, Fits, DocLabel, Contents, ReadSlot, Atoi, Decimal, SectionsV2, VersionsKept;
    ghost var c0, d0 := cm.ctx, host.docs[edb];
    SameContentsRefl(c0, d0);
    VersionsUntouched(c0, d0, c0, 1);
    if docId !in cm.ctx.docCK {
      assert cm.ctx.docCK == cm.ctx.docCK - {docId};
      assert host.docs == host.docs[edb := d0];
      return;
    }
    var idInt := Atoi(docId);
    assert 0 < idInt <= TOTAL_FILE_NO;
    var slotVersion := (cm.ctx.slotVersion[idInt - 1] + 1) % U32_RANGE;
    cm.ctx := cm.ctx.(slotVersion := cm.ctx.slotVersion[idInt - 1 := slotVersion]);
    var slot := cm.ctx.docCK[docId];
    FitsBound(slot);
    var packed := PackDocBundleV2(slot.index, slot.body, slotVersion);
    PersistKeeps(c0, d0, docId, packed);
    BundleReads(c0.K, d0, docId, slot, slotVersion, packed);
    forall n: nat | NoWrap(c0, n + 1)
      ensures NoWrap(Persisted(c0, docId), n)
    {
      PersistHeadroom(c0, d0, docId, n);
    }
    assert ApplyStores(d0, [(DocLabel(c0.K, docId), Cipher(Master(c0.K), packed))])
        == WithBundle(c0.K, d0, docId, packed) by {
      assert [(DocLabel(c0.K, docId), Cipher(Master(c0.K), packed))][..0] == [];
    }
    host.StoreDocEntries(edb, [(DocLabel(cm.ctx.K, docId), Cipher(Master(cm.ctx.K), packed))]);
    cm.ctx := cm.ctx.(docCK := cm.ctx.docCK - {docId});
  }

  lemma FitsBound(slot: Slot)
    requires Fits(slot)
    ensures 13 + |slot.index| + |slot.body| <= MAX_FILE_SIZE
  {
  }

  /** persist_random_cached_slot */
  method PersistRandomCachedSlot(cm: ContextManager, host: Host, edb: int) returns (ghost pick: Text)
    requires edb in host.docs && DocInv(cm.ctx, host.docs[edb])
    modifies cm`ctx, host`docs, host`trace
    ensures edb in host.docs && host.docs == old(host.docs)[edb := host.docs[edb]]
    ensures DocsOk(old(cm.ctx), old(host.docs)[edb], cm.ctx, host.docs[edb])
    ensures SameContents(old(cm.ctx), old(host.docs)[edb], cm.ctx, host.docs[edb])
    ensures cm.ctx.docCK.Keys <= old(cm.ctx.docCK).Keys
    ensures |cm.ctx.docCK| == if |old(cm.ctx.docCK)| == 0 then 0 else |old(cm.ctx.docCK)| - 1
    ensures host.trace == old(host.trace) + (if |old(cm.ctx.docCK)| == 0 then [] else [StoreDocs(1)])
    ensures VersionsLag(old(cm.ctx), old(host.docs)[edb]) && NoWrap(old(cm.ctx), 1) ==>
      VersionsLag(cm.ctx, host.docs[edb]) && NoRegress(cm.ctx.K, old(host.docs)[edb], host.docs[edb])
    ensures forall n: nat :: NoWrap(old(cm.ctx), n + 1) ==> NoWrap(cm.ctx, n)
    ensures |old(cm.ctx.docCK)| > 0 ==>
      && pick in old(cm.ctx.docCK) && DocKey(pick) && |old(cm.ctx).slotVersion| == TOTAL_FILE_NO
      && cm.ctx == Persisted(old(cm.ctx), pick)
      && StoredSlot(cm.ctx.K, host.docs[edb], pick)
         == SlotRead(old(cm.ctx.docCK)[pick], NextVersion(old(cm.ctx), pick))
      && (forall id :: id != pick ==>
            StoredSlot(cm.ctx.K, host.docs[edb], id) == StoredSlot(cm.ctx.K, old(host.docs)[edb], id))
    ensures VersionsKept(old(cm.ctx), old(host.docs)[edb], cm.ctx, host.docs[edb], 1)
  {
    hide DocInv, VersionsLag, NoRegress, SameContents, VersionsKept, StoredSlot, DocKey, Persisted, NextVersion;
    ghost var c0 := cm.ctx;
    pick := [];
    SameContentsRefl(c0, host.docs[edb]);
    VersionsUntouched(c0, host.docs[edb], c0, 1);
    if |cm.ctx.docCK| == 0 {
      assert host.docs == host.docs[edb := host.docs[edb]];
      return;
    }
    var docId :| docId in cm.ctx.docCK;
    pick := docId;
    CounterOf(c0, host.docs[edb], docId);
    PersistCachedSlotToServer(cm, host, edb, docId);
    assert cm.ctx.docCK.Keys == c0.docCK.Keys - {docId};
  }

  /** pick_decoy_doc_id */
  method PickDecoyDocId(targetDocId: Text) returns (decoy: Text)
    ensures DocKey(decoy) && Atoi(decoy) != Atoi(targetDocId)
  {
    var targetInt := Atoi(targetDocId);
    for attempt := 0 to 256 {
      var candidate: nat :| 1 <= candidate <= TOTAL_FILE_NO;
      if candidate != targetInt {
        DecimalIsKey(candidate);
        return Decimal(candidate);
      }
    }
    DecimalIsKey(1);
    DecimalIsKey(2);
    decoy := if targetInt != 1 then Decimal(1) else Decimal(2);
  }

  /** The reading half of run_slot_update: the target, or a decoy if the target is cached already. */
  method ReadTargetOrDecoy(cm: ContextManager, host: Host, edb: int, target: Text) returns (found: bool)
    requires edb in host.docs && DocInv(cm.ctx, host.docs[edb])
    modifies cm`ctx, host`trace
    ensures DocsOk(old(cm.ctx), host.docs[edb], cm.ctx, host.docs[edb])
    ensures SameContents(old(cm.ctx), host.docs[edb], cm.ctx, host.docs[edb])
    ensures found <==> DocKey(target)
    ensures found <==> target in cm.ctx.docCK
    ensures !found ==> cm.ctx == old(cm.ctx)
    ensures |cm.ctx.docCK| <= |old(cm.ctx.docCK)| + 1
    ensures found ==>
      || host.trace == old(host.trace) + [LoadDocs(1)]
      || (target in old(cm.ctx.docCK) && host.trace == old(host.trace))
    ensures VersionsLag(old(cm.ctx), host.docs[edb]) ==> VersionsLag(cm.ctx, host.docs[edb])
    ensures VersionsLag(old(cm.ctx), host.docs[edb]) && NoWrap(old(cm.ctx), 2) ==> NoWrap(cm.ctx, 1)
    ensures VersionsKept(old(cm.ctx), host.docs[edb], cm.ctx, host.docs[edb], 1)
  {
    hide StoredSlot, Fits, ReadSlot, Atoi, Decimal, DocLabel, VersionsLag, NoWrap, DocInv, Contents, SameContents,
         VersionsKept;
    ghost var c0, d0 := cm.ctx, host.docs[edb];
    VersionsUntouched(c0, d0, c0, 1);
    CachedAreKeys(c0, d0);
    SameContentsRefl(c0, d0);
    WrapDown(c0, 2);
    var targetCached := target in cm.ctx.docCK;
    var readId := target;
    if targetCached {
      readId := PickDecoyDocId(target);
    }
    if readId !in cm.ctx.docCK {
      var ok := FetchDocSlotFromServer(cm, host, edb, readId);
      SizeAfterAdd(cm.ctx.docCK.Keys, c0.docCK.Keys, readId);
    }
    if target !in cm.ctx.docCK {
      var ok := FetchDocSlotFromServer(cm, host, edb, target);
    }
    found := target in cm.ctx.docCK;
  }

  /** run_slot_update; found tells whether the target could be cached at all. */
  method RunSlotUpdate(cm: ContextManager, host: Host, edb: int, target: Text, mutate: Slot -> Slot)
    returns (found: bool, before: Slot)
    requires edb in host.docs && DocInv(cm.ctx, host.docs[edb])
    requires DocKey(target) ==> Fits(mutate(Contents(cm.ctx, host.docs[edb], target)))
    modifies cm`ctx, host`docs, host`trace
    ensures edb in host.docs && host.docs == old(host.docs)[edb := host.docs[edb]]
    ensures DocsOk(old(cm.ctx), old(host.docs)[edb], cm.ctx, host.docs[edb])
    ensures found <==> DocKey(target)
    ensures found ==>
      && before == Contents(old(cm.ctx), old(host.docs)[edb], target)
      && ContentsSet(old(cm.ctx), old(host.docs)[edb], cm.ctx, host.docs[edb], target, mutate(before))
      && (|| host.trace == old(host.trace) + [LoadDocs(1), StoreDocs(1)]
          || (target in old(cm.ctx.docCK) && host.trace == old(host.trace) + [StoreDocs(1)]))
    ensures !found ==> cm.ctx == old(cm.ctx) && host.docs == old(host.docs)
    ensures |cm.ctx.docCK| <= |old(cm.ctx.docCK)|
    ensures VersionsLag(old(cm.ctx), old(host.docs)[edb]) && NoWrap(old(cm.ctx), 2) ==>
      VersionsLag(cm.ctx, host.docs[edb]) && NoRegress(cm.ctx.K, old(host.docs)[edb], host.docs[edb])
    ensures VersionsKept(old(cm.ctx), old(host.docs)[edb], cm.ctx, host.docs[edb], 2)
  {
    hide StoredSlot, Fits, Atoi, Decimal, VersionsLag, NoRegress, NoWrap, DocInv, Contents, SameContents, ContentsSet,
         VersionsKept;
    ghost var c0, d0 := cm.ctx, host.docs[edb];
    SameContentsRefl(c0, d0);
    found := ReadTargetOrDecoy(cm, host, edb, target);
    before := EMPTY_SLOT;
    ghost var c1 := cm.ctx;
    if !found {
      assert host.docs == host.docs[edb := d0];
      VersionsUntouched(c0, d0, c0, 2);
      return;
    }
    before := cm.ctx.docCK[target];
    CachedContents(c1, d0, target);
    SameAt(c0, d0, c1, d0, target);
    MutateSets(c1, d0, target, mutate(before));
    cm.ctx := cm.ctx.(docCK := cm.ctx.docCK[target := mutate(before)]);
    ghost var c2 := cm.ctx;
    assert c2.docCK.Keys == c1.docCK.Keys;
    SameWrap(c1, c2);
    VersionsUntouched(c1, d0, c2, 0);
    VersionsKeptTrans(c0, d0, c1, d0, c2, d0, 1, 0);
    ghost var pick := PersistRandomCachedSlot(cm, host, edb);
    VersionsKeptTrans(c0, d0, c2, d0, cm.ctx, host.docs[edb], 1, 1);
    ContentsSetAround(c0, d0, c1, c2, cm.ctx, host.docs[edb], target, mutate(before));
  }

  lemma SameAt(c: ClientContext, d: DocStore, c': ClientContext, d': DocStore, id: Text)
    requires SameContents(c, d, c', d') && DocKey(id)
    ensures Contents(c', d', id) == Contents(c, d, id)
  {
    hide Contents;
  }

  lemma SameWrap(c: ClientContext, c': ClientContext)
    requires c'.slotVersion == c.slotVersion
    ensures NoWrap(c, 1) ==> NoWrap(c', 1)
  {
  }

  lemma ContentsSetAround(c0: ClientContext, d0: DocStore, c1: ClientContext, c2: ClientContext,
                          c3: ClientContext, d3: DocStore, target: Text, slot: Slot)
    requires SameContents(c0, d0, c1, d0) && ContentsSet(c1, d0, c2, d0, target, slot)
    requires SameContents(c2, d0, c3, d3)
    ensures ContentsSet(c0, d0, c3, d3, target, slot)
  {
    hide Contents, DocKey;
  }

  lemma CachedAreKeys(c: ClientContext, d: DocStore)
    requires DocInv(c, d)
    ensures forall id :: id in c.docCK ==> DocKey(id)
  {
    hide StoredSlot, Fits, DocLabel;
  }

  lemma CachedContents(c: ClientContext, d: DocStore, id: Text)
    requires id in c.docCK
    ensures Contents(c, d, id) == c.docCK[id]
  {
  }

  lemma SizeAfterAdd(a: set<Text>, b: set<Text>, x: Text)
    requires a <= b + {x}
    ensures |a| <= |b| + 1
  {
    assert b + {x} == a + ((b + {x}) - a);
    assert |b + {x}| <= |b| + 1;
  }

  // ----- writing out several slots

  /** Part way through a spill or a flush: the slots in done are written, the others untouched. */
  ghost predicate Flushing(c: ClientContext, d: DocStore, c': ClientContext, d': DocStore, done: set<Text>)
  {
    && DocsOk(c, d, c', d') && SameContents(c, d, c', d')
    && c'.docCK == c.docCK - done
    && (VersionsLag(c, d) ==> VersionsLag(c', d') && VersionsLag(c, d'))
    && (VersionsLag(c, d) && NoWrap(c, 1) ==> NoRegress(c.K, d, d'))
    && CountersWithin(c, c', 1)
    && |c.slotVersion| == TOTAL_FILE_NO
    && (forall id :: id in c.docCK && id !in done ==>
        DocKey(id) && c'.slotVersion[Atoi(id) - 1] == c.slotVersion[Atoi(id) - 1])
  }

  lemma FlushStart(c: ClientContext, d: DocStore)
    requires DocInv(c, d)
    ensures Flushing(c, d, c, d, {})
  {
    hide StoredSlot, Fits, DocKey, DocLabel;
    SameContentsRefl(c, d);
    assert c.docCK == c.docCK - {};
  }

  lemma FlushingGives(c: ClientContext, d: DocStore, c': ClientContext, d': DocStore, done: set<Text>)
    requires Flushing(c, d, c', d', done)
    ensures DocInv(c', d') && c'.docCK == c.docCK - done && c'.K == c.K && c'.docCkMax == c.docCkMax
  {
    hide DocInv, SameContents, VersionsLag, NoRegress;
  }

  lemma FlushStep(c0: ClientContext, d0: DocStore, c1: ClientContext, d1: DocStore, c2: ClientContext, d2: DocStore,
                  done: set<Text>, id: Text)
    requires Flushing(c0, d0, c1, d1, done) && id in c0.docCK && id !in done && DocInv(c1, d1)
    requires DocsOk(c1, d1, c2, d2) && SameContents(c1, d1, c2, d2)
    requires DocKey(id) && c2 == Persisted(c1, id)
    requires StoredSlot(c2.K, d2, id) == SlotRead(c1.docCK[id], NextVersion(c1, id))
    requires forall other :: other != id ==> StoredSlot(c2.K, d2, other) == StoredSlot(c2.K, d1, other)
    ensures Flushing(c0, d0, c2, d2, done + {id})
  {
    hide StoredSlot, Fits, DocLabel, Atoi, Decimal, DocInv, VersionsLag, NoRegress, SameContents;
    SameContentsTrans(c0, d0, c1, d1, c2, d2);
    CounterOf(c1, d1, id);
    OtherSlots(c1, id);
    if VersionsLag(c0, d0) {
      LagStep(c1, d1, c1, c2, d2, id);
      LagStep(c0, d1, c1, c2, d2, id);
      if NoWrap(c0, 1) {
        RegressStep(c0, d0, d1, c1, c2, d2, id);
      }
    }
  }

  lemma CounterOf(c: ClientContext, d: DocStore, id: Text)
    requires DocInv(c, d)
    ensures |c.slotVersion| == TOTAL_FILE_NO
    ensures id in c.docCK ==> DocKey(id)
    ensures DocKey(id) ==> c.slotVersion[Atoi(id) - 1] >= 0
  {
    hide StoredSlot, Fits, DocLabel;
  }

  /** Slots have their own counters. */
  lemma OtherSlots(c: ClientContext, id: Text)
    requires DocKey(id) && |c.slotVersion| == TOTAL_FILE_NO
    ensures var c' := Persisted(c, id);
            && c'.docCK == c.docCK - {id} && DocFrame(c, c') && |c'.slotVersion| == TOTAL_FILE_NO
            && (forall other :: DocKey(other) && other != id ==>
                  c'.slotVersion[Atoi(other) - 1] == c.slotVersion[Atoi(other) - 1])
            && c'.slotVersion[Atoi(id) - 1] == NextVersion(c, id)
  {
    hide Atoi, Decimal, NextVersion;
  }

  /** Counters of b that lag behind the store still do after one slot is written under c1's next version. */
  lemma LagStep(b: ClientContext, d1: DocStore, c1: ClientContext, c2: ClientContext, d2: DocStore, id: Text)
    requires VersionsLag(b, d1) && |c1.slotVersion| == TOTAL_FILE_NO && DocKey(id) && b.K == c1.K
    requires c2 == Persisted(c1, id) && 0 <= c1.slotVersion[Atoi(id) - 1] == b.slotVersion[Atoi(id) - 1]
    requires StoredSlot(c2.K, d2, id).SlotRead? && StoredSlot(c2.K, d2, id).version == NextVersion(c1, id)
    requires forall other :: other != id ==> StoredSlot(c2.K, d2, other) == StoredSlot(c2.K, d1, other)
    ensures VersionsLag(b, d2)
    ensures VersionsLag(c1, d1) ==> VersionsLag(c2, d2)
  {
    hide StoredSlot, DocKey, Atoi, Decimal;
    OtherSlots(c1, id);
  }

  lemma RegressStep(b: ClientContext, d0: DocStore, d1: DocStore, c1: ClientContext, c2: ClientContext, d2: DocStore,
                    id: Text)
    requires NoRegress(b.K, d0, d1) && VersionsLag(b, d1) && NoWrap(b, 1)
    requires |c1.slotVersion| == TOTAL_FILE_NO && DocKey(id) && b.K == c1.K == c2.K
    requires 0 <= c1.slotVersion[Atoi(id) - 1] == b.slotVersion[Atoi(id) - 1]
    requires StoredSlot(c2.K, d2, id).SlotRead? && StoredSlot(c2.K, d2, id).version == NextVersion(c1, id)
    requires forall other :: other != id ==> StoredSlot(c2.K, d2, other) == StoredSlot(c2.K, d1, other)
    ensures NoRegress(b.K, d0, d2)
  {
    hide StoredSlot, DocKey, Atoi, Decimal;
    VersionFits(b, id);
    NoRegressTrans(b.K, d0, d1, d2);
  }

  /** spill_doc_ck_if_needed: every round removes a slot, so the loop ends with the cache within its bound. */
  method SpillDocCkIfNeeded(cm: ContextManager, host: Host, edb: int)
    requires edb in host.docs && DocInv(cm.ctx, host.docs[edb]) && cm.ctx.docCkMax >= 0
    modifies cm`ctx, host`docs, host`trace
    ensures edb in host.docs && host.docs == old(host.docs)[edb := host.docs[edb]]
    ensures DocsOk(old(cm.ctx), old(host.docs)[edb], cm.ctx, host.docs[edb])
    ensures SameContents(old(cm.ctx), old(host.docs)[edb], cm.ctx, host.docs[edb])
    ensures |cm.ctx.docCK| == if |old(cm.ctx.docCK)| <= cm.ctx.docCkMax then |old(cm.ctx.docCK)| else cm.ctx.docCkMax
    ensures VersionsKept(old(cm.ctx), old(host.docs)[edb], cm.ctx, host.docs[edb], 1)
  {
    hide Flushing, DocInv, StoredSlot, SameContents, VersionsLag, NoRegress, NoWrap, Persisted, NextVersion, DocKey,
         Atoi, VersionsKept;
    ghost var c0, d0 := cm.ctx, host.docs[edb];
    ghost var done: set<Text> := {};
    FlushStart(c0, d0);
    FlushingGives(c0, d0, c0, d0, {});
    while |cm.ctx.docCK| > cm.ctx.docCkMax
      invariant edb in host.docs && host.docs == old(host.docs)[edb := host.docs[edb]]
      invariant Flushing(c0, d0, cm.ctx, host.docs[edb], done) && done <= c0.docCK.Keys
      invariant DocInv(cm.ctx, host.docs[edb]) && cm.ctx.docCkMax == c0.docCkMax
      invariant |c0.docCK| > c0.docCkMax ==> |cm.ctx.docCK| >= c0.docCkMax
      invariant |c0.docCK| <= c0.docCkMax ==> |cm.ctx.docCK| == |c0.docCK|
      decreases |cm.ctx.docCK|
    {
      ghost var c1, d1 := cm.ctx, host.docs[edb];
      FlushingGives(c0, d0, c1, d1, done);
      ghost var pick := PersistRandomCachedSlot(cm, host, edb);
      FlushStep(c0, d0, c1, d1, cm.ctx, host.docs[edb], done, pick);
      done := done + {pick};
      FlushingGives(c0, d0, cm.ctx, host.docs[edb], done);
    }
    FlushedVersions(c0, d0, cm.ctx, host.docs[edb], done);
  }

  /** Writing out any set of cached slots, each once. */
  lemma FlushedVersions(c: ClientContext, d: DocStore, c': ClientContext, d': DocStore, done: set<Text>)
    requires Flushing(c, d, c', d', done)
    ensures DocsOk(c, d, c', d') && SameContents(c, d, c', d') && VersionsKept(c, d, c', d', 1)
  {
    hide DocsOk, SameContents, VersionsLag, NoRegress, NoWrap, CountersWithin;
  }

  lemma WrapDown(c: ClientContext, n: int)
    requires n >= 1
    ensures NoWrap(c, n) ==> NoWrap(c, 1)
  {
  }
}
