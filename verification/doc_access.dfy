/** Obfuscated document access: padded access plans, batched loading and result collection. */
module DocAccess {
  import opened Bytes
  import opened Labels
  import opened Context
  import opened IndexModel
  import opened DocModel
  import opened DocCache

  datatype DocAccessMode = Query | MutateUse | InsertDecoy

  datatype Plan = Plan(mode: DocAccessMode, accessIds: seq<Text>, parseIds: seq<Text>)

  /** append_unique_doc_id */
  method AppendUniqueDocId(ids: seq<Text>, docId: Text) returns (r: seq<Text>)
    ensures r == if docId == [] || docId in ids then ids else ids + [docId]
  {
    if docId == [] {
      return ids;
    }
    for i := 0 to |ids|
      invariant docId !in ids[..i]
    {
      if ids[i] == docId {
        return ids;
      }
    }
    r := ids + [docId];
  }

  /** pick_random_existing_doc_id */
  method PickRandomExistingDocId(cm: ContextManager) returns (id: Text)
    ensures id == [] ==> forall k :: k in cm.ctx.allDocs ==> !(0 <= k < TOTAL_FILE_NO)
    ensures id != [] ==> DocKey(id) && Atoi(id) - 1 in cm.ctx.allDocs
  {
    var occupied: seq<int> := [];
    for i := 0 to TOTAL_FILE_NO
      invariant forall d :: d in occupied ==> 0 < d <= TOTAL_FILE_NO && d - 1 in cm.ctx.allDocs
      invariant forall k :: 0 <= k < i && k in cm.ctx.allDocs ==> k + 1 in occupied
    {
      if i in cm.ctx.allDocs {
        occupied := occupied + [i + 1];
      }
    }
    if |occupied| == 0 {
      return [];
    }
    var r: nat :| r < |occupied| by { assert 0 < |occupied|; }
    var pick := occupied[r];
    assert pick in occupied;
    DecimalIsKey(pick);
    id := Decimal(pick);
  }

  /** pick_padding_doc_id: empty, one of the given ids, or the id of some slot. */
  method PickPaddingDocId(cm: ContextManager, realDocIds: seq<Text>) returns (id: Text)
    ensures id == [] || id in realDocIds || (DocKey(id) && (cm.ctx.allDocs == {} || Atoi(id) - 1 in cm.ctx.allDocs))
  {
    if cm.ctx.allDocs == {} {
      for attempt := 0 to 256 {
        var d: nat :| 1 <= d <= TOTAL_FILE_NO;
        DecimalIsKey(d);
        if Decimal(d) !in realDocIds {
          return Decimal(d);
        }
      }
      if |realDocIds| > 0 {
        var r: nat :| r < |realDocIds| by { assert 0 < |realDocIds|; }
        return realDocIds[r];
      }
      return [];
    }
    if |realDocIds| == 0 {
      return [];
    }
    var upper := if cm.ctx.endofDocId > 1 then cm.ctx.endofDocId else 1;
    for attempt := 0 to 256 {
      var d: int :| 1 <= d <= upper by { assert 1 <= 1 <= upper; }
      if 0 < d <= TOTAL_FILE_NO && d - 1 in cm.ctx.allDocs {
        DecimalIsKey(d);
        return Decimal(d);
      }
    }
    var r: nat :| r < |realDocIds| by { assert 0 < |realDocIds|; }
    id := realDocIds[r];
  }

  function Max(a: int, b: int): int
  {
    if a > b then a else b
  }

  /** build_doc_access_plan */
  method BuildDocAccessPlan(cm: ContextManager, mode: DocAccessMode, primaryIds: seq<Text>) returns (plan: Plan)
    ensures plan.mode == mode && NoDup(plan.accessIds)
    ensures plan.parseIds == if mode.InsertDecoy? then [] else primaryIds
    ensures !mode.InsertDecoy? ==> forall id :: id in primaryIds && id != [] ==> id in plan.accessIds
    ensures forall id :: id in plan.accessIds ==> DocKey(id) || (!mode.InsertDecoy? && id in primaryIds)
    ensures |plan.accessIds| <= Max(if mode.InsertDecoy? then 1 else |primaryIds|, cm.ctx.retrievalThreshold)
  {
    hide DocKey;
    var seeds: seq<Text> := [];
    if mode.InsertDecoy? {
      var decoy := PickRandomExistingDocId(cm);
      if decoy != [] {
        seeds := [decoy];
      }
    } else {
      seeds := primaryIds;
    }
    var access: seq<Text> := [];
    for i := 0 to |seeds|
      invariant NoDup(access) && |access| <= i
      invariant forall id :: id in seeds[..i] && id != [] ==> id in access
      invariant forall id :: id in access ==> id in seeds
    {
      assert seeds[i] in seeds;
      access := AppendUniqueDocId(access, seeds[i]);
    }
    assert seeds[..|seeds|] == seeds;
    var round := 0;
    while |access| < cm.ctx.retrievalThreshold && round < 256
      invariant NoDup(access)
      invariant forall id :: id in seeds && id != [] ==> id in access
      invariant forall id :: id in access ==> DocKey(id) || id in seeds
      invariant |access| <= Max(|seeds|, cm.ctx.retrievalThreshold)
    {
      var before := |access|;
      var paddingDocId := PickPaddingDocId(cm, access);
      if paddingDocId == [] {
        break;
      }
      access := AppendUniqueDocId(access, paddingDocId);
      if |access| == before {
        break;
      }
      round := round + 1;
    }
    plan := Plan(mode, access, if mode.InsertDecoy? then [] else primaryIds);
  }

  /** A cached slot that still equals what is stored. */
  ghost predicate Unchanged(c: ClientContext, d: DocStore, id: Text)
  {
    id in c.docCK ==> StoredSlot(c.K, d, id) .SlotRead? && c.docCK[id] == StoredSlot(c.K, d, id).slot
  }

  /** All that loading for a query may change. */
  ghost predicate LoadedOnly(c: ClientContext, c': ClientContext, ids: seq<Text>)
  {
    && c' == c.(docCK := c'.docCK)
    && (forall id :: id in c'.docCK ==> id in c.docCK || id in ids)
    && (forall id :: id in c.docCK ==> id in c'.docCK)
  }

  /** One batch of materialize_access_ids. */
  method LoadBatch(cm: ContextManager, host: Host, edb: int, ids: seq<Text>)
    requires edb in host.docs && DocInv(cm.ctx, host.docs[edb])
    requires forall id :: id in ids ==> Unchanged(cm.ctx, host.docs[edb], id)
    modifies cm`ctx, host`trace
    ensures LoadedOnly(old(cm.ctx), cm.ctx, ids) && DocInv(cm.ctx, host.docs[edb])
    ensures SameContents(old(cm.ctx), host.docs[edb], cm.ctx, host.docs[edb])
    ensures forall id :: id in ids && DocKey(id) ==> id in cm.ctx.docCK
    ensures forall id :: Unchanged(old(cm.ctx), host.docs[edb], id) ==> Unchanged(cm.ctx, host.docs[edb], id)
    ensures VersionsLag(old(cm.ctx), host.docs[edb]) ==> VersionsLag(cm.ctx, host.docs[edb])
    ensures host.trace == old(host.trace) + [LoadDocs(|ids|)]
  {
    hide StoredSlot, Fits, DocLabel, Contents, ReadSlot, Atoi, Decimal, DocInv, DocKey, VersionsLag, SameContents;
    ghost var c0, d0 := cm.ctx, host.docs[edb];
    SameContentsRefl(c0, d0);
    var labels: seq<Label> := [];
    for i := 0 to |ids|
      invariant cm.ctx == c0 && host.docs == old(host.docs) && host.trace == old(host.trace)
      invariant |labels| == i && forall j :: 0 <= j < i ==> labels[j] == DocLabel(c0.K, ids[j])
    {
      labels := labels + [DocLabel(cm.ctx.K, ids[i])];
    }
    var ciphers := host.LoadDocEntries(edb, labels);
    for i := 0 to |ids|
      invariant host.docs == old(host.docs) && host.trace == old(host.trace) + [LoadDocs(|ids|)]
      invariant LoadedOnly(c0, cm.ctx, ids) && DocInv(cm.ctx, d0) && SameContents(c0, d0, cm.ctx, d0)
      invariant forall j :: 0 <= j < i && DocKey(ids[j]) ==> ids[j] in cm.ctx.docCK
      invariant forall id :: Unchanged(c0, d0, id) ==> Unchanged(cm.ctx, d0, id)
      invariant VersionsLag(c0, d0) ==> VersionsLag(cm.ctx, d0)
    {
      ghost var c1 := cm.ctx;
      var id := ids[i];
      assert Unchanged(c1, d0, id);
      var r := ReadSlot(cm.ctx.K, ciphers[i]);
      Looked(c0.K, d0, id, ciphers[i]);
      if r.SlotRead? {
        CacheLoaded(c0, c1, d0, id);
        cm.ctx := cm.ctx.(docCK := cm.ctx.docCK[id := r.slot]);
      } else {
        KeysReadable(c1, d0, id);
      }
    }
  }

  lemma KeysReadable(c: ClientContext, d: DocStore, id: Text)
    requires DocInv(c, d)
    ensures StoredSlot(c.K, d, id).SlotRead? <==> DocKey(id)
  {
    hide Fits, DocLabel, ReadSlot, DocKey;
    if StoredSlot(c.K, d, id).SlotRead? {
      MissingUnlessKey(c, d, id);
    }
  }

  lemma CacheLoaded(c0: ClientContext, c: ClientContext, d: DocStore, id: Text)
    requires DocInv(c, d) && SameContents(c0, d, c, d) && StoredSlot(c.K, d, id).SlotRead? && Unchanged(c, d, id)
    ensures var c' := c.(docCK := c.docCK[id := StoredSlot(c.K, d, id).slot]);
            && DocInv(c', d) && SameContents(c0, d, c', d) && (VersionsLag(c, d) ==> VersionsLag(c', d))
            && forall other :: Unchanged(c, d, other) ==> Unchanged(c', d, other)
  {
    hide StoredSlot, Fits, DocLabel, Contents, DocInv, DocKey, VersionsLag;
    var c' := c.(docCK := c.docCK[id := StoredSlot(c.K, d, id).slot]);
    MissingUnlessKey(c, d, id);
    if id in c.docCK {
      assert c'.docCK == c.docCK;
      assert c' == c;
    } else {
      CacheKeeps(c, d, id);
    }
  }

  /** materialize_access_ids */
  method MaterializeAccessIds(cm: ContextManager, host: Host, edb: int, accessIds: seq<Text>)
    requires edb in host.docs && DocInv(cm.ctx, host.docs[edb])
    modifies cm`ctx, host`trace
    ensures LoadedOnly(old(cm.ctx), cm.ctx, accessIds) && DocInv(cm.ctx, host.docs[edb])
    ensures SameContents(old(cm.ctx), host.docs[edb], cm.ctx, host.docs[edb])
    ensures forall id :: id in accessIds && DocKey(id) ==> id in cm.ctx.docCK
    ensures VersionsLag(old(cm.ctx), host.docs[edb]) ==> VersionsLag(cm.ctx, host.docs[edb])
  {
    hide StoredSlot, Contents, DocInv, DocKey, VersionsLag, SameContents;
    ghost var c0, d0 := cm.ctx, host.docs[edb];
    SameContentsRefl(c0, d0);
    var getDocIds: seq<Text> := [];
    for i := 0 to |accessIds|
      invariant forall id :: id in getDocIds ==> id in accessIds && id !in c0.docCK
      invariant forall id :: id in accessIds[..i] ==> id in getDocIds || id in c0.docCK
      invariant cm.ctx == c0 && host.trace == old(host.trace)
    {
      if accessIds[i] !in cm.ctx.docCK {
        getDocIds := getDocIds + [accessIds[i]];
      }
    }
    assert accessIds[..|accessIds|] == accessIds;
    var batchSize := Max(1, cm.ctx.retrievalBatch);
    var offset := 0;
    while offset < |getDocIds|
      invariant 0 <= offset
      invariant host.docs == old(host.docs)
      invariant LoadedOnly(c0, cm.ctx, accessIds) && DocInv(cm.ctx, d0) && SameContents(c0, d0, cm.ctx, d0)
      invariant forall id :: id in getDocIds ==> Unchanged(cm.ctx, d0, id)
      invariant forall j :: 0 <= j < offset && j < |getDocIds| && DocKey(getDocIds[j]) ==> getDocIds[j] in cm.ctx.docCK
      invariant VersionsLag(c0, d0) ==> VersionsLag(cm.ctx, d0)
    {
      var batch := if batchSize < |getDocIds| - offset then batchSize else |getDocIds| - offset;
      ghost var c1 := cm.ctx;
      var ids := getDocIds[offset..offset + batch];
      LoadBatch(cm, host, edb, ids);
      SameContentsTrans(c0, d0, c1, d0, cm.ctx, d0);
      forall j | offset <= j < offset + batch && DocKey(getDocIds[j])
        ensures getDocIds[j] in cm.ctx.docCK
      {
        assert getDocIds[j] == ids[j - offset];
      }
      offset := offset + batchSize;
    }
  }

  /** A row of a SELECT result: the slot number and the document body. */
  type Row = (int, Text)

  /** The rows of the given slots, in order, as their logical contents say. */
  function RowsOf(c: ClientContext, d: DocStore, ids: seq<Text>): (rows: seq<Row>)
    ensures |rows| == |ids|
  {
    if ids == [] then []
    else
      var n := |ids| - 1;
      RowsOf(c, d, ids[..n]) + [(Atoi(ids[n]), Contents(c, d, ids[n]).body)]
  }

  /** RetrieveDocs with its obfuscated access: the rows of exactly the requested slots. */
  method RetrieveDocs(cm: ContextManager, host: Host, edb: int, docIds: seq<Text>) returns (rows: seq<Row>)
    requires edb in host.docs && DocInv(cm.ctx, host.docs[edb]) && cm.ctx.docCkMax >= 0
    requires |docIds| <= MAX_RESULT_DOCS && forall id :: id in docIds ==> DocKey(id)
    modifies cm`ctx, host`docs, host`trace
    ensures edb in host.docs && host.docs == old(host.docs)[edb := host.docs[edb]]
    ensures DocsOk(old(cm.ctx), old(host.docs)[edb], cm.ctx, host.docs[edb])
    ensures SameContents(old(cm.ctx), old(host.docs)[edb], cm.ctx, host.docs[edb])
    ensures rows == RowsOf(old(cm.ctx), old(host.docs)[edb], docIds)
    ensures |cm.ctx.docCK| <= cm.ctx.docCkMax
    ensures VersionsKept(old(cm.ctx), old(host.docs)[edb], cm.ctx, host.docs[edb], 1)
  {
    hide StoredSlot, DocInv, DocKey, VersionsLag, SameContents, NoRegress, NoWrap, Atoi, VersionsKept;
    ghost var c0, d0 := cm.ctx, host.docs[edb];
    var plan := BuildDocAccessPlan(cm, Query, docIds);
    forall id | id in docIds
      ensures id in plan.accessIds
    {
      KeyNonempty(id);
    }
    MaterializeAccessIds(cm, host, edb, plan.accessIds);
    ghost var c1 := cm.ctx;
    rows := [];
    for i := 0 to |docIds|
      invariant cm.ctx == c1 && host.docs == old(host.docs)
      invariant rows == RowsOf(c0, d0, docIds[..i])
    {
      var id := docIds[i];
      assert id in docIds;
      SameAt(c0, d0, cm.ctx, d0, id);
      ContentsFit(c0, d0, id);
      var body := cm.ctx.docCK[id].body;
      var copyLen := if |body| < MAX_FILE_SIZE then |body| else MAX_FILE_SIZE;
      assert body[..copyLen] == body;
      rows := rows + [(Atoi(id), body[..copyLen])];
      assert docIds[..i + 1][..i] == docIds[..i];
    }
    assert docIds[..|docIds|] == docIds;
    SpillDocCkIfNeeded(cm, host, edb);
    VersionsUntouched(c0, d0, c1, 0);
    VersionsKeptTrans(c0, d0, c1, d0, cm.ctx, host.docs[edb], 0, 1);
    SameContentsTrans(c0, d0, c1, d0, cm.ctx, host.docs[edb]);
  }

  lemma KeyNonempty(id: Text)
    requires DocKey(id)
    ensures id != []
  {
  }
}
