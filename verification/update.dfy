/** handle_update: INSERT, REPLACE and DELETE over the slot cache and the keyword index. */
module Update {
  import opened Bytes
  import opened BitPack
  import opened Labels
  import opened Context
  import opened Tokens
  import opened IndexModel
  import opened KeywordIndex
  import opened ColdRounds
  import opened KeywordUpdates
  import opened Dummies
  import opened DocModel
  import opened DocCache
  import opened Provision
  import opened Select

  const OP_DELETE: int := 0
  const OP_INSERT: int := 1
  const OP_REPLACE: int := 2
  const UPDATE_SPLIT: int := 1

  datatype UpdateRequest = UpdateRequest(op: int, flags: int, docId: int, index: Text, doc: Text)

  /** How an update ended: applied, some keyword skipped, capacity exception, or REPLACE of a slot without index. */
  datatype UpdateStatus = Applied | Incomplete | NoRoom | NotFound

  /** The index text as sent: its own field, or the document itself. */
  function RawIndex(req: UpdateRequest): Text
  {
    if req.flags == UPDATE_SPLIT then req.index else req.doc
  }

  /** The slot that INSERT and REPLACE store: the document, and the index text sent apart or the document again. */
  function NewSlot(req: UpdateRequest): (slot: Slot)
    ensures slot.body == TrimNul(req.doc)
    ensures slot.index == TrimNul(if req.flags == 1 then req.index else req.doc)
  {
    Slot(TrimNul(RawIndex(req)), TrimNul(req.doc))
  }

  predicate ValidId(id: int)
  {
    0 < id <= TOTAL_FILE_NO
  }

  lemma ValidIdIsKey(id: int)
    ensures DocKey(ToString(id)) <==> ValidId(id)
    ensures Atoi(ToString(id)) == id
  {
    AtoiToString(id);
  }

  function Edit(bits: Bitmap, deleted: bool, added: bool, bit: int): Bitmap
  {
    if added then bits + {bit} else if deleted then bits - {bit} else bits
  }

  /** One document's bit is cleared for the deleted words, then set for the added ones. */
  ghost predicate IndexEdited(c: ClientContext, s: Store, c': ClientContext, s': Store,
                              del: seq<Text>, add: seq<Text>, bit: int)
  {
    forall w :: View(c', s', w) == Edit(View(c, s, w), w in del, w in add, bit)
  }

  /** The document's own bit, in every keyword. */
  ghost predicate OwnEdited(c: ClientContext, s: Store, c': ClientContext, s': Store,
                            del: seq<Text>, add: seq<Text>, bit: int)
  {
    forall w :: bit in View(c', s', w) <==> w in add || (bit in View(c, s, w) && w !in del)
  }

  /** Own bit and other bits together make up the views. */
  lemma EditedByBits(c: ClientContext, s: Store, c': ClientContext, s': Store, del: seq<Text>, add: seq<Text>, bit: int)
    requires OwnEdited(c, s, c', s', del, add, bit) && OthersKept(c, s, c', s', bit)
    ensures IndexEdited(c, s, c', s', del, add, bit)
  {
    hide View;
    forall w
      ensures View(c', s', w) == Edit(View(c, s, w), w in del, w in add, bit)
    {
      forall k
        ensures k in View(c', s', w) <==> k in Edit(View(c, s, w), w in del, w in add, bit)
      {
        assert k != bit ==> (k in View(c', s', w) <==> k in View(c, s, w));
      }
    }
  }

  /** The listed words start over: a deleted word with no document, an added one with this document alone. */
  ghost predicate IndexReset(c: ClientContext, s: Store, c': ClientContext, s': Store,
                             del: seq<Text>, add: seq<Text>, bit: int)
  {
    forall w :: View(c', s', w) == if w in add then {bit} else if w in del then {} else View(c, s, w)
  }

  /** All that an update may change in the context. */
  predicate UpdateFrame(c: ClientContext, c': ClientContext)
  {
    c' == c.(CK := c'.CK, KVS := c'.KVS, words := c'.words, dummyCount := c'.dummyCount, dummySize := c'.dummySize,
             replenishCounter := c'.replenishCounter, docCK := c'.docCK, slotVersion := c'.slotVersion,
             allDocs := c'.allDocs, endofDocId := c'.endofDocId)
  }

  /** What every update keeps, however it ends. */
  ghost predicate Kept(c: ClientContext, s: Store, d: DocStore, t: Tally,
                       c': ClientContext, s': Store, d': DocStore, t': Tally)
  {
    && UpdateFrame(c, c')
    && Ready(c', s', d')
    && (Warm(c) ==> Warm(c'))
    && |WordSet(c'.words)| >= |WordSet(c.words)| && |c'.KVS| >= |c.KVS|
    && c'.dummySize <= c.dummySize + 1
    && (Fresh(c, s) && t'.rewinds == t.rewinds ==> Fresh(c', s') && NoOverwrite(c.K, s, s'))
    && Grew(t, t') && (Companions(c) ==> t'.barren == t.barren)
  }

  /** The price of n keyword rounds: at most n cached bitmaps and n placeholders; no reset if the cache could pay. */
  predicate Spent(c: ClientContext, t: Tally, c': ClientContext, t': Tally, n: nat)
  {
    && |c'.CK| >= |c.CK| - n && c'.dummyCount >= c.dummyCount - n && (Warm(c) ==> Warm(c'))
    && Grew(t, t') && (NeverCold(c, n) ==> t'.losses == t.losses && t'.rewinds == t.rewinds)
  }

  lemma SpentTrans(c0: ClientContext, t0: Tally, c1: ClientContext, t1: Tally, c2: ClientContext, t2: Tally, m: nat,
                   n: nat)
    requires Spent(c0, t0, c1, t1, m) && Spent(c1, t1, c2, t2, n)
    ensures Spent(c0, t0, c2, t2, m + n)
  {
    hide Warm;
  }

  lemma SpentNothing(c: ClientContext, t: Tally, c': ClientContext)
    requires |c'.CK| >= |c.CK| && c'.dummyCount >= c.dummyCount && (Warm(c) ==> Warm(c'))
    ensures Spent(c, t, c', t, 0)
  {
    hide Warm;
  }

  /** c' agrees with c on everything the index and the documents read. */
  predicate SameData(c: ClientContext, c': ClientContext)
  {
    c' == c.(allDocs := c'.allDocs, endofDocId := c'.endofDocId, replenishCounter := c'.replenishCounter)
  }

  lemma KeptBySameData(c0: ClientContext, s0: Store, d0: DocStore, t0: Tally,
                       c: ClientContext, s: Store, d: DocStore, t: Tally, c': ClientContext)
    requires Kept(c0, s0, d0, t0, c, s, d, t) && SameData(c, c')
    ensures Kept(c0, s0, d0, t0, c', s, d, t) && SameView(c, s, c', s) && SameContents(c, d, c', d)
  {
    hide IndexInv, DocInv, SameView, SameContents, WordSet, Fresh, VersionsLag;
    SameIndexFields(c, c', s);
    SameDocFields(c, c', d);
  }

  lemma KeptByDocs(c0: ClientContext, s0: Store, d0: DocStore, t0: Tally,
                   c: ClientContext, s: Store, d: DocStore, t: Tally, c': ClientContext, d': DocStore)
    requires Kept(c0, s0, d0, t0, c, s, d, t) && DocsOk(c, d, c', d') && |c'.docCK| <= |c.docCK|
    ensures Kept(c0, s0, d0, t0, c', s, d', t) && SameView(c, s, c', s)
  {
    hide IndexInv, DocInv, SameView, WordSet, Fresh;
    SameIndexFields(c, c', s);
  }

  lemma KeptByRounds(c0: ClientContext, s0: Store, d0: DocStore, t0: Tally,
                     c: ClientContext, s: Store, d: DocStore, t: Tally, c': ClientContext, s': Store, t': Tally)
    requires Kept(c0, s0, d0, t0, c, s, d, t) && RoundsOk(c, s, t, c', s', t')
    ensures Kept(c0, s0, d0, t0, c', s', d, t') && SameContents(c, d, c', d) && IndexFrame(c, c')
  {
    hide IndexInv, DocInv, SameContents, WordSet, Fresh, VersionsLag, NoOverwrite;
    SameDocFields(c, c', d);
    if t'.rewinds == t0.rewinds && Fresh(c0, s0) {
      KeepsTrans(c0.K, s0, s, s');
    }
  }

  lemma KeptRefl(c: ClientContext, s: Store, d: DocStore, t: Tally)
    requires Ready(c, s, d)
    ensures Kept(c, s, d, t, c, s, d, t) && SameView(c, s, c, s) && SameContents(c, d, c, d)
  {
    hide IndexInv, DocInv, View, Contents;
  }

  /** The update counter goes up by one, and every twentieth update brings one new placeholder. */
  predicate Replenished(c: ClientContext, c': ClientContext)
  {
    && c'.replenishCounter == c.replenishCounter + 1
    && c'.dummySize == c.dummySize + (if c'.replenishCounter % 20 == 0 then 1 else 0)
  }

  /** How many placeholders the next update brings. */
  function Arrival(c: ClientContext): nat
  {
    if (c.replenishCounter + 1) % 20 == 0 then 1 else 0
  }

  /** The keywords known once they have arrived. */
  function KnownAfterArrival(c: ClientContext): set<Text>
  {
    c.KVS.Keys + if Arrival(c) == 1 && c.dummySize >= 0 then {DummyName(c.dummySize)} else {}
  }

  lemma ArrivalIs(c: ClientContext)
    ensures if (c.replenishCounter + 1) % 20 == 0 && c.dummySize >= 0 then
              Arrival(c) == 1 && KnownAfterArrival(c) == c.KVS.Keys + {DummyName(c.dummySize)}
            else KnownAfterArrival(c) == c.KVS.Keys
    ensures (c.replenishCounter + 1) % 20 != 0 ==> Arrival(c) == 0
  {
    hide DummyName;
  }

  /** dummy_replenish_counter++ with a new placeholder every twentieth time. */
  method Replenish(cm: ContextManager, host: Host, edb: int,
                   ghost c0: ClientContext, ghost s0: Store, ghost d0: DocStore, ghost t0: Tally)
    requires host.Registered(edb) && Kept(c0, s0, d0, t0, cm.ctx, host.bitmaps[edb], host.docs[edb], cm.tally)
    requires cm.ctx.dummySize == c0.dummySize < DUMMY_LIMIT
    modifies cm`ctx, host`bitmaps, host`trace
    ensures edb in host.bitmaps && host.bitmaps == old(host.bitmaps)[edb := host.bitmaps[edb]]
    ensures Kept(c0, s0, d0, t0, cm.ctx, host.bitmaps[edb], host.docs[edb], cm.tally)
    ensures cm.ctx.dummyCount == old(cm.ctx.dummyCount) + Arrival(old(cm.ctx))
    ensures RealKeys(cm.ctx) == RealKeys(old(cm.ctx))
    ensures cm.ctx.KVS.Keys == KnownAfterArrival(old(cm.ctx)) && cm.ctx.ckMax == old(cm.ctx.ckMax)
    ensures cm.ctx.slotVersion == old(cm.ctx.slotVersion) && cm.ctx.K == old(cm.ctx.K)
    ensures SameView(old(cm.ctx), old(host.bitmaps)[edb], cm.ctx, host.bitmaps[edb])
    ensures SameContents(old(cm.ctx), host.docs[edb], cm.ctx, host.docs[edb])
    ensures cm.ctx.CK == old(cm.ctx.CK) && (Warm(old(cm.ctx)) ==> Warm(cm.ctx))
    ensures cm.ctx.allDocs == old(cm.ctx.allDocs) && cm.ctx.endofDocId == old(cm.ctx.endofDocId)
    ensures Replenished(old(cm.ctx), cm.ctx)
  {
    hide IndexInv, DocInv, SameView, SameContents, WordSet, Appended, RealKeys, Arrival, KnownAfterArrival, Kept;
    ArrivalIs(cm.ctx);
    ghost var c, s, d := cm.ctx, host.bitmaps[edb], host.docs[edb];
    cm.ctx := cm.ctx.(replenishCounter := cm.ctx.replenishCounter + 1);
    ghost var c1 := cm.ctx;
    KeptBySameData(c0, s0, d0, t0, c, s, d, cm.tally, c1);
    SameDataKeys(c, c1);
    KeptGives(c0, s0, d0, t0, c1, s, d, cm.tally);
    if cm.ctx.replenishCounter % 20 == 0 {
      AppendDummyKeywords(cm, host, edb, 1);
      AppendedKept(c0, s0, d0, t0, c1, s, d, cm.tally, cm.ctx, host.bitmaps[edb]);
      SameTrans(c, s, c1, s, cm.ctx, host.bitmaps[edb]);
      SameContentsTrans(c, d, c1, d, cm.ctx, d);
    } else {
      assert host.bitmaps == host.bitmaps[edb := s];
    }
  }

  lemma AppendedKept(c0: ClientContext, s0: Store, d0: DocStore, t0: Tally,
                     c: ClientContext, s: Store, d: DocStore, t: Tally, c': ClientContext, s': Store)
    requires Kept(c0, s0, d0, t0, c, s, d, t) && Appended(c, s, c', s', 1) && c.dummySize == c0.dummySize
    ensures Kept(c0, s0, d0, t0, c', s', d, t)
    ensures c'.dummyCount == c.dummyCount + 1 && c'.slotVersion == c.slotVersion && c'.K == c.K && c'.ckMax == c.ckMax
    ensures RealKeys(c') == RealKeys(c) && c.dummySize >= 0 && c'.KVS.Keys == c.KVS.Keys + {DummyName(c.dummySize)}
    ensures SameView(c, s, c', s') && SameContents(c, d, c', d)
    ensures c'.CK == c.CK && c'.allDocs == c.allDocs && (Warm(c) ==> Warm(c'))
    ensures c'.endofDocId == c.endofDocId && c'.replenishCounter == c.replenishCounter
    ensures c'.dummySize == c.dummySize + 1
  {
    hide IndexInv, DocInv, SameView, SameContents, WordSet, OneDummyAdded, VersionsLag, RealKeys;
    SameDocFields(c, c', d);
    DummiesRealKeys(c, 1);
    OneDummyKnown(c);
  }

  lemma OneDummyKnown(c: ClientContext)
    requires c.dummySize >= 0
    ensures DummiesAdded(c, 1).KVS.Keys == c.KVS.Keys + {DummyName(c.dummySize)}
  {
    hide DummyName;
    assert DummiesAdded(c, 0) == c;
  }

  lemma OwnHalves(c: ClientContext, s: Store, c1: ClientContext, s1: Store, c2: ClientContext, s2: Store,
                  del: seq<Text>, add: seq<Text>, bit: int)
    requires OwnFlipped(c, s, c1, s1, del, bit, false) && OwnFlipped(c1, s1, c2, s2, add, bit, true)
    ensures OwnEdited(c, s, c2, s2, del, add, bit)
  {
    hide View;
  }

  lemma ResetDelete(c: ClientContext, s: Store, c1: ClientContext, s1: Store, c2: ClientContext, s2: Store,
                    del: seq<Text>, bit: int)
    requires IndexReset(c, s, c1, s1, [], [], bit) && ViewsReset(c1, s1, c2, s2, del, bit, false)
    ensures IndexReset(c, s, c2, s2, del, [], bit)
  {
    hide View;
  }

  lemma ResetAdd(c: ClientContext, s: Store, c1: ClientContext, s1: Store, c2: ClientContext, s2: Store,
                 del: seq<Text>, add: seq<Text>, bit: int)
    requires IndexReset(c, s, c1, s1, del, [], bit) && ViewsReset(c1, s1, c2, s2, add, bit, true)
    ensures IndexReset(c, s, c2, s2, del, add, bit)
  {
    hide View;
  }

  /** The keywords filed for a slot, as DELETE and REPLACE find them. */
  function OldWords(c: ClientContext, d: DocStore, id: int): seq<Text>
  {
    if ValidId(id) then TokensOf(Contents(c, d, ToString(id)).index) else []
  }

  predicate AllReal(words: seq<Text>)
  {
    forall w :: w in words ==> Real(w)
  }

  lemma EmptySlotFits()
    ensures Fits(EMPTY_SLOT)
  {
  }

  lemma NoWords()
    ensures TokensOf([]) == []
  {
  }

  lemma KeptGives(c0: ClientContext, s0: Store, d0: DocStore, t0: Tally,
                  c: ClientContext, s: Store, d: DocStore, t: Tally)
    requires Kept(c0, s0, d0, t0, c, s, d, t)
    ensures Ready(c, s, d) && IndexInv(c, s) && DocInv(c, d) && |c.CK| <= c.ckMax && c.K == c0.K
    ensures Warm(c0) ==> Warm(c)
  {
    hide IndexInv, DocInv, Warm;
  }

  /** The keywords a request files a slot under. */
  function NewWords(req: UpdateRequest): (words: seq<Text>)
    ensures words == TokensOf(if req.flags == 1 then req.index else req.doc)
  {
    TokensOf(RawIndex(req))
  }

  /** REPLACE stops after the slot write when the slot had no index text. */
  predicate ReplaceMisses(c: ClientContext, d: DocStore, req: UpdateRequest)
  {
    req.op == OP_REPLACE && (ValidId(req.docId) ==> Contents(c, d, ToString(req.docId)).index == [])
  }

  /** The words whose bit is cleared before the new ones are set. */
  function ClearedWords(c: ClientContext, d: DocStore, req: UpdateRequest): seq<Text>
  {
    if req.op == OP_REPLACE then OldWords(c, d, req.docId) else []
  }

  /** What INSERT and REPLACE do to slots and live set. */
  ghost predicate SlotStored(c: ClientContext, d: DocStore, c': ClientContext, d': DocStore,
                             req: UpdateRequest, status: UpdateStatus)
  {
    var id := req.docId;
    && (status.NotFound? <==> ReplaceMisses(c, d, req))
    && c'.allDocs == c.allDocs + (if ValidId(id) && !status.NotFound? then {id - 1} else {})
    && (if ValidId(id) then ContentsSet(c, d, c', d', ToString(id), NewSlot(req)) else SameContents(c, d, c', d'))
  }

  /** What INSERT and REPLACE are meant to do to the index. */
  ghost predicate StoreEdited(c: ClientContext, s: Store, d: DocStore, c': ClientContext, s': Store,
                              req: UpdateRequest, status: UpdateStatus)
  {
    if ValidId(req.docId) && !status.NotFound? then
      IndexEdited(c, s, c', s', ClearedWords(c, d, req), NewWords(req), req.docId - 1)
    else SameView(c, s, c', s')
  }

  /** What they do to it from an empty keyword cache. */
  ghost predicate StoreReset(c: ClientContext, s: Store, d: DocStore, c': ClientContext, s': Store,
                             req: UpdateRequest, status: UpdateStatus)
  {
    if ValidId(req.docId) && !status.NotFound? then
      IndexReset(c, s, c', s', ClearedWords(c, d, req), NewWords(req), req.docId - 1)
    else SameView(c, s, c', s')
  }

  /** What they do to it from any cache: the document's own bit is right, and the tally tells about the others. */
  ghost predicate StoreIndexed(c: ClientContext, s: Store, d: DocStore, t: Tally, c': ClientContext, s': Store,
                               t': Tally, req: UpdateRequest, status: UpdateStatus)
  {
    if ValidId(req.docId) && !status.NotFound? then
      && OwnEdited(c, s, c', s', ClearedWords(c, d, req), NewWords(req), req.docId - 1)
      && Tallied(c, s, t, c', s', t', ClearedWords(c, d, req) + NewWords(req), req.docId - 1)
      && (t'.losses == t.losses <==>
            !LossAhead(c, s, KnownAfterArrival(c), ClearedWords(c, d, req) + NewWords(req), req.docId - 1))
    else SameView(c, s, c', s') && t'.losses == t.losses
  }

  lemma StoreIndexedEdits(c: ClientContext, s: Store, d: DocStore, t: Tally, c': ClientContext, s': Store, t': Tally,
                          req: UpdateRequest, status: UpdateStatus)
    requires StoreIndexed(c, s, d, t, c', s', t', req, status) && t'.losses == t.losses
    ensures StoreEdited(c, s, d, c', s', req, status)
  {
    hide OwnEdited, OthersKept, IndexEdited, SameView, ClearedWords, NewWords, LossAhead;
    if ValidId(req.docId) && !status.NotFound? {
      EditedByBits(c, s, c', s', ClearedWords(c, d, req), NewWords(req), req.docId - 1);
    }
  }

  /** The outcome of INSERT and REPLACE when it is not cut short. */
  ghost predicate Stored(c: ClientContext, s: Store, d: DocStore, t: Tally,
                         c': ClientContext, s': Store, d': DocStore, t': Tally, req: UpdateRequest,
                         status: UpdateStatus)
  {
    && SlotStored(c, d, c', d', req, status)
    && StoreIndexed(c, s, d, t, c', s', t', req, status)
    && (|c.CK| == 0 ==> StoreReset(c, s, d, c', s', req, status))
  }

  /** One past the highest document number stored so far. */
  function NextEnd(c: ClientContext, id: int): int
  {
    if ValidId(id) && id >= c.endofDocId then id + 1 else c.endofDocId
  }

  /**
   A valid document's words after both halves: its own bit if done, the others by the tally, which is foreseen,
   and the empty-cache case.
   */
  ghost predicate Reindexed(c: ClientContext, s: Store, t: Tally, c': ClientContext, s': Store, t': Tally,
                            del: seq<Text>, add: seq<Text>, id: int, done: bool)
  {
    ValidId(id) ==>
      && (done ==> OwnEdited(c, s, c', s', del, add, id - 1))
      && Tallied(c, s, t, c', s', t', del + add, id - 1)
      && (t'.losses == t.losses <==> !LossAhead(c, s, c.KVS.Keys, del + add, id - 1))
      && (|c.CK| == 0 ==> IndexReset(c, s, c', s', del, add, id - 1))
  }

  lemma ReindexedSame(c: ClientContext, s: Store, t: Tally, c1: ClientContext, s1: Store, t1: Tally,
                      c2: ClientContext, s2: Store, del: seq<Text>, add: seq<Text>, id: int, done: bool)
    requires Reindexed(c, s, t, c1, s1, t1, del, add, id, done) && SameView(c1, s1, c2, s2)
    ensures Reindexed(c, s, t, c2, s2, t1, del, add, id, done)
  {
    hide View, Tallied, LossAhead;
    TalliedSame(c1, s1, t1, c2, s2, t1, [], id - 1);
    if ValidId(id) {
      TalliedTrans(c, s, t, c1, s1, t1, c2, s2, t1, del + add, [], del + add, id - 1);
    }
  }

  /** One half for a valid document: its own bit if done, the others by the tally, and the empty-cache case. */
  ghost predicate HalfDone(c: ClientContext, s: Store, t: Tally, c': ClientContext, s': Store, t': Tally,
                           words: seq<Text>, id: int, add: bool, done: bool)
  {
    ValidId(id) ==>
      && (done ==> OwnFlipped(c, s, c', s', words, id - 1, add))
      && Tallied(c, s, t, c', s', t', words, id - 1)
      && Track(c, c', words) && (t'.losses == t.losses <==> !LossAhead(c, s, c.KVS.Keys, words, id - 1))
      && (|c.CK| == 0 ==> ViewsReset(c, s, c', s', words, id - 1, add))
  }

  /** What the halves share: what they keep and what they cost. */
  ghost predicate HalfKept(c: ClientContext, t: Tally, c': ClientContext, t': Tally, d: DocStore, words: seq<Text>)
  {
    && IndexFrame(c, c') && SameContents(c, d, c', d) && (|c.CK| == 0 ==> |c'.CK| == 0)
    && Spent(c, t, c', t', |words|) && Fed(c, c', WordSet(words), 0)
  }

  /** UpdateKeywords, unless there is no text. */
  method UpdateHalf(cm: ContextManager, host: Host, edb: int, docId: Text, content: Text, add: bool,
                    ghost c0: ClientContext, ghost s0: Store, ghost d0: DocStore, ghost t0: Tally)
    returns (outcome: UpdateOutcome)
    requires host.Registered(edb) && Kept(c0, s0, d0, t0, cm.ctx, host.bitmaps[edb], host.docs[edb], cm.tally)
    requires AllReal(TokensOf(content))
    modifies cm`ctx, cm`tally, host`bitmaps, host`trace
    ensures outcome.Completed? || outcome.InvalidId? ==> cm.tally.misses == old(cm.tally.misses)
    ensures outcome.SomeSkipped? ==> cm.tally.misses > old(cm.tally.misses)
    ensures outcome.OutOfCapacity? ==> cm.ctx.dummyCount <= 0 && old(cm.ctx.dummyCount) < |TokensOf(content)|
    ensures outcome.OutOfCapacity? ==>
      Hungry(cm.ctx, WordSet(TokensOf(content))) && |cm.ctx.CK| >= cm.ctx.ckMax != |cm.ctx.KVS|
    ensures edb in host.bitmaps && host.bitmaps == old(host.bitmaps)[edb := host.bitmaps[edb]]
    ensures Kept(c0, s0, d0, t0, cm.ctx, host.bitmaps[edb], host.docs[edb], cm.tally)
    ensures HalfKept(old(cm.ctx), old(cm.tally), cm.ctx, cm.tally, host.docs[edb], TokensOf(content))
    ensures outcome.InvalidId? ==> !ValidId(Atoi(docId))
    ensures !ValidId(Atoi(docId)) ==>
      && (outcome.InvalidId? || outcome.Completed?)
      && cm.ctx == old(cm.ctx) && host.bitmaps == old(host.bitmaps) && cm.tally == old(cm.tally)
    ensures |old(cm.ctx.CK)| == 0 ==> outcome.Completed? || outcome.InvalidId?
    ensures HalfDone(old(cm.ctx), old(host.bitmaps)[edb], old(cm.tally), cm.ctx, host.bitmaps[edb], cm.tally,
                     TokensOf(content), Atoi(docId), add, outcome.Completed?)
  {
    hide IndexInv, DocInv, SameView, SameContents, Kept, RoundsOk, TokensOf, Atoi;
    hide ViewsFlipped, OwnFlipped, Tallied, ViewsReset, ViewsPartly, Ready, Fresh, NoOverwrite, View, UpdateFrame, Warm,
         NeverCold, Track, LossAhead, Fed, Hungry, WordSet;
    ghost var c, s, d, t := cm.ctx, host.bitmaps[edb], host.docs[edb], cm.tally;
    KeptGives(c0, s0, d0, t0, c, s, d, t);
    SameContentsRefl(c, d);
    outcome := Completed;
    if content == [] {
      NoWords();
      NothingListed(c, s, t, Atoi(docId) - 1, add);
      NothingCosts(c, s, Atoi(docId) - 1);
      assert host.bitmaps == host.bitmaps[edb := s];
      return;
    }
    outcome := UpdateKeywords(cm, host, edb, docId, content, add);
    KeptByRounds(c0, s0, d0, t0, c, s, d, t, cm.ctx, host.bitmaps[edb], cm.tally);
    RoundsGive(c, s, t, cm.ctx, host.bitmaps[edb], cm.tally);
  }

  lemma NothingListed(c: ClientContext, s: Store, t: Tally, bit: int, add: bool)
    ensures OwnFlipped(c, s, c, s, [], bit, add) && ViewsReset(c, s, c, s, [], bit, add)
    ensures Tallied(c, s, t, c, s, t, [], bit)
  {
    hide View;
  }

  lemma NothingCosts(c: ClientContext, s: Store, bit: int)
    requires |c.CK| <= c.ckMax
    ensures Track(c, c, []) && Fed(c, c, WordSet([]), 0) && !LossAhead(c, s, c.KVS.Keys, [], bit)
  {
    hide View, Steadfast;
    TrackStart(c);
    FedSame(c, c, 0);
    assert WordSet([]) == {};
  }

  lemma RoundsGive(c: ClientContext, s: Store, t: Tally, c': ClientContext, s': Store, t': Tally)
    requires RoundsOk(c, s, t, c', s', t')
    ensures (Warm(c) ==> Warm(c')) && IndexFrame(c, c') && Grew(t, t')
  {
    hide IndexInv, Fresh, NoOverwrite, WordSet;
  }

  /** The keyword half of INSERT and REPLACE: clear the old words' bit, then set the new words'. */
  method Reindex(cm: ContextManager, host: Host, edb: int, docId: Text, oldIndex: Text, newIndex: Text,
                 ghost c0: ClientContext, ghost s0: Store, ghost d0: DocStore, ghost t0: Tally)
    returns (outcome: UpdateOutcome)
    requires host.Registered(edb) && Kept(c0, s0, d0, t0, cm.ctx, host.bitmaps[edb], host.docs[edb], cm.tally)
    requires AllReal(TokensOf(oldIndex)) && AllReal(TokensOf(newIndex))
    modifies cm`ctx, cm`tally, host`bitmaps, host`trace
    ensures outcome.Completed? || outcome.InvalidId? ==> cm.tally.misses == old(cm.tally.misses)
    ensures outcome.SomeSkipped? ==> cm.tally.misses > old(cm.tally.misses)
    ensures outcome.OutOfCapacity? ==>
      cm.ctx.dummyCount <= 0 && old(cm.ctx.dummyCount) < |TokensOf(oldIndex)| + |TokensOf(newIndex)|
    ensures outcome.OutOfCapacity? ==> Hungry(cm.ctx, WordSet(TokensOf(oldIndex) + TokensOf(newIndex)))
    ensures Fed(old(cm.ctx), cm.ctx, WordSet(TokensOf(oldIndex) + TokensOf(newIndex)), 0)
    ensures edb in host.bitmaps && host.bitmaps == old(host.bitmaps)[edb := host.bitmaps[edb]]
    ensures Kept(c0, s0, d0, t0, cm.ctx, host.bitmaps[edb], host.docs[edb], cm.tally)
    ensures SameContents(old(cm.ctx), host.docs[edb], cm.ctx, host.docs[edb])
    ensures IndexFrame(old(cm.ctx), cm.ctx)
    ensures Spent(old(cm.ctx), old(cm.tally), cm.ctx, cm.tally, |TokensOf(oldIndex)| + |TokensOf(newIndex)|)
    ensures outcome.InvalidId? ==> !ValidId(Atoi(docId))
    ensures !ValidId(Atoi(docId)) ==>
      && (outcome.InvalidId? || outcome.Completed?)
      && cm.ctx == old(cm.ctx) && host.bitmaps == old(host.bitmaps) && cm.tally == old(cm.tally)
    ensures |old(cm.ctx.CK)| == 0 ==> (outcome.Completed? || outcome.InvalidId?) && |cm.ctx.CK| == 0
    ensures Reindexed(old(cm.ctx), old(host.bitmaps)[edb], old(cm.tally), cm.ctx, host.bitmaps[edb], cm.tally,
                      TokensOf(oldIndex), TokensOf(newIndex), Atoi(docId), outcome.Completed?)
  {
    hide SameContents, Kept, TokensOf, Atoi, AllReal, HalfDone, HalfKept, Reindexed, Spent, Fed, Hungry, WordSet;
    ghost var c, s, d, t := cm.ctx, host.bitmaps[edb], host.docs[edb], cm.tally;
    ghost var del, add := TokensOf(oldIndex), TokensOf(newIndex);
    outcome := UpdateHalf(cm, host, edb, docId, oldIndex, false, c0, s0, d0, t0);
    ghost var c1, s1, t1 := cm.ctx, host.bitmaps[edb], cm.tally;
    HalfKeptGives(c, t, c1, t1, d, del, add);
    if outcome.OutOfCapacity? {
      HalfIsNotAll(c, s, t, c1, s1, t1, del, add, Atoi(docId));
      HungryMore(c1, del, del, add);
      return;
    }
    var added := UpdateHalf(cm, host, edb, docId, newIndex, true, c0, s0, d0, t0);
    HalvesKept(c, t, c1, t1, cm.ctx, cm.tally, d, del, add);
    HalvesDone(c, s, t, c1, s1, t1, cm.ctx, host.bitmaps[edb], cm.tally, d, del, add, Atoi(docId),
               outcome.Completed?, added.Completed?);
    if added.OutOfCapacity? {
      HungryMore(cm.ctx, add, del, add);
    }
    if !added.Completed? {
      outcome := added;
    }
  }

  lemma HalfKeptGives(c: ClientContext, t: Tally, c': ClientContext, t': Tally, d: DocStore, del: seq<Text>,
                      add: seq<Text>)
    requires HalfKept(c, t, c', t', d, del)
    ensures IndexFrame(c, c') && SameContents(c, d, c', d) && (|c.CK| == 0 ==> |c'.CK| == 0)
    ensures Spent(c, t, c', t', |del| + |add|) && t'.misses >= t.misses && c'.dummyCount >= c.dummyCount - |del|
    ensures Fed(c, c', WordSet(del + add), 0)
  {
    hide SameContents, Warm, Fed;
    assert WordSet(del) <= WordSet(del + add);
    FedMore(c, c', WordSet(del), WordSet(del + add), 0);
  }

  lemma HalvesKept(c: ClientContext, t: Tally, c1: ClientContext, t1: Tally, c2: ClientContext, t2: Tally, d: DocStore,
                   del: seq<Text>, add: seq<Text>)
    requires HalfKept(c, t, c1, t1, d, del) && HalfKept(c1, t1, c2, t2, d, add)
    ensures Spent(c, t, c2, t2, |del| + |add|) && t2.misses >= t1.misses >= t.misses
    ensures IndexFrame(c, c2) && SameContents(c, d, c2, d) && (|c.CK| == 0 ==> |c2.CK| == 0)
    ensures Fed(c, c2, WordSet(del + add), 0)
  {
    hide SameContents, Warm, Fed;
    SameContentsTrans(c, d, c1, d, c2, d);
    SpentTrans(c, t, c1, t1, c2, t2, |del|, |add|);
    FedTrans(c, c1, c2, WordSet(del), WordSet(add), 0, 0);
    assert WordSet(del + add) == WordSet(del) + WordSet(add);
  }

  lemma HungryMore(c: ClientContext, words: seq<Text>, del: seq<Text>, add: seq<Text>)
    requires Hungry(c, WordSet(words)) && (words == del || words == add)
    ensures Hungry(c, WordSet(del + add))
  {
    hide Real;
    assert WordSet(words) <= WordSet(del + add);
  }

  lemma HalfIsNotAll(c: ClientContext, s: Store, t: Tally, c': ClientContext, s': Store, t': Tally,
                     del: seq<Text>, add: seq<Text>, id: int)
    requires |c.CK| > 0 && HalfDone(c, s, t, c', s', t', del, id, false, false) && |c'.CK| >= c'.ckMax != |c'.KVS|
    ensures Reindexed(c, s, t, c', s', t', del, add, id, false)
  {
    hide View, Tallied, Track, LossAhead;
    if ValidId(id) {
      LossStuck(c, s, c', del, add, id - 1);
      NothingListed(c', s', t', id - 1, false);
      TalliedTrans(c, s, t, c', s', t', c', s', t', del, [], del + add, id - 1);
    }
  }

  lemma HalvesDone(c: ClientContext, s: Store, t: Tally, c1: ClientContext, s1: Store, t1: Tally,
                   c2: ClientContext, s2: Store, t2: Tally, d: DocStore,
                   del: seq<Text>, add: seq<Text>, id: int, first: bool, second: bool)
    requires HalfKept(c, t, c1, t1, d, del)
    requires HalfDone(c, s, t, c1, s1, t1, del, id, false, first)
    requires HalfDone(c1, s1, t1, c2, s2, t2, add, id, true, second)
    ensures Reindexed(c, s, t, c2, s2, t2, del, add, id, first && second)
  {
    hide OwnFlipped, OwnEdited, ViewsReset, IndexReset, SameContents, Tallied, Spent, Track, LossAhead, Fed;
    if ValidId(id) {
      LossJoinsFrom(c, s, t, c1, s1, t1, c2, s2, t2, del, add, id - 1);
      TalliedTrans(c, s, t, c1, s1, t1, c2, s2, t2, del, add, del + add, id - 1);
      if |c.CK| == 0 {
        ResetSelf(c, s, id - 1);
        ResetDelete(c, s, c, s, c1, s1, del, id - 1);
        ResetAdd(c, s, c1, s1, c2, s2, del, add, id - 1);
      }
      if first && second {
        OwnHalves(c, s, c1, s1, c2, s2, del, add, id - 1);
      }
    }
  }

  lemma LossJoinsFrom(c: ClientContext, s: Store, t: Tally, c1: ClientContext, s1: Store, t1: Tally,
                      c2: ClientContext, s2: Store, t2: Tally, del: seq<Text>, add: seq<Text>, bit: int)
    requires Track(c, c1, del) && Tallied(c, s, t, c1, s1, t1, del, bit) && Tallied(c1, s1, t1, c2, s2, t2, add, bit)
    requires t1.losses == t.losses <==> !LossAhead(c, s, c.KVS.Keys, del, bit)
    requires t2.losses == t1.losses <==> !LossAhead(c1, s1, c1.KVS.Keys, add, bit)
    ensures t2.losses == t.losses <==> !LossAhead(c, s, c.KVS.Keys, del + add, bit)
  {
    hide Track, LossAhead, NoneGained, OthersKept, OthersLost;
    LossJoins(c, s, t, c1, s1, t1, t2, del, add, bit);
  }

  lemma ResetSelf(c: ClientContext, s: Store, bit: int)
    ensures IndexReset(c, s, c, s, [], [], bit)
  {
    hide View;
  }

  /** What DELETE does to slots and live set. */
  ghost predicate SlotDeleted(c: ClientContext, d: DocStore, c': ClientContext, d': DocStore, id: int)
  {
    && c'.allDocs == c.allDocs - (if ValidId(id) then {id - 1} else {})
    && (if ValidId(id) then ContentsSet(c, d, c', d', ToString(id), EMPTY_SLOT) else SameContents(c, d, c', d'))
  }

  ghost predicate DeleteEdited(c: ClientContext, s: Store, d: DocStore, c': ClientContext, s': Store, id: int)
  {
    if ValidId(id) then IndexEdited(c, s, c', s', OldWords(c, d, id), [], id - 1) else SameView(c, s, c', s')
  }

  ghost predicate DeleteReset(c: ClientContext, s: Store, d: DocStore, c': ClientContext, s': Store, id: int)
  {
    if ValidId(id) then IndexReset(c, s, c', s', OldWords(c, d, id), [], id - 1) else SameView(c, s, c', s')
  }

  ghost predicate DeleteIndexed(c: ClientContext, s: Store, d: DocStore, t: Tally,
                                c': ClientContext, s': Store, t': Tally, id: int)
  {
    if ValidId(id) then
      && OwnEdited(c, s, c', s', OldWords(c, d, id), [], id - 1)
      && Tallied(c, s, t, c', s', t', OldWords(c, d, id), id - 1)
      && (t'.losses == t.losses <==> !LossAhead(c, s, c.KVS.Keys, OldWords(c, d, id), id - 1))
    else SameView(c, s, c', s') && t'.losses == t.losses
  }

  lemma DeleteIndexedEdits(c: ClientContext, s: Store, d: DocStore, t: Tally, c': ClientContext, s': Store, t': Tally,
                           id: int)
    requires DeleteIndexed(c, s, d, t, c', s', t', id) && t'.losses == t.losses
    ensures DeleteEdited(c, s, d, c', s', id)
  {
    hide OwnEdited, OthersKept, IndexEdited, SameView, OldWords, LossAhead;
    if ValidId(id) {
      EditedByBits(c, s, c', s', OldWords(c, d, id), [], id - 1);
    }
  }

  /** The outcome of DELETE when it is not cut short. */
  ghost predicate Deleted(c: ClientContext, s: Store, d: DocStore, t: Tally,
                          c': ClientContext, s': Store, d': DocStore, t': Tally, id: int)
  {
    && SlotDeleted(c, d, c', d', id)
    && DeleteIndexed(c, s, d, t, c', s', t', id)
    && (|c.CK| == 0 ==> DeleteReset(c, s, d, c', s', id))
  }

  /** all_docs after a document was deleted. */
  method MarkDead(cm: ContextManager, id: int)
    modifies cm`ctx
    ensures cm.ctx == old(cm.ctx).(allDocs := old(cm.ctx.allDocs) - (if ValidId(id) then {id - 1} else {}))
    ensures SameData(old(cm.ctx), cm.ctx)
  {
    if ValidId(id) {
      cm.ctx := cm.ctx.(allDocs := cm.ctx.allDocs - {id - 1});
    }
  }

  /** The end of DELETE: the live bit, then the replenishing. */
  method FinishDelete(cm: ContextManager, host: Host, edb: int, id: int,
                      ghost c0: ClientContext, ghost s0: Store, ghost d0: DocStore, ghost t0: Tally)
    requires host.Registered(edb) && Kept(c0, s0, d0, t0, cm.ctx, host.bitmaps[edb], host.docs[edb], cm.tally)
    requires cm.ctx.dummySize == c0.dummySize < DUMMY_LIMIT
    modifies cm`ctx, host`bitmaps, host`trace
    ensures edb in host.bitmaps && host.bitmaps == old(host.bitmaps)[edb := host.bitmaps[edb]]
    ensures Kept(c0, s0, d0, t0, cm.ctx, host.bitmaps[edb], host.docs[edb], cm.tally)
    ensures SameView(old(cm.ctx), old(host.bitmaps)[edb], cm.ctx, host.bitmaps[edb])
    ensures SameContents(old(cm.ctx), host.docs[edb], cm.ctx, host.docs[edb])
    ensures cm.ctx.allDocs == old(cm.ctx.allDocs) - (if ValidId(id) then {id - 1} else {})
    ensures cm.ctx.endofDocId == old(cm.ctx.endofDocId) && Replenished(old(cm.ctx), cm.ctx)
    ensures cm.ctx.CK == old(cm.ctx.CK) && (Warm(old(cm.ctx)) ==> Warm(cm.ctx))
    ensures cm.ctx.dummyCount == old(cm.ctx.dummyCount) + Arrival(old(cm.ctx))
    ensures RealKeys(cm.ctx) == RealKeys(old(cm.ctx))
    ensures cm.ctx.K == old(cm.ctx.K) && cm.ctx.slotVersion == old(cm.ctx.slotVersion)
  {
    hide Kept, SameView, SameContents, RealKeys;
    ghost var c, s, d := cm.ctx, host.bitmaps[edb], host.docs[edb];
    MarkDead(cm, id);
    ghost var c1 := cm.ctx;
    SameDataKeys(c, c1);
    KeptBySameData(c0, s0, d0, t0, c, s, d, cm.tally, c1);
    Replenish(cm, host, edb, c0, s0, d0, t0);
    SameTrans(c, s, c1, s, cm.ctx, host.bitmaps[edb]);
    SameContentsTrans(c, d, c1, d, cm.ctx, d);
  }

  lemma SameDataKeys(c: ClientContext, c': ClientContext)
    requires SameData(c, c')
    ensures RealKeys(c') == RealKeys(c) && c'.dummyCount == c.dummyCount
    ensures c'.replenishCounter == c.replenishCounter ==> Arrival(c') == Arrival(c)
  {
    hide Real;
  }

  /** The DELETE branch of handle_update. */
  method HandleDelete(cm: ContextManager, host: Host, edb: int, id: int) returns (status: UpdateStatus)
    requires host.Registered(edb) && Ready(cm.ctx, host.bitmaps[edb], host.docs[edb])
    requires cm.ctx.dummySize < DUMMY_LIMIT && AllReal(OldWords(cm.ctx, host.docs[edb], id))
    modifies cm`ctx, cm`tally, host`bitmaps, host`docs, host`trace
    ensures status.Applied? || status.NotFound? ==> cm.tally.misses == old(cm.tally.misses)
    ensures status.Incomplete? ==> cm.tally.misses > old(cm.tally.misses)
    ensures status.NoRoom? ==>
      && cm.ctx.dummyCount <= 0 && old(cm.ctx.dummyCount) < |OldWords(old(cm.ctx), old(host.docs)[edb], id)|
      && Hungry(cm.ctx, WordSet(OldWords(old(cm.ctx), old(host.docs)[edb], id)))
      && cm.ctx.replenishCounter == old(cm.ctx.replenishCounter)
    ensures Fed(old(cm.ctx), cm.ctx, WordSet(OldWords(old(cm.ctx), old(host.docs)[edb], id)),
                if status.NoRoom? then 0 else Arrival(old(cm.ctx)))
    ensures edb in host.bitmaps && host.bitmaps == old(host.bitmaps)[edb := host.bitmaps[edb]]
    ensures edb in host.docs && host.docs == old(host.docs)[edb := host.docs[edb]]
    ensures Kept(old(cm.ctx), old(host.bitmaps)[edb], old(host.docs)[edb], old(cm.tally),
                 cm.ctx, host.bitmaps[edb], host.docs[edb], cm.tally)
    ensures VersionsKept(old(cm.ctx), old(host.docs)[edb], cm.ctx, host.docs[edb], 2)
    ensures Spent(old(cm.ctx), old(cm.tally), cm.ctx, cm.tally, |OldWords(old(cm.ctx), old(host.docs)[edb], id)|)
    ensures !status.NotFound?
    ensures |old(cm.ctx.CK)| == 0 ==> status.Applied? && |cm.ctx.CK| == 0
    ensures !status.NoRoom? ==> Replenished(old(cm.ctx), cm.ctx) && cm.ctx.endofDocId == old(cm.ctx.endofDocId)
    ensures status.Applied? ==>
      Deleted(old(cm.ctx), old(host.bitmaps)[edb], old(host.docs)[edb], old(cm.tally),
              cm.ctx, host.bitmaps[edb], host.docs[edb], cm.tally, id)
    ensures status.Applied? ==> Gone(old(cm.ctx), old(host.docs)[edb], cm.ctx, host.bitmaps[edb], host.docs[edb], id)
  {
    hide IndexInv, DocInv, SameView, SameContents, ContentsSet, Kept, Contents, TokensOf, ToString, DocKey;
    hide Reindexed, Fits, Atoi, Deleted, AllReal, Warm, NeverCold, Ready, Fresh, NoOverwrite, View, UpdateFrame;
    hide VersionsLag, NoRegress, NoWrap, VersionsKept, SameData, Replenished, Spent, IndexFrame, OldWords, Fed, Hungry,
         RealKeys, WordSet, Arrival;
    ghost var c0, s0, d0, t0 := cm.ctx, host.bitmaps[edb], host.docs[edb], cm.tally;
    KeptRefl(c0, s0, d0, t0);
    KeptGives(c0, s0, d0, t0, c0, s0, d0, t0);
    ValidIdIsKey(id);
    EmptySlotFits();
    EmptyReal();
    NoWords();
    var docIdStr := ToString(id);
    var found, before := RunSlotUpdate(cm, host, edb, docIdStr, _ => EMPTY_SLOT);
    ghost var c1, d1 := cm.ctx, host.docs[edb];
    KeptByDocs(c0, s0, d0, t0, c0, s0, d0, t0, c1, d1);
    var oldIndex: Text := if found then before.index else [];
    FoundWords(c0, d0, id, found, before);
    var outcome := Reindex(cm, host, edb, docIdStr, oldIndex, [], c0, s0, d0, t0);
    ghost var c2, s2, t2 := cm.ctx, host.bitmaps[edb], cm.tally;
    ghost var n := |TokensOf(oldIndex)|;
    FrameFields(c1, c2, id);
    SlotsThenRounds(c0, d0, t0, c1, d1, c2, t2, 2, n);
    assert TokensOf(oldIndex) + [] == TokensOf(oldIndex);
    SlotsThenFed(c0, c1, c2, WordSet(TokensOf(oldIndex)));
    if outcome.OutOfCapacity? {
      return NoRoom;
    }
    FinishDelete(cm, host, edb, id, c0, s0, d0, t0);
    ThenArrived(c0, c2, cm.ctx, WordSet(TokensOf(oldIndex)), Arrival(c0));
    SameCounters(c0, c2, cm.ctx);
    ThenReplenished(c0, d0, t0, c2, d1, t2, cm.ctx, 2, n);
    status := if outcome.SomeSkipped? then Incomplete else Applied;
    if status.Applied? {
      ReindexedInvalid(c1, s0, t0, c2, s2, t2, TokensOf(oldIndex), TokensOf([]), id);
      DeletedDone(c0, s0, d0, t0, c1, d1, c2, s2, t2, cm.ctx, host.bitmaps[edb], id, oldIndex);
      DeletedIsGone(c0, s0, d0, t0, cm.ctx, host.bitmaps[edb], d1, cm.tally, id);
    }
  }

  lemma FoundWords(c: ClientContext, d: DocStore, id: int, found: bool, before: Slot)
    requires found <==> ValidId(id)
    requires found ==> before == Contents(c, d, ToString(id))
    ensures OldWords(c, d, id) == TokensOf(if found then before.index else [])
  {
    hide TokensOf, Contents, ToString;
    NoWords();
  }

  /** A slot operation, then keyword rounds. */
  lemma SlotsThenRounds(c0: ClientContext, d0: DocStore, t0: Tally, c1: ClientContext, d1: DocStore,
                        c2: ClientContext, t2: Tally, k: nat, n: nat)
    requires DocFrame(c0, c1) && VersionsKept(c0, d0, c1, d1, k)
    requires IndexFrame(c1, c2) && Spent(c1, t0, c2, t2, n)
    ensures Spent(c0, t0, c2, t2, n) && VersionsKept(c0, d0, c2, d1, k)
  {
    hide Spent, VersionsKept;
    SpentNothing(c0, t0, c1);
    SpentTrans(c0, t0, c1, t0, c2, t2, 0, n);
    VersionsUntouched(c1, d1, c2, 0);
    VersionsKeptTrans(c0, d0, c1, d1, c2, d1, k, 0);
  }

  lemma SlotsThenFed(c0: ClientContext, c1: ClientContext, c2: ClientContext, words: set<Text>)
    requires DocFrame(c0, c1) && Fed(c1, c2, words, 0) && IndexFrame(c1, c2)
    ensures Fed(c0, c2, words, 0) && Arrival(c2) == Arrival(c0)
  {
    hide Real;
    assert RealKeys(c1) == RealKeys(c0);
  }

  lemma ThenArrived(c0: ClientContext, c1: ClientContext, c2: ClientContext, words: set<Text>, n: int)
    requires Fed(c0, c1, words, 0) && RealKeys(c2) == RealKeys(c1) && c2.dummyCount == c1.dummyCount + n
    ensures Fed(c0, c2, words, n)
  {
    hide RealKeys;
  }

  lemma ThenReplenished(c0: ClientContext, d0: DocStore, t0: Tally, c2: ClientContext, d2: DocStore, t2: Tally,
                        c4: ClientContext, k: nat, n: nat)
    requires Spent(c0, t0, c2, t2, n) && VersionsKept(c0, d0, c2, d2, k) && c2.K == c0.K
    requires c4.CK == c2.CK && c4.dummyCount >= c2.dummyCount && (Warm(c2) ==> Warm(c4))
    requires c4.K == c2.K && c4.slotVersion == c2.slotVersion
    ensures Spent(c0, t0, c4, t2, n) && VersionsKept(c0, d0, c4, d2, k)
  {
    hide Spent, VersionsKept;
    SpentNothing(c2, t2, c4);
    SpentTrans(c0, t0, c2, t2, c4, t2, n, 0);
    VersionsUntouched(c2, d2, c4, 0);
    VersionsKeptTrans(c0, d0, c2, d2, c4, d2, k, 0);
  }

  lemma SameCounters(c: ClientContext, c1: ClientContext, c2: ClientContext)
    requires c1.replenishCounter == c.replenishCounter && c1.dummySize == c.dummySize && Replenished(c1, c2)
    ensures Replenished(c, c2)
  {
  }

  lemma DeletedDone(c0: ClientContext, s0: Store, d0: DocStore, t0: Tally, c1: ClientContext, d1: DocStore,
                    c2: ClientContext, s2: Store, t2: Tally, c4: ClientContext, s4: Store,
                    id: int, oldIndex: Text)
    requires DocFrame(c0, c1) && IndexFrame(c1, c2) && SameView(c0, s0, c1, s0)
    requires if ValidId(id) then ContentsSet(c0, d0, c1, d1, ToString(id), EMPTY_SLOT)
             else c1 == c0 && d1 == d0 && c2 == c1 && s2 == s0 && t2 == t0
    requires OldWords(c0, d0, id) == TokensOf(oldIndex) && TokensOf([]) == []
    requires SameContents(c1, d1, c2, d1) && SameContents(c2, d1, c4, d1) && SameView(c2, s2, c4, s4)
    requires Reindexed(c1, s0, t0, c2, s2, t2, TokensOf(oldIndex), TokensOf([]), id, true)
    requires c4.allDocs == c2.allDocs - (if ValidId(id) then {id - 1} else {})
    ensures Deleted(c0, s0, d0, t0, c4, s4, d1, t2, id)
  {
    hide View, Contents, DocKey, TokensOf, ToString, OldWords, Reindexed, Deleted, SameView;
    assert c1.KVS == c0.KVS;
    var words := TokensOf(oldIndex);
    ReindexedSame(c1, s0, t0, c2, s2, t2, c4, s4, words, [], id, true);
    ReindexedOnto(c0, s0, c1, s0, t0, c4, s4, t2, words, [], id);
    assert words + [] == words;
    SameContentsTrans(c1, d1, c2, d1, c4, d1);
    SlotsDeleted(c0, d0, c1, d1, c4, id);
    DeletedParts(c0, s0, d0, t0, c4, s4, d1, t2, id);
  }

  lemma SlotsDeleted(c0: ClientContext, d0: DocStore, c1: ClientContext, d1: DocStore, c4: ClientContext, id: int)
    requires if ValidId(id) then ContentsSet(c0, d0, c1, d1, ToString(id), EMPTY_SLOT) else c1 == c0 && d1 == d0
    requires SameContents(c1, d1, c4, d1) && c1.allDocs == c0.allDocs
    requires c4.allDocs == c1.allDocs - (if ValidId(id) then {id - 1} else {})
    ensures SlotDeleted(c0, d0, c4, d1, id)
  {
    hide Contents, DocKey, ToString;
  }

  lemma DeletedParts(c: ClientContext, s: Store, d: DocStore, t: Tally,
                     c': ClientContext, s': Store, d': DocStore, t': Tally, id: int)
    requires SlotDeleted(c, d, c', d', id) && OldWords(c, d, id) + [] == OldWords(c, d, id)
    requires ReindexedAs(c, s, c.KVS.Keys, t, c', s', t', OldWords(c, d, id), [], id)
    requires !ValidId(id) ==> SameView(c, s, c', s') && t' == t
    ensures Deleted(c, s, d, t, c', s', d', t', id)
  {
    hide SlotDeleted, OldWords, OwnEdited, Tallied, IndexReset, SameView, LossAhead;
  }

  /** After the slot write of INSERT and REPLACE, before any keyword round. */
  ghost predicate SlotWritten(c0: ClientContext, s0: Store, d0: DocStore, t: Tally, c: ClientContext, s: Store,
                              d: DocStore, req: UpdateRequest, found: bool, before: Slot)
  {
    && Kept(c0, s0, d0, t, c, s, d, t) && Replenished(c0, c) && c.CK == c0.CK && c.endofDocId == c0.endofDocId
    && c.dummyCount == c0.dummyCount + Arrival(c0) && RealKeys(c) == RealKeys(c0) && VersionsKept(c0, d0, c, d, 2)
    && c.KVS.Keys == KnownAfterArrival(c0) && c.ckMax == c0.ckMax
    && SameView(c0, s0, c, s) && c.allDocs == c0.allDocs
    && (if ValidId(req.docId) then ContentsSet(c0, d0, c, d, ToString(req.docId), NewSlot(req))
        else SameContents(c0, d0, c, d))
    && (ReplaceMisses(c0, d0, req) <==> req.op == OP_REPLACE && (found ==> before.index == []))
    && (ReplaceMisses(c0, d0, req) ==> Stored(c0, s0, d0, t, c, s, d, t, req, NotFound))
    && ClearedWords(c0, d0, req) == if found && req.op == OP_REPLACE then TokensOf(before.index) else []
  }

  /** The replenishing and the slot write. */
  method WriteSlot(cm: ContextManager, host: Host, edb: int, req: UpdateRequest) returns (found: bool, before: Slot)
    requires host.Registered(edb) && Ready(cm.ctx, host.bitmaps[edb], host.docs[edb])
    requires cm.ctx.dummySize < DUMMY_LIMIT && Fits(NewSlot(req))
    modifies cm`ctx, host`bitmaps, host`docs, host`trace
    ensures edb in host.bitmaps && host.bitmaps == old(host.bitmaps)[edb := host.bitmaps[edb]]
    ensures edb in host.docs && host.docs == old(host.docs)[edb := host.docs[edb]]
    ensures SlotWritten(old(cm.ctx), old(host.bitmaps)[edb], old(host.docs)[edb], cm.tally,
                        cm.ctx, host.bitmaps[edb], host.docs[edb], req, found, before)
  {
    hide IndexInv, DocInv, SameView, SameContents, ContentsSet, Kept, Contents, TokensOf, ToString, DocKey;
    hide Fits, Atoi, Stored, NewSlot, Warm, ReplaceMisses, ClearedWords;
    hide Ready, Fresh, VersionsLag, NoRegress, NoWrap, VersionsKept, NoOverwrite, View, RawIndex, KnownAfterArrival,
         Arrival, RealKeys;
    ghost var c0, s0, d0, t := cm.ctx, host.bitmaps[edb], host.docs[edb], cm.tally;
    ValidIdIsKey(req.docId);
    KeptRefl(c0, s0, d0, t);
    Replenish(cm, host, edb, c0, s0, d0, t);
    ghost var c1, s1 := cm.ctx, host.bitmaps[edb];
    KeptGives(c0, s0, d0, t, c1, s1, d0, t);
    var docIdStr := ToString(req.docId);
    var newSlot := NewSlot(req);
    found, before := RunSlotUpdate(cm, host, edb, docIdStr, _ => newSlot);
    ghost var c2, d2 := cm.ctx, host.docs[edb];
    KeptByDocs(c0, s0, d0, t, c1, s1, d0, t, c2, d2);
    VersionsUntouched(c0, d0, c1, 0);
    VersionsKeptTrans(c0, d0, c1, d0, c2, d2, 0, 2);
    DocFrameKeys(c1, c2);
    if found {
      SameAt(c0, d0, c1, d0, docIdStr);
    }
    SlotStoredFirst(c0, s0, d0, t, c1, s1, c2, d2, req, found, before);
  }

  lemma ThenFed(c0: ClientContext, c1: ClientContext, c2: ClientContext, words: set<Text>, n: int)
    requires Fed(c0, c1, {}, n) && Fed(c1, c2, words, 0)
    ensures Fed(c0, c2, words, n)
  {
    hide Fed;
    FedTrans(c0, c1, c2, {}, words, n, 0);
    assert {} + words == words;
  }

  lemma DocFrameKeys(c: ClientContext, c': ClientContext)
    requires DocFrame(c, c')
    ensures RealKeys(c') == RealKeys(c)
  {
    hide Real;
  }

  /** The INSERT and REPLACE branch of handle_update. */
  method HandleStore(cm: ContextManager, host: Host, edb: int, req: UpdateRequest) returns (status: UpdateStatus)
    requires host.Registered(edb) && Ready(cm.ctx, host.bitmaps[edb], host.docs[edb]) && req.op != OP_DELETE
    requires cm.ctx.dummySize < DUMMY_LIMIT && Fits(NewSlot(req)) && AllReal(NewWords(req))
    requires AllReal(ClearedWords(cm.ctx, host.docs[edb], req))
    modifies cm`ctx, cm`tally, host`bitmaps, host`docs, host`trace
    ensures status.Applied? || status.NotFound? ==> cm.tally.misses == old(cm.tally.misses)
    ensures status.Incomplete? ==> cm.tally.misses > old(cm.tally.misses)
    ensures status.NoRoom? ==>
      && cm.ctx.dummyCount <= 0
      && old(cm.ctx.dummyCount) < |ClearedWords(old(cm.ctx), old(host.docs)[edb], req)| + |NewWords(req)|
      && Hungry(cm.ctx, WordSet(ClearedWords(old(cm.ctx), old(host.docs)[edb], req) + NewWords(req)))
    ensures status.NoRoom? ==> ValidId(req.docId)
    ensures status.NotFound? <==> ReplaceMisses(old(cm.ctx), old(host.docs)[edb], req)
    ensures Fed(old(cm.ctx), cm.ctx,
                if status.NotFound? || !ValidId(req.docId) then {}
                else WordSet(ClearedWords(old(cm.ctx), old(host.docs)[edb], req) + NewWords(req)),
                Arrival(old(cm.ctx)))
    ensures edb in host.bitmaps && host.bitmaps == old(host.bitmaps)[edb := host.bitmaps[edb]]
    ensures edb in host.docs && host.docs == old(host.docs)[edb := host.docs[edb]]
    ensures Kept(old(cm.ctx), old(host.bitmaps)[edb], old(host.docs)[edb], old(cm.tally),
                 cm.ctx, host.bitmaps[edb], host.docs[edb], cm.tally)
    ensures VersionsKept(old(cm.ctx), old(host.docs)[edb], cm.ctx, host.docs[edb], 2)
    ensures Spent(old(cm.ctx), old(cm.tally), cm.ctx, cm.tally,
                  |ClearedWords(old(cm.ctx), old(host.docs)[edb], req)| + |NewWords(req)|)
    ensures |old(cm.ctx.CK)| == 0 ==> (status.Applied? || status.NotFound?) && |cm.ctx.CK| == 0
    ensures Replenished(old(cm.ctx), cm.ctx)
    ensures status.NotFound? ==> cm.ctx.endofDocId == old(cm.ctx.endofDocId)
    ensures status.Applied? ==> cm.ctx.endofDocId == NextEnd(old(cm.ctx), req.docId)
    ensures status.Applied? || status.NotFound? ==>
      Stored(old(cm.ctx), old(host.bitmaps)[edb], old(host.docs)[edb], old(cm.tally),
             cm.ctx, host.bitmaps[edb], host.docs[edb], cm.tally, req, status)
    ensures status.Applied? || status.NotFound? ==>
      AsSent(old(cm.ctx), cm.ctx, host.bitmaps[edb], host.docs[edb], req, status.Applied?)
  {
    hide IndexInv, DocInv, SameView, SameContents, ContentsSet, Kept, Contents, TokensOf, ToString, DocKey;
    hide Reindexed, Fits, Atoi, Stored, NewSlot, AllReal, Warm, NeverCold, ReplaceMisses, ClearedWords, NewWords;
    hide Ready, Fresh, NoOverwrite, View, RawIndex, SlotWritten, Replenished, NextEnd, UpdateFrame, Spent, VersionsKept,
         Fed, Hungry, RealKeys, WordSet, Arrival, KnownAfterArrival;
    ghost var c0, s0, d0, t0 := cm.ctx, host.bitmaps[edb], host.docs[edb], cm.tally;
    var found, before := WriteSlot(cm, host, edb, req);
    ghost var c2, s2, d2 := cm.ctx, host.bitmaps[edb], host.docs[edb];
    SlotWrittenGives(c0, s0, d0, t0, c2, s2, d2, req, found, before);
    var replaceOldIndex: Text := if found && req.op == OP_REPLACE then before.index else [];
    ghost var n := |TokensOf(replaceOldIndex)| + |TokensOf(RawIndex(req))|;
    if req.op == OP_REPLACE && replaceOldIndex == [] {
      status := NotFound;
      SpentMore(c0, t0, c2, t0, 0, n);
      StoredAsSent(c0, s0, d0, t0, c2, s2, d2, t0, req, status);
      return;
    }
    status := FinishStore(cm, host, edb, req, replaceOldIndex, c0, s0, d0, t0);
    ThenFed(c0, c2, cm.ctx,
            if ValidId(req.docId) then WordSet(TokensOf(replaceOldIndex) + TokensOf(RawIndex(req))) else {},
            Arrival(c0));
    SpentTrans(c0, t0, c2, t0, cm.ctx, cm.tally, 0, n);
    VersionsUntouched(c2, d2, cm.ctx, 0);
    VersionsKeptTrans(c0, d0, c2, d2, cm.ctx, d2, 2, 0);
    CountersKept(c0, c2, cm.ctx, req.docId);
    if status.Applied? {
      StoredDone(c0, s0, d0, t0, c2, s2, d2, cm.ctx, host.bitmaps[edb], cm.tally, req);
      StoredAsSent(c0, s0, d0, t0, cm.ctx, host.bitmaps[edb], d2, cm.tally, req, status);
    }
  }

  /** The slot is empty, the document is not live, and no keyword of its index text lists it. */
  ghost predicate Gone(c0: ClientContext, d0: DocStore, c: ClientContext, s: Store, d: DocStore, id: int)
  {
    1 <= id <= 10000 ==>
      && Contents(c, d, ToString(id)) == Slot([], []) && c.allDocs == c0.allDocs - {id - 1}
      && forall w :: w in TokensOf(Contents(c0, d0, ToString(id)).index) ==> id - 1 !in View(c, s, w)
  }

  lemma DeletedIsGone(c0: ClientContext, s0: Store, d0: DocStore, t0: Tally, c: ClientContext, s: Store, d: DocStore,
                      t: Tally, id: int)
    requires Deleted(c0, s0, d0, t0, c, s, d, t, id)
    ensures Gone(c0, d0, c, s, d, id)
  {
    hide Contents, ToString, TokensOf, View, Tallied, LossAhead, DeleteReset, SameView, SameContents;
    ValidIdIsKey(id);
  }

  /**
   The slot holds what the request carried, without trailing NULs: the document as body, the index text of a
   split request and otherwise the document as index. If it was filed, the document is live, and each of its
   keywords lists it.
   */
  ghost predicate AsSent(c0: ClientContext, c: ClientContext, s: Store, d: DocStore, req: UpdateRequest, filed: bool)
  {
    1 <= req.docId <= 10000 ==>
      var text := if req.flags == 1 then req.index else req.doc;
      && Contents(c, d, ToString(req.docId)) == Slot(TrimNul(text), TrimNul(req.doc))
      && c.allDocs == (if filed then c0.allDocs + {req.docId - 1} else c0.allDocs)
      && (filed ==> forall w :: w in TokensOf(text) ==> req.docId - 1 in View(c, s, w))
  }

  lemma StoredAsSent(c0: ClientContext, s0: Store, d0: DocStore, t0: Tally, c: ClientContext, s: Store, d: DocStore,
                     t: Tally, req: UpdateRequest, status: UpdateStatus)
    requires Stored(c0, s0, d0, t0, c, s, d, t, req, status) && (status.Applied? || status.NotFound?)
    ensures AsSent(c0, c, s, d, req, status.Applied?)
  {
    hide Contents, ToString, TokensOf, View, NewSlot, NewWords, Tallied, LossAhead, ReplaceMisses, StoreReset, SameView,
         KnownAfterArrival, SameContents;
    ValidIdIsKey(req.docId);
  }

  lemma SpentMore(c: ClientContext, t: Tally, c': ClientContext, t': Tally, m: nat, n: nat)
    requires Spent(c, t, c', t', m) && m <= n
    ensures Spent(c, t, c', t', n)
  {
    hide Warm;
  }

  lemma SlotWrittenGives(c0: ClientContext, s0: Store, d0: DocStore, t: Tally, c: ClientContext, s: Store, d: DocStore,
                         req: UpdateRequest, found: bool, before: Slot)
    requires SlotWritten(c0, s0, d0, t, c, s, d, req, found, before)
    ensures Kept(c0, s0, d0, t, c, s, d, t) && Replenished(c0, c) && c.endofDocId == c0.endofDocId && c.CK == c0.CK
    ensures SameView(c0, s0, c, s) && c.allDocs == c0.allDocs && c.dummyCount >= c0.dummyCount && c.K == c0.K
    ensures Spent(c0, t, c, t, 0) && VersionsKept(c0, d0, c, d, 2) && Fed(c0, c, {}, Arrival(c0))
    ensures c.KVS.Keys == KnownAfterArrival(c0) && c.ckMax == c0.ckMax
    ensures if ValidId(req.docId) then ContentsSet(c0, d0, c, d, ToString(req.docId), NewSlot(req))
            else SameContents(c0, d0, c, d)
    ensures var oldIndex := if found && req.op == OP_REPLACE then before.index else [];
            && (ReplaceMisses(c0, d0, req) <==> req.op == OP_REPLACE && oldIndex == [])
            && ClearedWords(c0, d0, req) == TokensOf(oldIndex)
    ensures ReplaceMisses(c0, d0, req) ==> Stored(c0, s0, d0, t, c, s, d, t, req, NotFound)
    ensures NewWords(req) == TokensOf(RawIndex(req))
  {
    hide SameView, SameContents, ContentsSet, Kept, TokensOf, ToString, Stored, NewSlot, ReplaceMisses, ClearedWords,
         Warm, VersionsKept, Spent, Fed, RealKeys, KnownAfterArrival;
    FedSame(c0, c, Arrival(c0));
    NoWords();
    WordsOfRequest(req);
    KeptGives(c0, s0, d0, t, c, s, d, t);
    SpentNothing(c0, t, c);
  }

  lemma CountersKept(c0: ClientContext, c: ClientContext, c': ClientContext, id: int)
    requires Replenished(c0, c) && c.endofDocId == c0.endofDocId
    ensures c'.replenishCounter == c.replenishCounter && c'.dummySize == c.dummySize ==> Replenished(c0, c')
    ensures NextEnd(c, id) == NextEnd(c0, id)
  {
  }

  lemma WordsOfRequest(req: UpdateRequest)
    ensures NewWords(req) == TokensOf(RawIndex(req))
  {
  }

  /** all_docs and endof_doc_id after a document was stored. */
  method MarkLive(cm: ContextManager, id: int)
    modifies cm`ctx
    ensures cm.ctx == old(cm.ctx).(allDocs := old(cm.ctx.allDocs) + (if ValidId(id) then {id - 1} else {}),
                                   endofDocId := NextEnd(old(cm.ctx), id))
    ensures SameData(old(cm.ctx), cm.ctx)
  {
    if ValidId(id) {
      cm.ctx := cm.ctx.(allDocs := cm.ctx.allDocs + {id - 1});
      if id >= cm.ctx.endofDocId {
        cm.ctx := cm.ctx.(endofDocId := id + 1);
      }
    }
  }

  lemma FrameFields(c: ClientContext, c': ClientContext, id: int)
    requires IndexFrame(c, c')
    ensures c'.replenishCounter == c.replenishCounter && c'.dummySize == c.dummySize && c'.allDocs == c.allDocs
    ensures NextEnd(c', id) == NextEnd(c, id) && c'.slotVersion == c.slotVersion
    ensures c'.K == c.K && c'.endofDocId == c.endofDocId
  {
  }

  /** The end of INSERT and REPLACE: the keywords, then the live bit. */
  method FinishStore(cm: ContextManager, host: Host, edb: int, req: UpdateRequest, oldIndex: Text,
                     ghost c0: ClientContext, ghost s0: Store, ghost d0: DocStore, ghost t0: Tally)
    returns (status: UpdateStatus)
    requires host.Registered(edb) && Kept(c0, s0, d0, t0, cm.ctx, host.bitmaps[edb], host.docs[edb], cm.tally)
    requires AllReal(TokensOf(oldIndex)) && AllReal(TokensOf(RawIndex(req)))
    modifies cm`ctx, cm`tally, host`bitmaps, host`trace
    ensures status.Applied? ==> cm.tally.misses == old(cm.tally.misses)
    ensures status.Incomplete? ==> cm.tally.misses > old(cm.tally.misses)
    ensures status.NoRoom? ==>
      && cm.ctx.dummyCount <= 0 && old(cm.ctx.dummyCount) < |TokensOf(oldIndex)| + |TokensOf(RawIndex(req))|
      && Hungry(cm.ctx, WordSet(TokensOf(oldIndex) + TokensOf(RawIndex(req))))
    ensures status.NoRoom? ==> ValidId(req.docId)
    ensures Fed(old(cm.ctx), cm.ctx,
                if ValidId(req.docId) then WordSet(TokensOf(oldIndex) + TokensOf(RawIndex(req))) else {}, 0)
    ensures edb in host.bitmaps && host.bitmaps == old(host.bitmaps)[edb := host.bitmaps[edb]]
    ensures Kept(c0, s0, d0, t0, cm.ctx, host.bitmaps[edb], host.docs[edb], cm.tally)
    ensures Spent(old(cm.ctx), old(cm.tally), cm.ctx, cm.tally, |TokensOf(oldIndex)| + |TokensOf(RawIndex(req))|)
    ensures !status.NotFound?
    ensures cm.ctx.replenishCounter == old(cm.ctx.replenishCounter) && cm.ctx.dummySize == old(cm.ctx.dummySize)
    ensures cm.ctx.slotVersion == old(cm.ctx.slotVersion) && cm.ctx.K == old(cm.ctx.K)
    ensures |old(cm.ctx.CK)| == 0 ==> status.Applied? && |cm.ctx.CK| == 0
    ensures status.Applied? ==>
      Finished(old(cm.ctx), old(host.bitmaps)[edb], old(cm.tally), cm.ctx, host.bitmaps[edb], cm.tally, host.docs[edb],
               TokensOf(oldIndex), TokensOf(RawIndex(req)), req.docId)
  {
    hide IndexInv, DocInv, SameView, SameContents, Kept, TokensOf, ToString, DocKey;
    hide Reindexed, Atoi, AllReal, Warm, NeverCold, Ready, Fresh, NoOverwrite, View, RawIndex, UpdateFrame, NextEnd,
         SameData, IndexFrame, Finished, Spent, Fed, Hungry, RealKeys, WordSet;
    ghost var c, s, d, t := cm.ctx, host.bitmaps[edb], host.docs[edb], cm.tally;
    var id := req.docId;
    ValidIdIsKey(id);
    KeptGives(c0, s0, d0, t0, c, s, d, t);
    var outcome := Reindex(cm, host, edb, ToString(id), oldIndex, RawIndex(req), c0, s0, d0, t0);
    ghost var c1, s1, t1 := cm.ctx, host.bitmaps[edb], cm.tally;
    FrameFields(c, c1, id);
    KeptGives(c0, s0, d0, t0, c1, s1, d, t1);
    if outcome.OutOfCapacity? {
      return NoRoom;
    }
    MarkLive(cm, id);
    KeptBySameData(c0, s0, d0, t0, c1, s1, d, t1, cm.ctx);
    MarkedSpends(c, t, c1, t1, cm.ctx, |TokensOf(oldIndex)| + |TokensOf(RawIndex(req))|);
    SameDataKeys(c1, cm.ctx);
    if !ValidId(id) {
      FedSame(c, c, 0);
    }
    ThenArrived(c, c1, cm.ctx, if ValidId(id) then WordSet(TokensOf(oldIndex) + TokensOf(RawIndex(req))) else {}, 0);
    status := if outcome.SomeSkipped? then Incomplete else Applied;
    if status.Applied? {
      FinishedBy(c, s, t, c1, s1, t1, cm.ctx, d, TokensOf(oldIndex), TokensOf(RawIndex(req)), id, outcome.Completed?);
    }
  }

  lemma MarkedSpends(c: ClientContext, t: Tally, c1: ClientContext, t1: Tally, c2: ClientContext, n: nat)
    requires Spent(c, t, c1, t1, n) && SameData(c1, c2)
    ensures Spent(c, t, c2, t1, n)
  {
  }

  /** The end of a store: words re-indexed, live bit and highest number set, contents untouched. */
  ghost predicate Finished(c: ClientContext, s: Store, t: Tally, c': ClientContext, s': Store, t': Tally, d: DocStore,
                           del: seq<Text>, add: seq<Text>, id: int)
  {
    && c'.allDocs == c.allDocs + (if ValidId(id) then {id - 1} else {}) && c'.endofDocId == NextEnd(c, id)
    && SameContents(c, d, c', d)
    && (!ValidId(id) ==> SameView(c, s, c', s') && t' == t)
    && Reindexed(c, s, t, c', s', t', del, add, id, true)
  }

  lemma FinishedBy(c: ClientContext, s: Store, t: Tally, c1: ClientContext, s1: Store, t1: Tally, c2: ClientContext,
                   d: DocStore, del: seq<Text>, add: seq<Text>, id: int, done: bool)
    requires SameContents(c, d, c1, d) && SameContents(c1, d, c2, d) && SameView(c1, s1, c2, s1)
    requires Reindexed(c, s, t, c1, s1, t1, del, add, id, done) && (ValidId(id) ==> done)
    requires !ValidId(id) ==> c1 == c && s1 == s && t1 == t
    requires c2.allDocs == c.allDocs + (if ValidId(id) then {id - 1} else {}) && c2.endofDocId == NextEnd(c, id)
    ensures Finished(c, s, t, c2, s1, t1, d, del, add, id)
  {
    hide SameContents, SameView, Reindexed;
    SameContentsTrans(c, d, c1, d, c2, d);
    ReindexedSame(c, s, t, c1, s1, t1, c2, s1, del, add, id, done);
    ReindexedInvalid(c, s, t, c2, s1, t1, del, add, id);
  }

  lemma ReindexedInvalid(c: ClientContext, s: Store, t: Tally, c': ClientContext, s': Store, t': Tally,
                         del: seq<Text>, add: seq<Text>, id: int)
    ensures !ValidId(id) ==> Reindexed(c, s, t, c', s', t', del, add, id, true)
  {
  }

  lemma EmptyReal()
    ensures AllReal([])
  {
  }

  /** After the slot write: the contents are final, the index is untouched, and a missed REPLACE is over. */
  lemma SlotStoredFirst(c0: ClientContext, s0: Store, d0: DocStore, t: Tally, c1: ClientContext, s1: Store,
                   c2: ClientContext, d2: DocStore, req: UpdateRequest, found: bool, before: Slot)
    requires SameView(c0, s0, c1, s1) && SameContents(c0, d0, c1, d0) && c1.allDocs == c0.allDocs
    requires DocFrame(c1, c2) && SameView(c1, s1, c2, s1)
    requires found <==> ValidId(req.docId)
    requires found ==> before == Contents(c0, d0, ToString(req.docId))
    requires found ==> ContentsSet(c1, d0, c2, d2, ToString(req.docId), NewSlot(req))
    requires !found ==> c2 == c1 && d2 == d0
    ensures SameView(c0, s0, c2, s1) && c2.allDocs == c0.allDocs
    ensures if ValidId(req.docId) then ContentsSet(c0, d0, c2, d2, ToString(req.docId), NewSlot(req))
            else SameContents(c0, d0, c2, d2)
    ensures ReplaceMisses(c0, d0, req) <==> req.op == OP_REPLACE && (found ==> before.index == [])
    ensures ReplaceMisses(c0, d0, req) ==> Stored(c0, s0, d0, t, c2, s1, d2, t, req, NotFound)
    ensures ClearedWords(c0, d0, req) == if found && req.op == OP_REPLACE then TokensOf(before.index) else []
  {
    hide View, Contents, DocKey, TokensOf, ToString, NewSlot;
    SameTrans(c0, s0, c1, s1, c2, s1);
  }

  lemma StoredDone(c0: ClientContext, s0: Store, d0: DocStore, t0: Tally, c2: ClientContext, s1: Store, d2: DocStore,
                   c4: ClientContext, s4: Store, t4: Tally, req: UpdateRequest)
    requires SameView(c0, s0, c2, s1) && c2.allDocs == c0.allDocs
    requires if ValidId(req.docId) then ContentsSet(c0, d0, c2, d2, ToString(req.docId), NewSlot(req))
             else SameContents(c0, d0, c2, d2)
    requires !ReplaceMisses(c0, d0, req) && c2.CK == c0.CK
    requires c2.KVS.Keys == KnownAfterArrival(c0) && c2.ckMax == c0.ckMax
    requires Finished(c2, s1, t0, c4, s4, t4, d2, ClearedWords(c0, d0, req), NewWords(req), req.docId)
    ensures Stored(c0, s0, d0, t0, c4, s4, d2, t4, req, Applied)
  {
    hide View, Contents, DocKey, TokensOf, ToString, NewSlot, ReplaceMisses, ClearedWords, NewWords;
    hide IndexReset, SameView, OwnEdited, Tallied, LossAhead, KnownAfterArrival;
    StoredSlots(c0, d0, c2, d2, c4, req);
    var del, add := ClearedWords(c0, d0, req), NewWords(req);
    ReindexedOnto(c0, s0, c2, s1, t0, c4, s4, t4, del, add, req.docId);
    if !ValidId(req.docId) {
      SameTrans(c0, s0, c2, s1, c4, s4);
    }
  }

  /** Reindexed, with the known words given. */
  ghost predicate ReindexedAs(c: ClientContext, s: Store, known: set<Text>, t: Tally, c': ClientContext, s': Store,
                              t': Tally, del: seq<Text>, add: seq<Text>, id: int)
  {
    ValidId(id) ==>
      && OwnEdited(c, s, c', s', del, add, id - 1)
      && Tallied(c, s, t, c', s', t', del + add, id - 1)
      && (t'.losses == t.losses <==> !LossAhead(c, s, known, del + add, id - 1))
      && (|c.CK| == 0 ==> IndexReset(c, s, c', s', del, add, id - 1))
  }

  lemma ReindexedOnto(c0: ClientContext, s0: Store, c: ClientContext, s: Store, t: Tally,
                      c': ClientContext, s': Store, t': Tally, del: seq<Text>, add: seq<Text>, id: int)
    requires SameView(c0, s0, c, s) && Reindexed(c, s, t, c', s', t', del, add, id, true)
    requires c.CK == c0.CK && c.ckMax == c0.ckMax
    ensures ReindexedAs(c0, s0, c.KVS.Keys, t, c', s', t', del, add, id)
  {
    hide View, Tallied, LossAhead;
    TalliedSame(c0, s0, t, c, s, t, [], id - 1);
    if ValidId(id) {
      LossElsewhere(c0, s0, c, s, c.KVS.Keys, del + add, id - 1);
      TalliedTrans(c0, s0, t, c, s, t, c', s', t', [], del + add, del + add, id - 1);
    }
  }

  lemma StoredSlots(c0: ClientContext, d0: DocStore, c2: ClientContext, d2: DocStore, c4: ClientContext,
                    req: UpdateRequest)
    requires c2.allDocs == c0.allDocs && !ReplaceMisses(c0, d0, req) && SameContents(c2, d2, c4, d2)
    requires if ValidId(req.docId) then ContentsSet(c0, d0, c2, d2, ToString(req.docId), NewSlot(req))
             else SameContents(c0, d0, c2, d2)
    requires c4.allDocs == c2.allDocs + (if ValidId(req.docId) then {req.docId - 1} else {})
    ensures SlotStored(c0, d0, c4, d2, req, Applied)
  {
    hide Contents, DocKey, ToString, NewSlot, ReplaceMisses;
  }
}
