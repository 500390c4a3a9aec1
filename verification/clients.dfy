/** Many clients on one enclave: opening and persisting databases, and whole runs of interleaved calls. */
module Clients {
  import opened Bytes
  import opened Labels
  import opened Context
  import opened IndexModel
  import opened KeywordIndex
  import opened KeywordUpdates
  import opened Dummies
  import opened DocModel
  import opened Provision
  import opened Tokens
  import opened Select
  import opened Update
  import opened Database
  import opened Archives
  import opened Snapshot
  import opened Persist
  import opened Scheduler
  import opened Session

  // ----- persisting a database while its context stays in memory

  /** The enclave is gone; only what the host stores is left. */
  function Restarted(w: World): World
  {
    w.(ctx := DefaultContext(), edb := 0, inactive := map[])
  }

  /** With more keywords than its cache holds, a client comes back from a restart with a full cache and companions. */
  ghost predicate RevivesAt(w: World, w': World, x: int, edb: int)
  {
    Held(w, x, edb).Restored? && |Held(w, x, edb).ctx.KVS| > Held(w, x, edb).ctx.ckMax ==>
      LivelyAt(Restarted(w'), x, edb) && CompanyAt(Restarted(w'), x, edb)
  }

  lemma RestartRevives(w: World, w': World, x: int, edb: int)
    requires PreservedAt(w, Restarted(w'), x, edb, 1) && edb > 0
    ensures RevivesAt(w, w', x, edb)
  {
    hide Held, SameView, SameContents, WriteOnce, VersionsKept, LivelyAt, CompanyAt, DefaultContext;
    if Held(w, x, edb).Restored? && |Held(w, x, edb).ctx.KVS| > Held(w, x, edb).ctx.ckMax {
      StoredIsLively(Restarted(w'), x, edb);
    }
  }

  /** The effect of persisting client x: the others notice nothing, and x could now survive a restart. */
  ghost predicate PersistedFor(w: World, w': World, own: map<int, int>, x: int)
    requires x in own
  {
    && Settled(w', own) && ActiveOk(w', own)
    && (forall y :: y in own && y != x ==> TransparentAt(w, w', y, own[y], 0))
    && PreservedAt(w, w', x, own[x], 1) && (CompanyAt(w, x, own[x]) ==> CompanyAt(w', x, own[x]))
    && PreservedAt(w, Restarted(w'), x, own[x], 1) && RevivesAt(w, w', x, own[x])
  }

  /** ecall_persist_context */
  method PersistContext(cm: ContextManager, host: Host, edb: int, ghost own: map<int, int>, ghost x: int)
    requires var w := WorldOf(cm, host); Settled(w, own) && ActiveOk(w, own) && Roomy(w)
    requires x in own && own[x] == edb
    modifies cm`ctx, cm`currentEdb, cm`inactive, host
    ensures PersistedFor(old(WorldOf(cm, host)), WorldOf(cm, host), own, x)
  {
    hide Settled, Room, Roomy, PersistedFor, FlushedClient, StandsFor, Ready;
    ghost var w := WorldOf(cm, host);
    var active := HasActiveContext(cm);
    PersistFacts(w, own, x);
    if active && cm.currentEdb == edb {
      PersistActiveContextToStorage(cm, host, edb);
      PersistedActive(w, WorldOf(cm, host), own, x);
      return;
    }
    if exists client :: client in cm.inactive && cm.inactive[client].edbId == edb {
      var client :| client in cm.inactive && cm.inactive[client].edbId == edb;
      InactiveOwner(w, own, x, client);
      var backupCtx, backupEdb := cm.ctx, cm.currentEdb;
      cm.ctx := cm.inactive[client].ctx;
      cm.currentEdb := edb;
      PersistActiveContextToStorage(cm, host, edb);
      cm.inactive := cm.inactive[client := CachedContext(cm.ctx, edb)];
      cm.ctx := backupCtx;
      cm.currentEdb := backupEdb;
      PersistedInactive(w, WorldOf(cm, host), own, x);
      return;
    }
    PersistedAlready(w, own, x);
  }

  lemma PersistFacts(w: World, own: map<int, int>, x: int)
    requires Settled(w, own) && ActiveOk(w, own) && Roomy(w) && x in own
    ensures own[x] > 0 && own[x] in w.bitmaps && own[x] in w.docs
    ensures w.edb == own[x] ==> Ready(w.ctx, w.bitmaps[own[x]], w.docs[own[x]]) && Room(w.ctx) && w.ctx.clientId == x
    ensures x in w.inactive ==>
      && Ready(w.inactive[x].ctx, w.bitmaps[own[x]], w.docs[own[x]]) && Room(w.inactive[x].ctx)
      && w.inactive[x].edbId == own[x] && w.edb != own[x]
  {
    hide Ready, Room, Unseal;
    assert HealthyAt(w, x, own[x]);
  }

  lemma InactiveOwner(w: World, own: map<int, int>, x: int, client: int)
    requires Settled(w, own) && x in own && client in w.inactive && w.inactive[client].edbId == own[x]
    ensures client == x
  {
    hide Healthy;
  }

  /** The stores of one database are replaced, in memory and in storage. */
  predicate StoresReplaced(w: World, w': World, edb: int)
  {
    && edb in w.bitmaps && edb in w.docs && edb in w'.bitmaps && edb in w'.docs && edb in w'.snapshots
    && w'.bitmaps == w.bitmaps[edb := w'.bitmaps[edb]] && w'.docs == w.docs[edb := w'.docs[edb]]
    && w'.snapshots == w.snapshots[edb := w'.snapshots[edb]]
  }

  lemma PersistedActive(w: World, w': World, own: map<int, int>, x: int)
    requires Settled(w, own) && ActiveOk(w, own) && Roomy(w) && x in own && w.edb == own[x]
    requires StoresReplaced(w, w', own[x]) && w'.edb == w.edb && w'.inactive == w.inactive
    requires FlushedClient(w.ctx, w.bitmaps[own[x]], w.docs[own[x]], w'.ctx, w'.bitmaps[own[x]], w'.docs[own[x]])
    requires StandsFor(w'.snapshots[own[x]], w.ctx, w.bitmaps[own[x]], w.docs[own[x]], w'.bitmaps[own[x]],
                       w'.docs[own[x]])
    ensures PersistedFor(w, w', own, x)
  {
    hide Unseal, TransparentAt, HealthyAt, PreservedAt, Ready, StandsFor, Roomy, SameView, SameContents, WriteOnce,
         VersionsKept, StoresReplaced, CompanyAt, RevivesAt;
    PersistFacts(w, own, x);
    PersistedSelf(w, w', x, own[x], w.ctx, w'.ctx);
    forall y | y in own && y != x
      ensures TransparentAt(w, w', y, own[y], 0) && HealthyAt(w', y, own[y])
    {
      assert HealthyAt(w, y, own[y]);
      PersistedOther(w, w', own, x, y);
    }
    ReplacedOwned(w, w', own, own[x]);
  }

  lemma PersistedInactive(w: World, w': World, own: map<int, int>, x: int)
    requires Settled(w, own) && ActiveOk(w, own) && Roomy(w) && x in own && x in w.inactive
    requires StoresReplaced(w, w', own[x]) && w'.edb == w.edb && w'.ctx == w.ctx && x in w'.inactive
    requires w'.inactive == w.inactive[x := CachedContext(w'.inactive[x].ctx, own[x])]
    requires FlushedClient(w.inactive[x].ctx, w.bitmaps[own[x]], w.docs[own[x]],
                           w'.inactive[x].ctx, w'.bitmaps[own[x]], w'.docs[own[x]])
    requires StandsFor(w'.snapshots[own[x]], w.inactive[x].ctx, w.bitmaps[own[x]], w.docs[own[x]],
                       w'.bitmaps[own[x]], w'.docs[own[x]])
    ensures PersistedFor(w, w', own, x)
  {
    hide Unseal, TransparentAt, HealthyAt, PreservedAt, Ready, StandsFor, Roomy, SameView, SameContents, WriteOnce,
         VersionsKept, StoresReplaced, CompanyAt, RevivesAt;
    PersistFacts(w, own, x);
    PersistedSelf(w, w', x, own[x], w.inactive[x].ctx, w'.inactive[x].ctx);
    forall y | y in own && y != x
      ensures TransparentAt(w, w', y, own[y], 0) && HealthyAt(w', y, own[y])
    {
      assert HealthyAt(w, y, own[y]);
      PersistedOther(w, w', own, x, y);
    }
    ReplacedOwned(w, w', own, own[x]);
    assert w'.inactive.Keys == w.inactive.Keys;
  }

  lemma ReplacedOwned(w: World, w': World, own: map<int, int>, edb: int)
    requires Owned(w, own) && StoresReplaced(w, w', edb)
    ensures Owned(w', own)
  {
  }

  lemma PersistedSelf(w: World, w': World, x: int, edb: int, c: ClientContext, c': ClientContext)
    requires Held(w, x, edb) == Restored(c) && Held(w', x, edb) == Restored(c') && c.clientId == x && edb > 0
    requires StoresReplaced(w, w', edb)
    requires FlushedClient(c, w.bitmaps[edb], w.docs[edb], c', w'.bitmaps[edb], w'.docs[edb])
    requires StandsFor(w'.snapshots[edb], c, w.bitmaps[edb], w.docs[edb], w'.bitmaps[edb], w'.docs[edb])
    requires InMemory(w', x, edb) == InMemory(w, x, edb)
    ensures HealthyAt(w', x, edb) && PreservedAt(w, w', x, edb, 1) && PreservedAt(w, Restarted(w'), x, edb, 1)
    ensures (CompanyAt(w, x, edb) ==> CompanyAt(w', x, edb)) && RevivesAt(w, w', x, edb)
  {
    hide Unseal, Ready, SameView, SameContents, WriteOnce, VersionsKept, InMemory, WordSet;
    assert Held(Restarted(w'), x, edb) == Unseal(w'.snapshots[edb]);
    RestartRevives(w, w', x, edb);
  }

  lemma PersistedOther(w: World, w': World, own: map<int, int>, x: int, y: int)
    requires x in own && y in own && y != x && HealthyAt(w, y, own[y])
    requires Owned(w, own) && StoresReplaced(w, w', own[x])
    requires w'.edb == w.edb && (w.edb == own[x] || w'.ctx == w.ctx)
    requires y in w'.inactive <==> y in w.inactive
    requires y in w.inactive ==> w'.inactive[y] == w.inactive[y]
    ensures TransparentAt(w, w', y, own[y], 0) && HealthyAt(w', y, own[y])
  {
    hide Unseal, TransparentAt, HealthyAt;
    assert own[y] != own[x];
    Unmoved(w, w', y, own[y]);
  }

  lemma PersistedAlready(w: World, own: map<int, int>, x: int)
    requires Settled(w, own) && ActiveOk(w, own) && x in own
    requires w.edb != own[x] && x !in w.inactive
    ensures PersistedFor(w, w, own, x)
  {
    hide Unseal, Ready, SameClient, Owned, Placed, Healthy, ActiveOk, TransparentAt, CompanyAt, RevivesAt;
    forall y | y in own
      ensures TransparentAt(w, w, y, own[y], 0)
    {
      Unmoved(w, w, y, own[y]);
    }
    TransparentPreserves(w, w, x, own[x]);
    OnlyStored(w, own, x);
    RestartRevives(w, w, x, own[x]);
  }

  lemma TransparentPreserves(w: World, w': World, x: int, edb: int)
    requires TransparentAt(w, w', x, edb, 0)
    ensures PreservedAt(w, w', x, edb, 1)
  {
    TransparentAtMore(w, w', x, edb, 0, 1);
  }

  lemma OnlyStored(w: World, own: map<int, int>, x: int)
    requires Owned(w, own) && x in own && w.edb != own[x] && x !in w.inactive
    ensures PreservedAt(w, Restarted(w), x, own[x], 1) && own[x] > 0
  {
    hide Unseal, SameClient;
    var h := Held(w, x, own[x]);
    assert Held(Restarted(w), x, own[x]) == h;
    if h.Restored? {
      SameClientRefl(h.ctx, BitmapsOf(w, own[x]), DocsOf(w, own[x]));
      SameClientMore(h.ctx, BitmapsOf(w, own[x]), DocsOf(w, own[x]),
                     h.ctx, BitmapsOf(w, own[x]), DocsOf(w, own[x]), 0, 1);
    }
  }

  // ----- opening a database

  /** INIT for a new client: a fresh context, a random key, placeholders and tombstones. */
  method InitClient(cm: ContextManager, host: Host, client: int, edb: int, key: Text, ghost own: map<int, int>)
    requires var w := WorldOf(cm, host); Settled(w, own) && ActiveOk(w, own) && Roomy(w) && Unused(w, own, client, edb)
    requires host.bitmaps[edb] == map[] && host.docs[edb] == map[] && |key| == KEY_LEN
    modifies cm`ctx, cm`currentEdb, cm`inactive, host
    ensures var w, w' := old(WorldOf(cm, host)), WorldOf(cm, host);
            && Settled(w', own[client := edb]) && ActiveIs(w', client, edb)
            && (forall x :: x in own ==> TransparentAt(w, w', x, own[x], 1))
    ensures edb in host.bitmaps && edb in host.docs && Refines(cm.ctx, host.bitmaps[edb], host.docs[edb], map[])
    ensures Fresh(cm.ctx, host.bitmaps[edb]) && VersionsLag(cm.ctx, host.docs[edb])
    ensures cm.ctx.K == key && cm.ctx.CK == map[] && |cm.ctx.KVS| == 1000 && Companions(cm.ctx)
    ensures cm.ctx.dummySize == cm.ctx.dummyCount == 1000 && cm.ctx.retrievalLimit == 100 && cm.ctx.ckMax == 10
    ensures RealKeys(cm.ctx) == {} && cm.ctx.replenishCounter == 0 && cm.ctx.clientId == client
    ensures cm.ctx.docCkMax == 10 && cm.ctx.retrievalThreshold == 5 && cm.ctx.retrievalBatch == 5
    ensures Ready(cm.ctx, host.bitmaps[edb], host.docs[edb])
  {
    hide Settled, Roomy, Unused, Transparent, TransparentAt, Scheduled, IndexInv, DocInv, Fresh, VersionsLag, View,
         Contents, DocKey, Refines, Room, Ready, WordSet, RealKeys;
    ghost var w0 := WorldOf(cm, host);
    NewMayBeScheduled(w0, own, client, edb);
    var ret := ScheduleContext(cm, host, client, edb, true, own);
    ghost var w1 := WorldOf(cm, host);
    NewScheduled(w0, w1, own, client, edb, ret);
    cm.ctx := cm.ctx.(K := key);
    NewIsFresh(client, key);
    UpdateInit(cm, host, edb);
    FreshRefines(cm.ctx, host.bitmaps[edb], host.docs[edb]);
    OpenedReady(client, key, cm.ctx, host.bitmaps[edb], host.docs[edb]);
    Opened(w0, w1, WorldOf(cm, host), own, client, edb);
  }

  lemma NewMayBeScheduled(w: World, own: map<int, int>, client: int, edb: int)
    requires Unused(w, own, client, edb)
    ensures MaySchedule(w, own, client, edb, true)
    ensures edb in w.bitmaps && edb in w.docs
  {
  }

  lemma NewScheduled(w0: World, w1: World, own: map<int, int>, client: int, edb: int, ret: int)
    requires Scheduled(w0, w1, own, client, edb, true, ret) && Unused(w0, own, client, edb)
    ensures Settled(w1, own) && Transparent(w0, w1, own, 1) && w1.ctx == FreshContext(client) && w1.edb == edb
    ensures edb in w1.bitmaps && edb in w1.docs && w1.bitmaps[edb] == w0.bitmaps[edb] && w1.docs[edb] == w0.docs[edb]
  {
    hide Settled, TransparentAt, Room, FreshContext;
  }

  lemma NewIsFresh(client: int, key: Text)
    ensures FreshClient(FreshContext(client).(K := key)) && FreshContext(client).dummySize == 1000
    ensures FreshContext(client).ckMax == 10 && FreshContext(client).retrievalLimit == 100
    ensures FreshContext(client).replenishCounter == 0
  {
  }

  lemma OpenedReady(client: int, key: Text, c: ClientContext, s: Store, d: DocStore)
    requires var c1 := FreshContext(client).(K := key);
             c == c1.(KVS := c.KVS, words := c.words, dummyCount := c.dummyCount, allDocs := {},
                      endofDocId := c.endofDocId, slotVersion := c.slotVersion)
    requires IndexInv(c, s) && DocInv(c, d)
    ensures Ready(c, s, d) && c.clientId == client && c.CK == map[]
  {
    hide IndexInv, DocInv;
  }

  lemma Opened(w0: World, w1: World, w2: World, own: map<int, int>, client: int, edb: int)
    requires Settled(w1, own) && Transparent(w0, w1, own, 1) && Unused(w0, own, client, edb)
    requires ActiveIs(w1, client, edb)
    requires edb in w1.bitmaps && edb in w1.docs && edb in w2.bitmaps && edb in w2.docs
    requires w2 == w1.(ctx := w2.ctx, bitmaps := w1.bitmaps[edb := w2.bitmaps[edb]],
                       docs := w1.docs[edb := w2.docs[edb]])
    requires w2.ctx.clientId == client && Ready(w2.ctx, w2.bitmaps[edb], w2.docs[edb])
    ensures Settled(w2, own[client := edb]) && ActiveIs(w2, client, edb)
    ensures forall x :: x in own ==> TransparentAt(w0, w2, x, own[x], 1)
  {
    hide Unseal, Ready, SameClient, TransparentAt, PreservedAt, HealthyAt;
    OpenedPlaces(w1, w2, own, client, edb);
    hide Owned, Placed;
    forall x | x in own
      ensures TransparentAt(w0, w2, x, own[x], 1) && HealthyAt(w2, x, own[x])
    {
      assert HealthyAt(w1, x, own[x]);
      OtherDatabase(w1, w2, x, own[x], edb);
      TransparentAtTrans(w0, w1, w2, x, own[x], 1, 0);
    }
    ActiveHealthy(w2, client, edb);
  }

  lemma OpenedPlaces(w1: World, w2: World, own: map<int, int>, client: int, edb: int)
    requires Owned(w1, own) && Placed(w1, own, INACTIVE_CONTEXT_CACHE_MAX) && ActiveIs(w1, client, edb)
    requires client !in own && edb > 0 && Unowned(own, edb) && edb in w2.bitmaps && edb in w2.docs
    requires w2 == w1.(ctx := w2.ctx, bitmaps := w1.bitmaps[edb := w2.bitmaps[edb]],
                       docs := w1.docs[edb := w2.docs[edb]])
    requires w2.ctx.clientId == client
    ensures Owned(w2, own[client := edb]) && Placed(w2, own[client := edb], INACTIVE_CONTEXT_CACHE_MAX)
  {
  }

  lemma ActiveHealthy(w: World, client: int, edb: int)
    requires ActiveIs(w, client, edb) && Ready(w.ctx, BitmapsOf(w, edb), DocsOf(w, edb))
    ensures HealthyAt(w, client, edb)
  {
    hide Ready, Unseal;
  }

  /** Work on one client's active context and stores does not reach another database. */
  lemma OtherDatabase(w: World, w': World, x: int, other: int, edb: int)
    requires other != edb && w.edb == edb && edb in w.bitmaps && edb in w.docs && edb in w'.bitmaps && edb in w'.docs
    requires w' == w.(ctx := w'.ctx, bitmaps := w.bitmaps[edb := w'.bitmaps[edb]], docs := w.docs[edb := w'.docs[edb]])
    requires HealthyAt(w, x, other)
    ensures TransparentAt(w, w', x, other, 0) && HealthyAt(w', x, other)
  {
    hide Unseal, TransparentAt, HealthyAt;
    Unmoved(w, w', x, other);
  }

  /**
   A word that two documents of a new database share, as long as nothing has been searched: filing it for
   the second document makes the index forget the first.
   */
  method ForgetSharedWord(cm: ContextManager, host: Host, client: int, edb: int, key: Text, ghost own: map<int, int>,
                          first: UpdateRequest, second: UpdateRequest, ghost w: Text)
    requires var w := WorldOf(cm, host); Settled(w, own) && ActiveOk(w, own) && Roomy(w) && Unused(w, own, client, edb)
    requires host.bitmaps[edb] == map[] && host.docs[edb] == map[] && |key| == KEY_LEN
    requires first.op == second.op == OP_INSERT && InBounds(Change(first)) && InBounds(Change(second))
    requires ValidId(first.docId) && ValidId(second.docId) && first.docId != second.docId
    requires w in NewWords(first) && w in NewWords(second)
    modifies cm, host
    ensures edb in host.bitmaps && edb in host.docs
    ensures var db: Db := map[first.docId := NewSlot(first), second.docId := NewSlot(second)];
            && Carries(db, first.docId, w) && Carries(db, second.docId, w)
            && Holds(cm.ctx, host.bitmaps[edb], host.docs[edb], db)
            && !Refines(cm.ctx, host.bitmaps[edb], host.docs[edb], db)
    ensures View(cm.ctx, host.bitmaps[edb], w) == {second.docId - 1}
  {
    hide Settled, ActiveOk, Roomy, Unused, TransparentAt, Refines, Holds, Fresh, VersionsLag, Ready, Companions,
         RealKeys, WordSet, Fits, NewSlot, NewWords, AllReal, View, Carries, Stored, Kept, Fed, Hungry, Spent,
         VersionsKept, ClearedWords, ReplaceMisses, Replenished, NextEnd, ApplyUpdate, Clean;
    InitClient(cm, host, client, edb, key, own);
    ghost var c0, s0, d0, t0 := cm.ctx, host.bitmaps[edb], host.docs[edb], cm.tally;
    InsertClears(c0, d0, first);
    var status := HandleStore(cm, host, edb, first);
    ghost var c1, s1, d1, t1 := cm.ctx, host.bitmaps[edb], host.docs[edb], cm.tally;
    KeptFrame(c0, s0, d0, t0, c1, s1, d1, t1);
    InsertClears(c1, d1, second);
    status := HandleStore(cm, host, edb, second);
    BothInserted(c0, s0, d0, t0, c1, s1, d1, t1, cm.ctx, host.bitmaps[edb], host.docs[edb], cm.tally, first, second, w);
  }

  lemma InsertClears(c: ClientContext, d: DocStore, req: UpdateRequest)
    requires req.op == OP_INSERT
    ensures ClearedWords(c, d, req) == [] && AllReal(ClearedWords(c, d, req)) && !ReplaceMisses(c, d, req)
  {
    EmptyReal();
  }

  lemma BothInserted(c0: ClientContext, s0: Store, d0: DocStore, t0: Tally, c1: ClientContext, s1: Store, d1: DocStore,
                     t1: Tally, c2: ClientContext, s2: Store, d2: DocStore, t2: Tally,
                     first: UpdateRequest, second: UpdateRequest, w: Text)
    requires first.op == second.op == OP_INSERT && ValidId(first.docId) && ValidId(second.docId)
    requires first.docId != second.docId && w in NewWords(first) && w in NewWords(second)
    requires AllReal(NewWords(first)) && AllReal(NewWords(second))
    requires Refines(c0, s0, d0, map[]) && |c0.CK| == |c1.CK| == 0
    requires Stored(c0, s0, d0, t0, c1, s1, d1, t1, first, Applied)
    requires Stored(c1, s1, d1, t1, c2, s2, d2, t2, second, Applied)
    ensures var db: Db := map[first.docId := NewSlot(first), second.docId := NewSlot(second)];
            && Carries(db, first.docId, w) && Carries(db, second.docId, w)
            && Holds(c2, s2, d2, db) && !Refines(c2, s2, d2, db)
    ensures View(c2, s2, w) == {second.docId - 1}
  {
    hide Refines, Holds, View, NewWords, NewSlot, AllReal, SlotStored, StoreIndexed, TokensOf;
    RefinesHolds(c0, s0, d0, map[]);
    StoreHolds(c0, s0, d0, t0, map[], c1, s1, d1, t1, first, Applied);
    var one: Db := map[first.docId := NewSlot(first)];
    assert ApplyUpdate(map[], first) == one;
    StoreHolds(c1, s1, d1, t1, one, c2, s2, d2, t2, second, Applied);
    var db := one[second.docId := NewSlot(second)];
    assert db == map[first.docId := NewSlot(first), second.docId := NewSlot(second)];
    NewSlotWords(first);
    NewSlotWords(second);
    assert Carries(db, first.docId, w) && Carries(db, second.docId, w);
    NotListed(c2, s2, d2, db, first.docId, w);
  }

  lemma NotListed(c: ClientContext, s: Store, d: DocStore, db: Db, i: int, w: Text)
    requires Carries(db, i, w) && i - 1 !in View(c, s, w)
    ensures !Refines(c, s, d, db)
  {
    hide DocsHeld, View, Carries;
  }

  // ----- what each client expects

  /**
   A client's archive and result limit, the keywords its index may know, and how many of the placeholders it
   started with are known to be left.
   */
  datatype Account = Account(archive: Archive, limit: int, known: set<Text>, room: int)

  /** The account of a database just opened. */
  const NEW_ACCOUNT: Account := Account(EMPTY_ARCHIVE, 100, {}, 1000)

  /** INIT of a new client or, for a known one, INIT again or RESUME of its database; a request; SHUTDOWN. */
  datatype Call = Init(client: int, key: Text) | Serve(client: int, request: Request) | Shutdown(client: int)

  datatype CallReply = Served(reply: Reply) | Acknowledged

  /** A request may use up one placeholder for every keyword not known yet. */
  function AccountAfter(a: Account, req: Request): Account
  {
    var words := RequestWords(a.archive, req);
    Account(ArchiveAfter(a.archive, req), a.limit, a.known + words, a.room - |words - a.known|)
  }

  function AccountsAfter(accounts: map<int, Account>, call: Call): map<int, Account>
  {
    if call.Serve? && call.client in accounts then
      accounts[call.client := AccountAfter(accounts[call.client], call.request)]
    else if call.Init? && call.client !in accounts then accounts[call.client := NEW_ACCOUNT]
    else accounts
  }

  function RunAccounts(accounts: map<int, Account>, calls: seq<Call>): map<int, Account>
  {
    if calls == [] then accounts else AccountsAfter(RunAccounts(accounts, calls[..|calls| - 1]), calls[|calls| - 1])
  }

  /** Requests and SHUTDOWN come from clients with a database, and requests fit the request structures. */
  predicate Acceptable(accounts: map<int, Account>, call: Call)
  {
    match call
    case Init(_, key) => |key| == KEY_LEN
    case Serve(client, request) => client in accounts && InBounds(request)
    case Shutdown(client) => client in accounts
  }

  function ExpectedReply(accounts: map<int, Account>, call: Call): CallReply
    requires Acceptable(accounts, call)
  {
    if call.Serve? then Served(ReplyTo(accounts[call.client].archive, call.request, accounts[call.client].limit))
    else Acknowledged
  }

  /**
   The client's active context has no placeholder left, and it could have had fewer, later arrivals included,
   than the call has keywords not known yet.
   */
  predicate ShortOfRoom(accounts: map<int, Account>, call: Call, c: ClientContext)
  {
    && call.Serve? && call.client in accounts && c.clientId == call.client && c.dummyCount <= 0
    && var a := accounts[call.client];
       a.room + c.replenishCounter / 20 < |RequestWords(a.archive, call.request) - a.known|
  }

  /** The call is an update of a word that another document of the client is filed under. */
  predicate CallShares(accounts: map<int, Account>, call: Call)
  {
    call.Serve? && call.client in accounts && Sharing(accounts[call.client].archive, call.request)
  }

  /** The call leaves no keyword cache empty: it neither opens a database nor shuts one down. */
  predicate Steady(accounts: map<int, Account>, call: Call)
  {
    call.Serve? || (call.Init? && call.client in accounts)
  }

  /** What is left of the placeholders, counting those that went to keywords and not those that came later. */
  function Left(c: ClientContext): int
  {
    c.dummyCount + |RealKeys(c)| - c.replenishCounter / 20
  }

  lemma FedLeft(c: ClientContext, c': ClientContext, words: set<Text>)
    requires Fed(c, c', words, Arrivals(c, c'))
    ensures Left(c') >= Left(c) && RealKeys(c') <= RealKeys(c) + words
  {
    hide RealKeys;
  }

  /** The context's known keywords and placeholders are within the account. */
  ghost predicate Covered(c: ClientContext, a: Account)
  {
    RealKeys(c) <= a.known && Left(c) >= a.room + |a.known|
  }

  lemma CoveredAfter(c: ClientContext, c': ClientContext, a: Account, req: Request)
    requires Covered(c, a) && Fed(c, c', RequestWords(a.archive, req), Arrivals(c, c'))
    ensures Covered(c', AccountAfter(a, req))
  {
    hide RealKeys, RequestWords, ArchiveAfter, Left, Fed, Arrivals;
    var words := RequestWords(a.archive, req);
    FedLeft(c, c', words);
    SplitSize(a.known, a.known + words);
    assert a.known + words - a.known == words - a.known;
  }

  lemma ShortBecause(accounts: map<int, Account>, call: Call, c: ClientContext, c': ClientContext)
    requires call.Serve? && call.client in accounts && Covered(c, accounts[call.client]) && c'.clientId == call.client
    requires var words := RequestWords(accounts[call.client].archive, call.request);
             Fed(c, c', words, Arrivals(c, c')) && Hungry(c', words)
    ensures ShortOfRoom(accounts, call, c')
  {
    hide RealKeys, RequestWords, Fed, Arrivals, Real;
    var a := accounts[call.client];
    var words := RequestWords(a.archive, call.request);
    FedLeft(c, c', words);
    var w :| w in words && Real(w) && w !in c'.KVS;
    KeysAre(c');
    SubsetSize(RealKeys(c'), a.known + words - {w});
    OneOut(a.known + words, w);
    SplitSize(a.known, a.known + words);
    assert a.known + words - a.known == words - a.known;
  }

  lemma OneOut(a: set<Text>, w: Text)
    requires w in a
    ensures |a - {w}| == |a| - 1
  {
  }

  /** Wherever the client's context is, it covers this archive and can serve this many more requests. */
  ghost predicate ServingAt(w: World, x: int, edb: int, a: Account, budget: int)
  {
    var h := Held(w, x, edb);
    && h.Restored? && Covers(h.ctx, BitmapsOf(w, edb), DocsOf(w, edb), a.archive)
    && h.ctx.retrievalLimit == a.limit && Covered(h.ctx, a) && h.ctx.dummySize + budget <= DUMMY_LIMIT
  }

  /** Its index is exactly the archive's. */
  ghost predicate ExactAt(w: World, x: int, edb: int, archive: Archive)
  {
    var h := Held(w, x, edb);
    h.Restored? ==> Mirrors(h.ctx, BitmapsOf(w, edb), DocsOf(w, edb), archive)
  }

  /** A client that has a database already starts with exactly its archive's index. */
  ghost predicate StartsExact(w: World, own: map<int, int>, accounts: map<int, Account>, x: int)
  {
    x in own && x in accounts ==> ExactAt(w, x, own[x], accounts[x].archive)
  }

  /** Everybody but the given clients is served. */
  ghost predicate AllServing(w: World, own: map<int, int>, accounts: map<int, Account>, budget: int, but: set<int>)
  {
    && own.Keys == accounts.Keys
    && forall x :: x in own && x !in but ==> ServingAt(w, x, own[x], accounts[x], budget)
  }

  ghost predicate AllCompany(w: World, own: map<int, int>)
  {
    forall x :: x in own ==> CompanyAt(w, x, own[x])
  }

  ghost predicate AllLively(w: World, own: map<int, int>)
  {
    forall x :: x in own ==> LivelyAt(w, x, own[x])
  }

  /**
   The version bookkeeping of one client across everything that happened to it, eviction and reload
   included: slot counters grow by at most k and stored slot versions do not fall; with no keyword
   rewound, no stored keyword version is overwritten.
   */
  ghost predicate CarriedAt(w: World, w': World, x: int, edb: int, k: nat, unwound: bool)
  {
    var h, h' := Held(w, x, edb), Held(w', x, edb);
    h.Restored? ==>
      && h'.Restored? && h'.ctx.K == h.ctx.K
      && VersionsKept(h.ctx, DocsOf(w, edb), h'.ctx, DocsOf(w', edb), k)
      && (unwound ==> WriteOnce(h.ctx, BitmapsOf(w, edb), h'.ctx, BitmapsOf(w', edb)))
  }

  ghost predicate CarriedAll(w: World, w': World, own: map<int, int>, k: nat, unwound: bool)
  {
    forall x :: x in own ==> CarriedAt(w, w', x, own[x], k, unwound)
  }

  /** The counters of a database opened on the way: none lags by more than one, and none is behind a stored keyword. */
  ghost predicate BornAt(w: World, x: int, edb: int, unwound: bool)
  {
    var h := Held(w, x, edb);
    h.Restored? && VersionsLag(h.ctx, DocsOf(w, edb)) && (unwound ==> Fresh(h.ctx, BitmapsOf(w, edb)))
  }

  ghost predicate AllBorn(w: World, own: map<int, int>, own': map<int, int>, unwound: bool)
  {
    forall x :: x in own' && x !in own ==> BornAt(w, x, own'[x], unwound)
  }

  lemma CarriedAtTrans(w0: World, w1: World, w2: World, x: int, edb: int, j: nat, k: nat, a: bool, b: bool)
    requires CarriedAt(w0, w1, x, edb, j, a) && CarriedAt(w1, w2, x, edb, k, b)
    ensures CarriedAt(w0, w2, x, edb, j + k, a && b)
  {
    hide Held, VersionsKept, WriteOnce;
    var h0, h1, h2 := Held(w0, x, edb), Held(w1, x, edb), Held(w2, x, edb);
    if h0.Restored? {
      VersionsKeptTrans(h0.ctx, DocsOf(w0, edb), h1.ctx, DocsOf(w1, edb), h2.ctx, DocsOf(w2, edb), j, k);
      if a && b {
        WriteOnceTrans(h0.ctx, BitmapsOf(w0, edb), h1.ctx, BitmapsOf(w1, edb), h2.ctx, BitmapsOf(w2, edb));
      }
    }
  }

  lemma CarriedAtMore(w: World, w': World, x: int, edb: int, j: nat, k: nat, a: bool, b: bool)
    requires CarriedAt(w, w', x, edb, j, a) && j <= k && (b ==> a)
    ensures CarriedAt(w, w', x, edb, k, b)
  {
    hide Held, VersionsKept, WriteOnce;
    var h, h' := Held(w, x, edb), Held(w', x, edb);
    if h.Restored? {
      VersionsKeptMore(h.ctx, DocsOf(w, edb), h'.ctx, DocsOf(w', edb), j, k);
    }
  }

  lemma PreservedCarries(w: World, w': World, x: int, edb: int, k: nat)
    requires PreservedAt(w, w', x, edb, k)
    ensures CarriedAt(w, w', x, edb, k, true)
  {
    hide Held, SameView, SameContents, WriteOnce, VersionsKept;
  }

  lemma BornCarried(w: World, w': World, x: int, edb: int, k: nat, a: bool, b: bool)
    requires BornAt(w, x, edb, a) && CarriedAt(w, w', x, edb, k, b)
    ensures BornAt(w', x, edb, a && b)
  {
    hide Held, VersionsLag, NoRegress, Fresh, NoOverwrite;
  }

  lemma MirrorsSame(c: ClientContext, s: Store, d: DocStore, c': ClientContext, s': Store, d': DocStore,
                    archive: Archive, k: nat)
    requires SameClient(c, s, d, c', s', d', k)
    ensures Covers(c, s, d, archive) ==> Covers(c', s', d', archive)
    ensures Mirrors(c, s, d, archive) ==> Mirrors(c', s', d', archive)
  {
    hide Contents, ToString, View, TokensOf, WriteOnce, VersionsKept, AllReal, RealKeys;
    SameContentsByNumber(c, d, c', d');
  }

  lemma StillServing(w: World, w': World, x: int, edb: int, a: Account, budget: int, k: nat)
    requires PreservedAt(w, w', x, edb, k)
    ensures ServingAt(w, x, edb, a, budget) ==> ServingAt(w', x, edb, a, budget)
    ensures ExactAt(w, x, edb, a.archive) ==> ExactAt(w', x, edb, a.archive)
  {
    hide Held, Covers, Mirrors, SameView, SameContents, WriteOnce, VersionsKept, RealKeys;
    var h, h' := Held(w, x, edb), Held(w', x, edb);
    if h.Restored? {
      MirrorsSame(h.ctx, BitmapsOf(w, edb), DocsOf(w, edb), h'.ctx, BitmapsOf(w', edb), DocsOf(w', edb), a.archive, k);
    }
  }

  lemma SmallerBudget(w: World, x: int, edb: int, a: Account, budget: int, less: int)
    requires ServingAt(w, x, edb, a, budget) && less <= budget
    ensures ServingAt(w, x, edb, a, less)
  {
    hide Held, Covers, Covered;
  }

  /** What any number of calls does, whether or not they all succeed. */
  ghost predicate Stepped(w: World, own: map<int, int>, t: Tally, w': World, own': map<int, int>, t': Tally, k: nat)
  {
    && Settled(w', own') && ActiveOk(w', own')
    && (forall x :: x in own ==> x in own' && own'[x] == own[x])
    && Grew(t, t') && CarriedAll(w, w', own, k, t'.rewinds == t.rewinds)
    && AllBorn(w', own, own', t'.rewinds == t.rewinds)
    && (AllCompany(w, own) ==> AllCompany(w', own') && t'.barren == t.barren)
  }

  lemma SteppedRefl(w: World, own: map<int, int>, t: Tally)
    requires Settled(w, own) && ActiveOk(w, own)
    ensures Stepped(w, own, t, w, own, t, 0)
  {
    hide Settled, ActiveOk, CarriedAt, CompanyAt;
    forall x | x in own
      ensures CarriedAt(w, w, x, own[x], 0, true)
    {
      CarriedAtRefl(w, x, own[x]);
    }
  }

  lemma CarriedAtRefl(w: World, x: int, edb: int)
    ensures CarriedAt(w, w, x, edb, 0, true)
  {
    hide Held, VersionsKept, WriteOnce;
    var h := Held(w, x, edb);
    if h.Restored? {
      VersionsUntouched(h.ctx, DocsOf(w, edb), h.ctx, 0);
      WriteOnceRefl(h.ctx, BitmapsOf(w, edb));
    }
  }

  lemma SteppedTrans(w0: World, own0: map<int, int>, t0: Tally, w1: World, own1: map<int, int>, t1: Tally,
                     w2: World, own2: map<int, int>, t2: Tally, j: nat, k: nat)
    requires Stepped(w0, own0, t0, w1, own1, t1, j) && Stepped(w1, own1, t1, w2, own2, t2, k)
    ensures Stepped(w0, own0, t0, w2, own2, t2, j + k)
  {
    hide Settled, ActiveOk, CarriedAt, CompanyAt, BornAt;
    var a, b, c := t1.rewinds == t0.rewinds, t2.rewinds == t1.rewinds, t2.rewinds == t0.rewinds;
    forall x | x in own0
      ensures CarriedAt(w0, w2, x, own0[x], j + k, c)
    {
      CarriedAtTrans(w0, w1, w2, x, own0[x], j, k, a, b);
      CarriedAtMore(w0, w2, x, own0[x], j + k, j + k, a && b, c);
    }
    forall x | x in own2 && x !in own0
      ensures BornAt(w2, x, own2[x], c)
    {
      if x in own1 {
        BornCarried(w1, w2, x, own1[x], k, a, b);
        BornLess(w2, x, own2[x], a && b, c);
      } else {
        BornLess(w2, x, own2[x], b, c);
      }
    }
  }

  lemma BornLess(w: World, x: int, edb: int, a: bool, b: bool)
    requires BornAt(w, x, edb, a) && (b ==> a)
    ensures BornAt(w, x, edb, b)
  {
    hide Held, VersionsLag, Fresh;
  }

  lemma SteppedMore(w: World, own: map<int, int>, t: Tally, w': World, own': map<int, int>, t': Tally, j: nat, k: nat)
    requires Stepped(w, own, t, w', own', t', j) && j <= k
    ensures Stepped(w, own, t, w', own', t', k)
  {
    hide Settled, ActiveOk, CarriedAt, CompanyAt, AllBorn;
    forall x | x in own
      ensures CarriedAt(w, w', x, own[x], k, t'.rewinds == t.rewinds)
    {
      CarriedAtMore(w, w', x, own[x], j, k, t'.rewinds == t.rewinds, t'.rewinds == t.rewinds);
    }
  }

  // ----- one call

  /** Nobody but the given client notices anything. */
  ghost predicate OthersSpared(w: World, w': World, own: map<int, int>, client: int, k: nat)
  {
    forall x :: x in own && x != client ==> TransparentAt(w, w', x, own[x], k)
  }

  /** What the call means to the client that makes it. */
  ghost predicate CallerDone(w: World, own: map<int, int>, t: Tally, w': World, own': map<int, int>, t': Tally,
                             accounts: map<int, Account>, budget: int, call: Call, ok: bool, reply: CallReply)
    requires Acceptable(accounts, call)
  {
    var x, now := call.client, AccountsAfter(accounts, call);
    && (if ok then
          && x in own' && x in now && own' == own[x := own'[x]] && t'.misses == t.misses
          && ServingAt(w', x, own'[x], now[x], budget - 1)
        else own' == own && (t'.misses > t.misses || ShortOfRoom(accounts, call, w'.ctx) || !Roomy(w')))
    && (ok && StartsExact(w, own, accounts, x) ==>
      && reply == ExpectedReply(accounts, call) && (CallShares(accounts, call) || t'.losses == t.losses)
      && (ExactAt(w', x, own'[x], now[x].archive) <==> t'.losses == t.losses))
    && (ok && StartsExact(w, own, accounts, x) && call.Serve? && x in own && ActiveIs(w, x, own[x]) ==>
          (t'.losses == t.losses <==> !RequestLoses(w.ctx, accounts[x].archive, call.request)))
    && (x in own && LivelyAt(w, x, own[x]) && Steady(accounts, call) ==>
          LivelyAt(w', x, own[x]) && t'.losses == t.losses && t'.rewinds == t.rewinds)
  }

  /** The outcome of a call, for everybody. */
  ghost predicate CallDone(w: World, own: map<int, int>, t: Tally, w': World, own': map<int, int>, t': Tally,
                           accounts: map<int, Account>, budget: int, call: Call, ok: bool, reply: CallReply, k: nat)
    requires Acceptable(accounts, call)
  {
    && Stepped(w, own, t, w', own', t', k) && OthersSpared(w, w', own, call.client, k)
    && CallerDone(w, own, t, w', own', t', accounts, budget, call, ok, reply)
  }

  /** One client acts and the others notice nothing. */
  lemma OneActed(w: World, w': World, own: map<int, int>, own': map<int, int>, client: int, t: Tally, t': Tally, k: nat)
    requires client in own' && own' == own[client := own'[client]] && (client in own ==> own'[client] == own[client])
    requires OthersSpared(w, w', own, client, k) && Settled(w', own') && ActiveOk(w', own') && Grew(t, t')
    requires if client in own then CarriedAt(w, w', client, own[client], k, t'.rewinds == t.rewinds)
             else BornAt(w', client, own'[client], t'.rewinds == t.rewinds)
    requires (client in own ==> CompanyAt(w, client, own[client])) ==>
      CompanyAt(w', client, own'[client]) && t'.barren == t.barren
    ensures Stepped(w, own, t, w', own', t', k)
  {
    hide PreservedAt, CarriedAt, LivelyAt, CompanyAt, Settled, ActiveOk, BornAt;
    forall x | x in own && x != client
      ensures CarriedAt(w, w', x, own[x], k, t'.rewinds == t.rewinds)
    {
      PreservedCarries(w, w', x, own[x], k);
      CarriedAtMore(w, w', x, own[x], k, k, true, t'.rewinds == t.rewinds);
    }
  }

  /** The client that makes the call is the active one; nobody was disturbed. */
  ghost predicate Called(w0: World, w: World, own: map<int, int>, t: Tally, accounts: map<int, Account>, budget: int,
                         client: int)
  {
    && Stepped(w0, own, t, w, own, t, 1) && (forall x :: x in own ==> TransparentAt(w0, w, x, own[x], 1))
    && client in own && client in accounts && ActiveIs(w, client, own[client])
    && (ActiveIs(w0, client, own[client]) ==> w == w0)
    && own[client] > 0 && own[client] in w.bitmaps && own[client] in w.docs
    && Ready(w.ctx, w.bitmaps[own[client]], w.docs[own[client]])
    && Covers(w.ctx, w.bitmaps[own[client]], w.docs[own[client]], accounts[client].archive)
    && w.ctx.retrievalLimit == accounts[client].limit && Covered(w.ctx, accounts[client])
    && w.ctx.dummySize + budget <= DUMMY_LIMIT
  }

  /** Scheduling an owner always finds its context. */
  method CallIn(cm: ContextManager, host: Host, own: map<int, int>, client: int,
                ghost accounts: map<int, Account>, ghost budget: int)
    requires var w := WorldOf(cm, host); Settled(w, own) && ActiveOk(w, own) && Roomy(w)
    requires client in own && client in accounts
    requires ServingAt(WorldOf(cm, host), client, own[client], accounts[client], budget)
    modifies cm`ctx, cm`currentEdb, cm`inactive, host
    ensures Called(old(WorldOf(cm, host)), WorldOf(cm, host), own, cm.tally, accounts, budget, client)
  {
    hide Settled, ActiveOk, Roomy, ServingAt, Scheduled, Called;
    ghost var w0 := WorldOf(cm, host);
    var ret := ScheduleContext(cm, host, client, own[client], false, own);
    ScheduledCalls(w0, WorldOf(cm, host), own, cm.tally, accounts, budget, client, ret);
  }

  lemma ScheduledCalls(w0: World, w: World, own: map<int, int>, t: Tally, accounts: map<int, Account>, budget: int,
                       client: int, ret: int)
    requires client in own && client in accounts && ServingAt(w0, client, own[client], accounts[client], budget)
    requires Scheduled(w0, w, own, client, own[client], false, ret)
    requires ActiveIs(w0, client, own[client]) && own[client] != 0 ==> w == w0
    ensures ret == 0 && Called(w0, w, own, t, accounts, budget, client)
  {
    hide Held, Covers, Covered, Ready, Room, PreservedAt, HealthyAt, Elsewhere, LivelyAt, CompanyAt, CarriedAt;
    assert TransparentAt(w0, w, client, own[client], 1);
    ActiveOwner(w, own, client);
    forall x | x in own
      ensures CarriedAt(w0, w, x, own[x], 1, true)
    {
      assert TransparentAt(w0, w, x, own[x], 1);
      PreservedCarries(w0, w, x, own[x], 1);
    }
    StillServing(w0, w, client, own[client], accounts[client], budget, 1);
    assert HealthyAt(w, client, own[client]);
    ActiveIsHeld(w, own, client, accounts[client], budget);
  }

  lemma ActiveOwner(w: World, own: map<int, int>, client: int)
    requires client in own && ActiveIs(w, client, own[client])
    ensures ActiveOk(w, own)
  {
  }

  lemma ActiveIsHeld(w: World, own: map<int, int>, client: int, a: Account, budget: int)
    requires Owned(w, own) && client in own && ActiveIs(w, client, own[client]) && HealthyAt(w, client, own[client])
    requires ServingAt(w, client, own[client], a, budget)
    ensures own[client] > 0 && own[client] in w.bitmaps && own[client] in w.docs
    ensures Ready(w.ctx, w.bitmaps[own[client]], w.docs[own[client]])
    ensures Covers(w.ctx, w.bitmaps[own[client]], w.docs[own[client]], a.archive)
    ensures w.ctx.retrievalLimit == a.limit && Covered(w.ctx, a) && w.ctx.dummySize + budget <= DUMMY_LIMIT
  {
    hide Ready, Covers, Unseal, Covered;
  }

  lemma CalledGives(w0: World, w: World, own: map<int, int>, t: Tally, accounts: map<int, Account>, budget: int,
                    client: int)
    requires Called(w0, w, own, t, accounts, budget, client)
    ensures client in own && client in accounts && own[client] > 0 && own[client] in w.bitmaps && own[client] in w.docs
    ensures ActiveIs(w, client, own[client]) && Settled(w, own) && ActiveOk(w, own)
    ensures TransparentAt(w0, w, client, own[client], 1)
    ensures Ready(w.ctx, w.bitmaps[own[client]], w.docs[own[client]])
    ensures Covers(w.ctx, w.bitmaps[own[client]], w.docs[own[client]], accounts[client].archive)
    ensures Covered(w.ctx, accounts[client]) && w.ctx.dummySize + budget <= DUMMY_LIMIT
    ensures w.ctx.retrievalLimit == accounts[client].limit
  {
    hide Settled, Ready, Covers, AllCompany, CarriedAll, AllBorn, TransparentAt, Covered;
  }

  /** Scheduling followed by what the call then does. */
  lemma CallCompletes(w0: World, w1: World, w2: World, own: map<int, int>, t: Tally, t': Tally,
                      accounts: map<int, Account>, budget: int, call: Call, ok: bool, reply: CallReply, k: nat)
    requires Called(w0, w1, own, t, accounts, budget, call.client) && Acceptable(accounts, call) && k <= 2
    requires CallDone(w1, own, t, w2, own, t', accounts, budget, call, ok, reply, k)
    ensures CallDone(w0, own, t, w2, own, t', accounts, budget, call, ok, reply, 3)
  {
    hide Stepped, Ready, Covers, Roomy, Acceptable, TransparentAt, CallerDone, Covered;
    SteppedTrans(w0, own, t, w1, own, t, w2, own, t', 1, k);
    SteppedMore(w0, own, t, w2, own, t', 1 + k, 3);
    forall x | x in own && x != call.client
      ensures TransparentAt(w0, w2, x, own[x], 3)
    {
      TransparentAtTrans(w0, w1, w2, x, own[x], 1, k);
      TransparentAtMore(w0, w2, x, own[x], 1 + k, 3);
    }
    CallerCompletes(w0, w1, w2, own, t, t', accounts, budget, call, ok, reply);
  }

  lemma CallerCompletes(w0: World, w1: World, w2: World, own: map<int, int>, t: Tally, t': Tally,
                        accounts: map<int, Account>, budget: int, call: Call, ok: bool, reply: CallReply)
    requires call.client in own && call.client in accounts && TransparentAt(w0, w1, call.client, own[call.client], 1)
    requires ActiveIs(w0, call.client, own[call.client]) ==> w1 == w0
    requires Acceptable(accounts, call) && CallerDone(w1, own, t, w2, own, t', accounts, budget, call, ok, reply)
    ensures CallerDone(w0, own, t, w2, own, t', accounts, budget, call, ok, reply)
  {
    hide Acceptable, PreservedAt, ServingAt, ExactAt, LivelyAt, CompanyAt, Roomy, AccountsAfter, ShortOfRoom,
         CallShares, ExpectedReply;
    StillServing(w0, w1, call.client, own[call.client], accounts[call.client], budget, 1);
  }

  /** One request of one client: schedule its context, then serve it. */
  method ServeOne(cm: ContextManager, host: Host, own: map<int, int>, call: Call,
                  ghost accounts: map<int, Account>, ghost budget: int)
    returns (ok: bool, reply: CallReply)
    requires var w := WorldOf(cm, host); Settled(w, own) && ActiveOk(w, own) && Roomy(w)
    requires AllServing(WorldOf(cm, host), own, accounts, budget, {})
    requires call.Serve? && Acceptable(accounts, call) && budget > 0
    modifies cm, host
    ensures CallDone(old(WorldOf(cm, host)), own, old(cm.tally), WorldOf(cm, host), own, cm.tally,
                     accounts, budget, call, ok, reply, 3)
  {
    hide Settled, ActiveOk, Roomy, Called, CallDone, InBounds, Ready, Covers, Mirrors, ReplyTo, ArchiveAfter, Sharing,
         RequestCost, Advanced, Covered, RequestWords, Hungry, RequestLoses;
    var client := call.client;
    ghost var w0, t := WorldOf(cm, host), cm.tally;
    ServersKnown(w0, own, accounts, budget, client);
    hide AllServing, ServingAt;
    CallIn(cm, host, own, client, accounts, budget);
    ghost var w1 := WorldOf(cm, host);
    CalledGives(w0, w1, own, t, accounts, budget, client);
    var answer: Reply;
    ok, answer := HandleRequest(cm, host, own[client], call.request, accounts[client].archive);
    reply := Served(answer);
    RequestDone(w1, WorldOf(cm, host), own, t, cm.tally, accounts, budget, call, ok, answer);
    CallCompletes(w0, w1, WorldOf(cm, host), own, t, cm.tally, accounts, budget, call, ok, reply, 2);
  }

  lemma ServersKnown(w: World, own: map<int, int>, accounts: map<int, Account>, budget: int, client: int)
    requires AllServing(w, own, accounts, budget, {})
    ensures own.Keys == accounts.Keys
    ensures client in own ==> client in accounts && ServingAt(w, client, own[client], accounts[client], budget)
  {
    hide ServingAt;
  }

  /** What handle_request leaves for the active client. */
  ghost predicate RequestEffect(w: World, w': World, edb: int, t: Tally, t': Tally, a: Account, req: Request,
                                ok: bool, answer: Reply)
    requires edb in w.bitmaps && edb in w.docs && edb in w'.bitmaps && edb in w'.docs && InBounds(req)
  {
    var c, s, d, c', s', d' := w.ctx, w.bitmaps[edb], w.docs[edb], w'.ctx, w'.bitmaps[edb], w'.docs[edb];
    && (ok ==> t'.misses == t.misses) && (!ok ==> t'.misses > t.misses || Hungry(c', RequestWords(a.archive, req)))
    && Ready(c', s', d')
    && Advanced(c, s, d, t, c', s', d', t', 1, RequestCost(a.archive, req), RequestWords(a.archive, req))
    && (ok ==> Covers(c', s', d', ArchiveAfter(a.archive, req)))
    && (ok && Mirrors(c, s, d, a.archive) ==>
      && answer == ReplyTo(a.archive, req, c.retrievalLimit)
      && (Mirrors(c', s', d', ArchiveAfter(a.archive, req)) <==> !RequestLoses(c, a.archive, req))
      && (t'.losses == t.losses <==> !RequestLoses(c, a.archive, req))
      && (Sharing(a.archive, req) || t'.losses == t.losses))
  }

  lemma RequestDone(w: World, w': World, own: map<int, int>, t: Tally, t': Tally,
                    accounts: map<int, Account>, budget: int, call: Call, ok: bool, answer: Reply)
    requires call.Serve? && Acceptable(accounts, call) && call.client in own
    requires Settled(w, own) && ActiveIs(w, call.client, own[call.client])
    requires own[call.client] in w.bitmaps && own[call.client] in w.docs
    requires own[call.client] in w'.bitmaps && own[call.client] in w'.docs
    requires w' == w.(ctx := w'.ctx, bitmaps := w.bitmaps[own[call.client] := w'.bitmaps[own[call.client]]],
                      docs := w.docs[own[call.client] := w'.docs[own[call.client]]])
    requires RequestEffect(w, w', own[call.client], t, t', accounts[call.client], call.request, ok, answer)
    requires w.ctx.retrievalLimit == accounts[call.client].limit && Covered(w.ctx, accounts[call.client])
    requires w.ctx.dummySize + budget <= DUMMY_LIMIT
    ensures CallDone(w, own, t, w', own, t', accounts, budget, call, ok, Served(answer), 2)
  {
    hide Covers, Mirrors, Ready, OthersSpared, HealthyAt, ServingAt, ExactAt, LivelyAt, CompanyAt, ArchiveAfter,
         ReplyTo, Advanced, CarriedAt, BornAt, Sharing, RequestCost, InBounds, Roomy, Settled, ActiveOk, Stepped,
         RequestWords, Covered, Hungry, RequestLoses, AccountAfter, CallerDone, ShortOfRoom;
    var client := call.client;
    var edb, a := own[client], accounts[client];
    RequestKeeps(w, w', edb, t, t', a, call.request, ok, answer);
    OnlyActive(w, w', own, client);
    ActiveAdvanced(w, w', edb, client, t, t', RequestCost(a.archive, call.request),
                   RequestWords(a.archive, call.request));
    assert own == own[client := own[client]];
    OneActed(w, w', own, own, client, t, t', 2);
    RequestCaller(w, w', own, t, t', accounts, budget, call, ok, answer);
  }

  lemma RequestKeeps(w: World, w': World, edb: int, t: Tally, t': Tally, a: Account, req: Request, ok: bool,
                     answer: Reply)
    requires edb in w.bitmaps && edb in w.docs && edb in w'.bitmaps && edb in w'.docs && InBounds(req)
    requires RequestEffect(w, w', edb, t, t', a, req, ok, answer)
    ensures w'.ctx.clientId == w.ctx.clientId && Ready(w'.ctx, w'.bitmaps[edb], w'.docs[edb])
    ensures w'.ctx.retrievalLimit == w.ctx.retrievalLimit && w'.ctx.dummySize <= w.ctx.dummySize + 1
    ensures Fed(w.ctx, w'.ctx, RequestWords(a.archive, req), Arrivals(w.ctx, w'.ctx))
  {
    hide Ready, Mirrors, Covers, WriteOnce, VersionsKept, Companions, Spent, Fed, Arrivals, RequestWords, Hungry,
         RequestLoses, ReplyTo, ArchiveAfter, InBounds, Sharing, RequestCost;
  }

  lemma RequestCaller(w: World, w': World, own: map<int, int>, t: Tally, t': Tally,
                      accounts: map<int, Account>, budget: int, call: Call, ok: bool, answer: Reply)
    requires call.Serve? && Acceptable(accounts, call) && call.client in own
    requires ActiveIs(w, call.client, own[call.client]) && ActiveIs(w', call.client, own[call.client])
    requires own[call.client] in w.bitmaps && own[call.client] in w.docs
    requires own[call.client] in w'.bitmaps && own[call.client] in w'.docs
    requires RequestEffect(w, w', own[call.client], t, t', accounts[call.client], call.request, ok, answer)
    requires w.ctx.retrievalLimit == accounts[call.client].limit && Covered(w.ctx, accounts[call.client])
    requires w.ctx.dummySize + budget <= DUMMY_LIMIT
    requires LivelyAt(w, call.client, own[call.client]) ==>
      LivelyAt(w', call.client, own[call.client]) && t'.losses == t.losses && t'.rewinds == t.rewinds
    ensures CallerDone(w, own, t, w', own, t', accounts, budget, call, ok, Served(answer))
  {
    hide Covers, Mirrors, Ready, ServingAt, ExactAt, LivelyAt, ArchiveAfter, ReplyTo, Advanced, Sharing, RequestCost,
         InBounds, Roomy, RequestWords, Covered, Hungry, RequestLoses, AccountAfter, ShortOfRoom;
    var client := call.client;
    var edb, a := own[client], accounts[client];
    var a' := AccountAfter(a, call.request);
    RequestKeeps(w, w', edb, t, t', a, call.request, ok, answer);
    AccountGives(a, call.request);
    CoveredAfter(w.ctx, w'.ctx, a, call.request);
    assert own == own[client := own[client]];
    if ok {
      ActiveServes(w', client, edb, a', budget - 1);
    } else if Hungry(w'.ctx, RequestWords(a.archive, call.request)) {
      ShortBecause(accounts, call, w.ctx, w'.ctx);
    }
    ActiveExact(w, client, edb, a.archive);
    ActiveExact(w', client, edb, a'.archive);
  }

  lemma AccountGives(a: Account, req: Request)
    ensures AccountAfter(a, req).archive == ArchiveAfter(a.archive, req) && AccountAfter(a, req).limit == a.limit
  {
    hide ArchiveAfter, RequestWords;
  }

  lemma ActiveAdvanced(w: World, w': World, edb: int, client: int, t: Tally, t': Tally, cost: nat, words: set<Text>)
    requires ActiveIs(w, client, edb) && ActiveIs(w', client, edb)
    requires edb in w.bitmaps && edb in w.docs && edb in w'.bitmaps && edb in w'.docs
    requires Advanced(w.ctx, w.bitmaps[edb], w.docs[edb], t, w'.ctx, w'.bitmaps[edb], w'.docs[edb], t', 1, cost, words)
    ensures CarriedAt(w, w', client, edb, 2, t'.rewinds == t.rewinds) && Grew(t, t')
    ensures CompanyAt(w, client, edb) ==> CompanyAt(w', client, edb) && t'.barren == t.barren
    ensures LivelyAt(w, client, edb) ==> LivelyAt(w', client, edb) && t'.losses == t.losses && t'.rewinds == t.rewinds
  {
    hide Unseal, WriteOnce, VersionsKept, Companions, Fed, Arrivals;
  }

  lemma ActiveServes(w: World, x: int, edb: int, a: Account, budget: int)
    requires ActiveIs(w, x, edb) && edb in w.bitmaps && edb in w.docs
    requires Covers(w.ctx, w.bitmaps[edb], w.docs[edb], a.archive)
    requires w.ctx.retrievalLimit == a.limit && Covered(w.ctx, a) && w.ctx.dummySize + budget <= DUMMY_LIMIT
    ensures ServingAt(w, x, edb, a, budget)
  {
    hide Covers, Unseal, Covered;
  }

  lemma ActiveExact(w: World, x: int, edb: int, archive: Archive)
    requires ActiveIs(w, x, edb) && edb in w.bitmaps && edb in w.docs
    ensures ExactAt(w, x, edb, archive) <==> Mirrors(w.ctx, w.bitmaps[edb], w.docs[edb], archive)
  {
    hide Mirrors, Unseal;
  }

  /** Work on the active client's context and stores reaches nobody else, and leaves everything settled. */
  lemma OnlyActive(w: World, w': World, own: map<int, int>, client: int)
    requires Settled(w, own) && client in own && ActiveIs(w, client, own[client])
    requires own[client] in w.bitmaps && own[client] in w.docs && own[client] in w'.bitmaps && own[client] in w'.docs
    requires w' == w.(ctx := w'.ctx, bitmaps := w.bitmaps[own[client] := w'.bitmaps[own[client]]],
                      docs := w.docs[own[client] := w'.docs[own[client]]])
    requires w'.ctx.clientId == client && Ready(w'.ctx, w'.bitmaps[own[client]], w'.docs[own[client]])
    ensures Settled(w', own) && ActiveOk(w', own) && ActiveIs(w', client, own[client])
    ensures OthersSpared(w, w', own, client, 2)
  {
    hide Ready, TransparentAt, HealthyAt;
    ActiveHealthy(w', client, own[client]);
    forall x | x in own && x != client
      ensures HealthyAt(w', x, own[x]) && TransparentAt(w, w', x, own[x], 2)
    {
      assert HealthyAt(w, x, own[x]);
      OtherDatabase(w, w', x, own[x], own[client]);
      TransparentAtMore(w, w', x, own[x], 0, 2);
    }
  }

  /** SHUTDOWN: schedule the client's context, then write it to storage. */
  method ShutOne(cm: ContextManager, host: Host, own: map<int, int>, call: Call,
                 ghost accounts: map<int, Account>, ghost budget: int)
    returns (ok: bool)
    requires var w := WorldOf(cm, host); Settled(w, own) && ActiveOk(w, own) && Roomy(w)
    requires AllServing(WorldOf(cm, host), own, accounts, budget, {})
    requires call.Shutdown? && Acceptable(accounts, call) && budget > 0
    modifies cm`ctx, cm`currentEdb, cm`inactive, host
    ensures CallDone(old(WorldOf(cm, host)), own, cm.tally, WorldOf(cm, host), own, cm.tally,
                     accounts, budget, call, ok, Acknowledged, 3)
    ensures call.client in own
    ensures PreservedAt(old(WorldOf(cm, host)), WorldOf(cm, host), call.client, own[call.client], 3)
    ensures ok ==> RevivesAt(old(WorldOf(cm, host)), WorldOf(cm, host), call.client, own[call.client])
  {
    hide Settled, ActiveOk, Roomy, Called, CallDone, Ready, Covers, PersistedFor, PreservedAt, RevivesAt, Covered,
         LivelyAt, CompanyAt;
    var client := call.client;
    ghost var w0, t := WorldOf(cm, host), cm.tally;
    ServersKnown(w0, own, accounts, budget, client);
    hide AllServing, ServingAt;
    CallIn(cm, host, own, client, accounts, budget);
    ghost var w1 := WorldOf(cm, host);
    CalledGives(w0, w1, own, t, accounts, budget, client);
    ok := Roomy(WorldOf(cm, host));
    if !ok {
      NoRoomToPersist(w1, own, t, accounts, budget, call);
      CallCompletes(w0, w1, w1, own, t, t, accounts, budget, call, false, Acknowledged, 0);
      PreservedMore(w0, w1, client, own[client], 1, 3);
      return;
    }
    PersistContext(cm, host, own[client], own, client);
    ActiveHolds(w1, own, client, accounts[client], budget);
    ShutdownDone(w1, WorldOf(cm, host), own, t, accounts, budget, call);
    StillRevives(w0, w1, WorldOf(cm, host), client, own[client]);
    PreservedTrans(w0, w1, WorldOf(cm, host), client, own[client], 1, 1);
    PreservedMore(w0, WorldOf(cm, host), client, own[client], 2, 3);
    CallCompletes(w0, w1, WorldOf(cm, host), own, t, t, accounts, budget, call, true, Acknowledged, 1);
  }

  lemma PreservedTrans(w0: World, w1: World, w2: World, x: int, edb: int, j: nat, k: nat)
    requires PreservedAt(w0, w1, x, edb, j) && PreservedAt(w1, w2, x, edb, k)
    ensures PreservedAt(w0, w2, x, edb, j + k)
  {
    hide Held, SameClient;
    var h0, h1, h2 := Held(w0, x, edb), Held(w1, x, edb), Held(w2, x, edb);
    if h0.Restored? {
      SameClientTrans(h0.ctx, BitmapsOf(w0, edb), DocsOf(w0, edb), h1.ctx, BitmapsOf(w1, edb), DocsOf(w1, edb),
                      h2.ctx, BitmapsOf(w2, edb), DocsOf(w2, edb), j, k);
    }
  }

  lemma PreservedMore(w: World, w': World, x: int, edb: int, j: nat, k: nat)
    requires PreservedAt(w, w', x, edb, j) && j <= k
    ensures PreservedAt(w, w', x, edb, k)
  {
    hide Held, SameClient;
    var h, h' := Held(w, x, edb), Held(w', x, edb);
    if h.Restored? {
      SameClientMore(h.ctx, BitmapsOf(w, edb), DocsOf(w, edb), h'.ctx, BitmapsOf(w', edb), DocsOf(w', edb), j, k);
    }
  }

  lemma PreservedRefl(w: World, x: int, edb: int)
    ensures PreservedAt(w, w, x, edb, 0)
  {
    hide Held, SameClient;
    var h := Held(w, x, edb);
    if h.Restored? {
      SameClientRefl(h.ctx, BitmapsOf(w, edb), DocsOf(w, edb));
    }
  }

  lemma ActiveHolds(w: World, own: map<int, int>, client: int, a: Account, budget: int)
    requires client in own && ActiveIs(w, client, own[client]) && own[client] in w.bitmaps && own[client] in w.docs
    requires Covers(w.ctx, w.bitmaps[own[client]], w.docs[own[client]], a.archive)
    requires w.ctx.retrievalLimit == a.limit && Covered(w.ctx, a) && w.ctx.dummySize + budget <= DUMMY_LIMIT
    ensures ServingAt(w, client, own[client], a, budget)
  {
    hide Covers, Covered;
    ActiveServes(w, client, own[client], a, budget);
  }

  lemma NoRoomToPersist(w: World, own: map<int, int>, t: Tally, accounts: map<int, Account>, budget: int, call: Call)
    requires call.Shutdown? && Acceptable(accounts, call) && Settled(w, own) && ActiveOk(w, own) && !Roomy(w)
    ensures CallDone(w, own, t, w, own, t, accounts, budget, call, false, Acknowledged, 0)
  {
    hide Settled, ActiveOk, Roomy, Stepped, TransparentAt, ServingAt, ExactAt, LivelyAt;
    SteppedRefl(w, own, t);
    NobodyMoved(w, own, call.client);
  }

  lemma NobodyMoved(w: World, own: map<int, int>, client: int)
    ensures OthersSpared(w, w, own, client, 0)
  {
    hide TransparentAt;
    forall x | x in own
      ensures TransparentAt(w, w, x, own[x], 0)
    {
      Unmoved(w, w, x, own[x]);
    }
  }

  lemma ShutdownDone(w: World, w': World, own: map<int, int>, t: Tally, accounts: map<int, Account>, budget: int,
                     call: Call)
    requires call.Shutdown? && Acceptable(accounts, call) && call.client in own
    requires ServingAt(w, call.client, own[call.client], accounts[call.client], budget)
    requires PersistedFor(w, w', own, call.client)
    ensures CallDone(w, own, t, w', own, t, accounts, budget, call, true, Acknowledged, 1)
    ensures RevivesAt(w, w', call.client, own[call.client]) && PreservedAt(w, w', call.client, own[call.client], 1)
  {
    hide Settled, ActiveOk, TransparentAt, PreservedAt, ServingAt, ExactAt, LivelyAt, CompanyAt, CarriedAt, BornAt,
         Roomy, Stepped;
    var x, a := call.client, accounts[call.client];
    var edb := own[x];
    forall y | y in own && y != x
      ensures TransparentAt(w, w', y, own[y], 1)
    {
      TransparentAtMore(w, w', y, own[y], 0, 1);
    }
    PreservedCarries(w, w', x, edb, 1);
    StillServing(w, w', x, edb, a, budget, 1);
    SmallerBudget(w', x, edb, a, budget, budget - 1);
    assert own == own[x := own[x]];
    OneActed(w, w', own, own, x, t, t, 1);
  }

  lemma StillRevives(w0: World, w: World, w': World, x: int, edb: int)
    requires PreservedAt(w0, w, x, edb, 1) && RevivesAt(w, w', x, edb)
    ensures RevivesAt(w0, w', x, edb)
  {
    hide Held, SameView, SameContents, WriteOnce, VersionsKept, LivelyAt, CompanyAt;
  }

  /** register_edb: a new database number with nothing stored under it. */
  method RegisterEdb(host: Host, edb: int)
    modifies host`bitmaps, host`docs
    ensures host.bitmaps == old(host.bitmaps)[edb := map[]] && host.docs == old(host.docs)[edb := map[]]
  {
    host.bitmaps := host.bitmaps[edb := map[]];
    host.docs := host.docs[edb := map[]];
  }

  lemma Registered(w: World, w': World, own: map<int, int>, client: int, edb: int)
    requires Settled(w, own) && ActiveOk(w, own) && Roomy(w) && client !in own && edb > 0 && Unowned(own, edb)
    requires w' == w.(bitmaps := w.bitmaps[edb := map[]], docs := w.docs[edb := map[]])
    ensures Settled(w', own) && ActiveOk(w', own) && Roomy(w') && Unused(w', own, client, edb)
    ensures forall x :: x in own ==> TransparentAt(w, w', x, own[x], 0)
  {
    hide TransparentAt, HealthyAt, Room, DefaultContext;
    forall x | x in own
      ensures TransparentAt(w, w', x, own[x], 0) && HealthyAt(w', x, own[x])
    {
      assert HealthyAt(w, x, own[x]);
      NotRegistered(w, w', x, own[x], edb);
    }
  }

  lemma NotRegistered(w: World, w': World, x: int, other: int, edb: int)
    requires other != edb && HealthyAt(w, x, other)
    requires w' == w.(bitmaps := w.bitmaps[edb := map[]], docs := w.docs[edb := map[]])
    ensures TransparentAt(w, w', x, other, 0) && HealthyAt(w', x, other)
  {
    hide Unseal, TransparentAt, HealthyAt;
    Unmoved(w, w', x, other);
  }

  /** Database numbers from here on are free. */
  predicate NextFree(own: map<int, int>, next: int)
  {
    next > 0 && forall x :: x in own ==> own[x] < next
  }

  lemma NextUnused(own: map<int, int>, next: int)
    requires NextFree(own, next)
    ensures Unowned(own, next)
  {
  }

  /** INIT: a known client is scheduled, a new one gets a database of its own. */
  method InitOne(cm: ContextManager, host: Host, own: map<int, int>, next: int, call: Call,
                 ghost accounts: map<int, Account>, ghost budget: int)
    returns (own': map<int, int>, next': int)
    requires var w := WorldOf(cm, host); Settled(w, own) && ActiveOk(w, own) && Roomy(w)
    requires AllServing(WorldOf(cm, host), own, accounts, budget, {})
    requires call.Init? && Acceptable(accounts, call) && budget > 0 && NextFree(own, next)
    requires 1000 + budget <= DUMMY_LIMIT
    modifies cm`ctx, cm`currentEdb, cm`inactive, host
    ensures NextFree(own', next') && own' == if call.client in own then own else own[call.client := next]
    ensures CallDone(old(WorldOf(cm, host)), own, cm.tally, WorldOf(cm, host), own', cm.tally,
                     accounts, budget, call, true, Acknowledged, 3)
    ensures call.client !in own ==> ExactAt(WorldOf(cm, host), call.client, next, EMPTY_ARCHIVE)
  {
    hide Settled, ActiveOk, Roomy, Called, CallDone, Mirrors, Fresh, VersionsLag, Ready, Companions, TransparentAt,
         Unused, Covered, RealKeys, ExactAt;
    var client := call.client;
    ghost var w0, t := WorldOf(cm, host), cm.tally;
    ServersKnown(w0, own, accounts, budget, client);
    hide AllServing, ServingAt;
    own', next' := own, next;
    if client in own {
      CallIn(cm, host, own, client, accounts, budget);
      ghost var w1 := WorldOf(cm, host);
      CalledGives(w0, w1, own, t, accounts, budget, client);
      ActiveHolds(w1, own, client, accounts[client], budget);
      KnownInit(w1, own, t, accounts, budget, call);
      CallCompletes(w0, w1, w1, own, t, t, accounts, budget, call, true, Acknowledged, 0);
      return;
    }
    NextUnused(own, next);
    RegisterEdb(host, next);
    ghost var w1 := WorldOf(cm, host);
    Registered(w0, w1, own, client, next);
    InitClient(cm, host, client, next, call.key, own);
    own', next' := own[client := next], next + 1;
    OpenDone(w0, w1, WorldOf(cm, host), own, own', t, accounts, budget, call, next);
  }

  lemma KnownInit(w: World, own: map<int, int>, t: Tally, accounts: map<int, Account>, budget: int, call: Call)
    requires call.Init? && call.client in own && call.client in accounts && Acceptable(accounts, call)
    requires Settled(w, own) && ActiveOk(w, own)
    requires ServingAt(w, call.client, own[call.client], accounts[call.client], budget)
    ensures CallDone(w, own, t, w, own, t, accounts, budget, call, true, Acknowledged, 0)
  {
    hide Settled, ActiveOk, Roomy, Stepped, ServingAt, TransparentAt, ExactAt, LivelyAt;
    var x := call.client;
    SteppedRefl(w, own, t);
    NobodyMoved(w, own, x);
    SmallerBudget(w, x, own[x], accounts[x], budget, budget - 1);
    assert own == own[x := own[x]];
  }

  lemma OpenDone(w0: World, w1: World, w2: World, own: map<int, int>, own': map<int, int>, t: Tally,
                 accounts: map<int, Account>, budget: int, call: Call, edb: int)
    requires call.Init? && call.client !in own && own.Keys == accounts.Keys && Acceptable(accounts, call)
    requires 1000 + budget <= DUMMY_LIMIT
    requires own' == own[call.client := edb] && Settled(w2, own') && ActiveIs(w2, call.client, edb)
    requires forall x :: x in own ==> TransparentAt(w0, w1, x, own[x], 0) && TransparentAt(w1, w2, x, own[x], 1)
    requires edb in w2.bitmaps && edb in w2.docs && Refines(w2.ctx, w2.bitmaps[edb], w2.docs[edb], map[])
    requires Fresh(w2.ctx, w2.bitmaps[edb]) && VersionsLag(w2.ctx, w2.docs[edb])
    requires Companions(w2.ctx) && |w2.ctx.KVS| == 1000 && w2.ctx.ckMax == 10
    requires w2.ctx.dummySize == w2.ctx.dummyCount == 1000 && w2.ctx.retrievalLimit == 100
    requires RealKeys(w2.ctx) == {} && w2.ctx.replenishCounter == 0
    ensures CallDone(w0, own, t, w2, own', t, accounts, budget, call, true, Acknowledged, 3)
    ensures ExactAt(w2, call.client, edb, EMPTY_ARCHIVE)
  {
    hide Settled, Refines, Mirrors, Covers, TransparentAt, ServingAt, ExactAt, LivelyAt, CompanyAt, CarriedAt, BornAt,
         Roomy, Companions, Stepped, RealKeys;
    forall x | x in own
      ensures TransparentAt(w0, w2, x, own[x], 3)
    {
      TransparentAtTrans(w0, w1, w2, x, own[x], 0, 1);
      TransparentAtMore(w0, w2, x, own[x], 1, 3);
    }
    OpenedEmpty(w2.ctx, w2.bitmaps[edb], w2.docs[edb]);
    ActiveServes(w2, call.client, edb, NEW_ACCOUNT, budget - 1);
    ActiveExact(w2, call.client, edb, EMPTY_ARCHIVE);
    ActiveBorn(w2, call.client, edb);
    ActiveOwner(w2, own', call.client);
    OneActed(w0, w2, own, own', call.client, t, t, 3);
  }

  lemma OpenedEmpty(c: ClientContext, s: Store, d: DocStore)
    requires Refines(c, s, d, map[])
    ensures Mirrors(c, s, d, EMPTY_ARCHIVE) && Covers(c, s, d, EMPTY_ARCHIVE)
  {
    hide Refines, Mirrors, Covers, Plain;
    EmptyIsPlain();
    PlainRefines(c, s, d, EMPTY_ARCHIVE, map[]);
    MirrorsCovers(c, s, d, EMPTY_ARCHIVE);
  }

  lemma ActiveBorn(w: World, x: int, edb: int)
    requires ActiveIs(w, x, edb) && Companions(w.ctx) && |w.ctx.KVS| > w.ctx.ckMax && edb in w.bitmaps && edb in w.docs
    requires Fresh(w.ctx, w.bitmaps[edb]) && VersionsLag(w.ctx, w.docs[edb])
    ensures CompanyAt(w, x, edb) && BornAt(w, x, edb, true)
  {
    hide Unseal, Companions, Fresh, VersionsLag;
  }

  // ----- interleaved calls

  /** Every call is acceptable where it comes. */
  predicate AcceptableCalls(accounts: map<int, Account>, calls: seq<Call>)
  {
    forall i :: 0 <= i < |calls| ==> Acceptable(RunAccounts(accounts, calls[..i]), calls[i])
  }

  /** No call of this client updates a word that another of its documents is filed under. */
  predicate NothingSharedBy(accounts: map<int, Account>, calls: seq<Call>, x: int)
  {
    forall i :: 0 <= i < |calls| && calls[i].client == x ==> !CallShares(RunAccounts(accounts, calls[..i]), calls[i])
  }

  predicate SteadyBy(accounts: map<int, Account>, calls: seq<Call>, x: int)
  {
    forall i :: 0 <= i < |calls| && calls[i].client == x ==> Steady(RunAccounts(accounts, calls[..i]), calls[i])
  }

  predicate SilentBy(calls: seq<Call>, x: int)
  {
    forall i :: 0 <= i < |calls| ==> calls[i].client != x
  }

  /** Every client that started with an exact index and has lost nothing has an exact index. */
  ghost predicate Sound(w0: World, own0: map<int, int>, accounts0: map<int, Account>,
                        w: World, own: map<int, int>, accounts: map<int, Account>, lossy: set<int>)
  {
    forall x :: x in own && x in accounts && x !in lossy && StartsExact(w0, own0, accounts0, x) ==>
      ExactAt(w, x, own[x], accounts[x].archive)
  }

  /** The replies of such a client are those of its own archive. */
  ghost predicate CallsAnswered(w0: World, own0: map<int, int>, accounts0: map<int, Account>,
                                calls: seq<Call>, replies: seq<CallReply>, lossy: set<int>)
  {
    && |replies| <= |calls|
    && forall i :: 0 <= i < |replies| ==>
      calls[i].client !in lossy && StartsExact(w0, own0, accounts0, calls[i].client) ==>
      var now := RunAccounts(accounts0, calls[..i]);
      Acceptable(now, calls[i]) && replies[i] == ExpectedReply(now, calls[i])
  }

  /** A client that makes no call finds its database as it was; a full cache stays full through steady calls. */
  ghost predicate Isolated(w0: World, own0: map<int, int>, accounts0: map<int, Account>,
                           w: World, calls: seq<Call>, lossy: set<int>, k: nat)
  {
    && (forall x :: x in own0 && SilentBy(calls, x) ==> PreservedAt(w0, w, x, own0[x], k) && x !in lossy)
    && (forall x :: x in own0 && LivelyAt(w0, x, own0[x]) && SteadyBy(accounts0, calls, x) ==>
          LivelyAt(w, x, own0[x]) && x !in lossy)
    && (forall x :: StartsExact(w0, own0, accounts0, x) && NothingSharedBy(accounts0, calls, x) ==> x !in lossy)
  }

  /** Only a completed call that drops another document's bit makes its client lossy. */
  function LossyAfter(lossy: set<int>, client: int, t: Tally, t': Tally): set<int>
  {
    if t'.losses == t.losses then lossy else lossy + {client}
  }

  /**
   Any interleaving of calls from any number of clients, INIT and SHUTDOWN included, whatever the caches
   hold. At the end every client's context, wherever scheduling left it, covers the client's archive; only a
   client whose call was refused is left out. A client that started with an exact index and is not lossy has
   had the replies of its own archive, and its index is exact, whatever happened to the others. No client
   becomes lossy that updates no shared word, whose cache starts full and is never emptied by a call of its
   own, or that makes no call; the latter finds its database as it was. The run ends early only if a random
   pick misses, if the caller has used up its placeholders, or if a context in memory has outgrown its
   counters or its snapshot; while every client has companions, no pick misses for lack of them.
   */
  method ServeCalls(cm: ContextManager, host: Host, own: map<int, int>, next: int, calls: seq<Call>,
                    ghost accounts: map<int, Account>)
    returns (replies: seq<CallReply>, own': map<int, int>, ghost lossy: set<int>, ghost refused: set<int>)
    requires var w := WorldOf(cm, host); Settled(w, own) && ActiveOk(w, own)
    requires AllServing(WorldOf(cm, host), own, accounts, |calls|, {})
    requires AcceptableCalls(accounts, calls) && NextFree(own, next) && 1000 + |calls| <= DUMMY_LIMIT
    modifies cm, host
    ensures Stepped(old(WorldOf(cm, host)), own, old(cm.tally), WorldOf(cm, host), own', cm.tally, 3 * |calls|)
    ensures |replies| <= |calls| && (|replies| == |calls| ==> refused == {})
    ensures |replies| < |calls| ==>
      || cm.tally.misses > old(cm.tally.misses) || !Roomy(WorldOf(cm, host))
      || ShortOfRoom(RunAccounts(accounts, calls[..|replies|]), calls[|replies|], cm.ctx)
    ensures |replies| < |calls| ==> refused <= {calls[|replies|].client}
    ensures AllServing(WorldOf(cm, host), own', RunAccounts(accounts, calls[..|replies|]), |calls| - |replies|, refused)
    ensures Sound(old(WorldOf(cm, host)), own, accounts, WorldOf(cm, host), own',
                  RunAccounts(accounts, calls[..|replies|]), lossy + refused)
    ensures CallsAnswered(old(WorldOf(cm, host)), own, accounts, calls, replies, lossy)
    ensures Isolated(old(WorldOf(cm, host)), own, accounts, WorldOf(cm, host), calls, lossy, 3 * |calls|)
    ensures cm.tally.losses == old(cm.tally.losses) ==> lossy == {}
    ensures AllLively(old(WorldOf(cm, host)), own) && (forall x :: SteadyBy(accounts, calls, x)) ==>
      && AllLively(WorldOf(cm, host), own')
      && cm.tally.losses == old(cm.tally.losses) && cm.tally.rewinds == old(cm.tally.rewinds)
  {
    hide Settled, ActiveOk, Roomy, AllServing, AllLively, CallsAnswered, RunAccounts, AccountsAfter, Acceptable,
         SteadyBy, ExpectedReply, ShortOfRoom, Stepped, NextFree, Steady, CallShares, Sound, Isolated, CallDone,
         LossyAfter;
    ghost var w0, t0 := WorldOf(cm, host), cm.tally;
    ghost var lively := AllLively(w0, own) && forall x :: SteadyBy(accounts, calls, x);
    replies, own', lossy, refused := [], own, {}, {};
    var free := next;
    var i := 0;
    SteppedRefl(w0, own, t0);
    RunStarts(w0, own, accounts, calls);
    while i < |calls|
      invariant i <= |calls| && |replies| == i && NextFree(own', free) && refused == {}
      invariant Stepped(w0, own, t0, WorldOf(cm, host), own', cm.tally, 3 * i) && cm.tally.misses == t0.misses
      invariant AllServing(WorldOf(cm, host), own', RunAccounts(accounts, calls[..i]), |calls| - i, {})
      invariant Sound(w0, own, accounts, WorldOf(cm, host), own', RunAccounts(accounts, calls[..i]), lossy)
      invariant CallsAnswered(w0, own, accounts, calls, replies, lossy)
      invariant Isolated(w0, own, accounts, WorldOf(cm, host), calls[..i], lossy, 3 * i)
      invariant cm.tally.losses == t0.losses ==> lossy == {}
      invariant lively ==>
        AllLively(WorldOf(cm, host), own') && cm.tally.losses == t0.losses && cm.tally.rewinds == t0.rewinds
    {
      ghost var w1, own1, t1 := WorldOf(cm, host), own', cm.tally;
      ghost var now := RunAccounts(accounts, calls[..i]);
      SteppedGives(w0, own, t0, w1, own1, t1, 3 * i);
      if !Roomy(WorldOf(cm, host)) {
        SteppedMore(w0, own, t0, w1, own1, t1, 3 * i, 3 * |calls|);
        IsolatedEarly(w0, own, accounts, w1, calls, i, lossy);
        assert lossy + {} == lossy;
        return;
      }
      RunAccountsStep(accounts, calls, i);
      var ok, reply;
      ok, reply, own', free := HandleCall(cm, host, own', free, calls[i], now, |calls| - i);
      ghost var w2 := WorldOf(cm, host);
      ServersKnown(w1, own1, now, |calls| - i, calls[i].client);
      CallStepped(w1, own1, t1, w2, own', cm.tally, now, |calls| - i, calls[i], ok, reply);
      SteppedTrans(w0, own, t0, w1, own1, t1, w2, own', cm.tally, 3 * i, 3);
      LivelyCall(w1, own1, t1, w2, own', cm.tally, accounts, calls, i, |calls| - i, ok, reply);
      if !ok {
        SteppedMore(w0, own, t0, w2, own', cm.tally, 3 * i + 3, 3 * |calls|);
        refused := {calls[i].client};
        CallRefused(w0, own, accounts, w1, own1, t1, w2, own', cm.tally, calls, i, reply, lossy);
        return;
      }
      ghost var lossy' := LossyAfter(lossy, calls[i].client, t1, cm.tally);
      CallAccepted(w0, own, accounts, w1, own1, t1, w2, own', cm.tally, calls, i, reply, replies, lossy, lossy');
      lossy := lossy';
      replies := replies + [reply];
      i := i + 1;
    }
    assert calls[..i] == calls;
    assert lossy + {} == lossy;
  }

  /** Server::handle_request_core, for the calls that reach the enclave. */
  method HandleCall(cm: ContextManager, host: Host, own: map<int, int>, next: int, call: Call,
                    ghost accounts: map<int, Account>, ghost budget: int)
    returns (ok: bool, reply: CallReply, own': map<int, int>, next': int)
    requires var w := WorldOf(cm, host); Settled(w, own) && ActiveOk(w, own) && Roomy(w)
    requires AllServing(WorldOf(cm, host), own, accounts, budget, {})
    requires Acceptable(accounts, call) && budget > 0 && NextFree(own, next) && 1000 + budget <= DUMMY_LIMIT
    modifies cm, host
    ensures NextFree(own', next')
    ensures CallDone(old(WorldOf(cm, host)), own, old(cm.tally), WorldOf(cm, host), own', cm.tally,
                     accounts, budget, call, ok, reply, 3)
  {
    hide Settled, ActiveOk, Roomy, AllServing, CallDone, Acceptable, NextFree, RevivesAt, ExactAt, PreservedAt;
    ok, reply, own', next' := true, Acknowledged, own, next;
    match call {
      case Init(_, _) =>
        own', next' := InitOne(cm, host, own, next, call, accounts, budget);
      case Serve(_, _) =>
        ok, reply := ServeOne(cm, host, own, call, accounts, budget);
      case Shutdown(_) =>
        ok := ShutOne(cm, host, own, call, accounts, budget);
    }
  }

  lemma SteppedGives(w: World, own: map<int, int>, t: Tally, w': World, own': map<int, int>, t': Tally, k: nat)
    requires Stepped(w, own, t, w', own', t', k)
    ensures Settled(w', own') && ActiveOk(w', own') && t'.misses >= t.misses && t'.losses >= t.losses
    ensures forall x :: x in own ==> x in own' && own'[x] == own[x]
  {
    hide Settled, ActiveOk, CarriedAll, AllCompany, AllBorn;
  }

  lemma CallStepped(w: World, own: map<int, int>, t: Tally, w': World, own': map<int, int>, t': Tally,
                    accounts: map<int, Account>, budget: int, call: Call, ok: bool, reply: CallReply)
    requires Acceptable(accounts, call) && CallDone(w, own, t, w', own', t', accounts, budget, call, ok, reply, 3)
    ensures Stepped(w, own, t, w', own', t', 3) && t'.misses >= t.misses && t'.losses >= t.losses
    ensures if ok then t'.misses == t.misses
            else t'.misses > t.misses || ShortOfRoom(accounts, call, w'.ctx) || !Roomy(w')
  {
    hide Stepped, OthersSpared, ServingAt, StartsExact, ExactAt, LivelyAt, Acceptable, ExpectedReply, AccountsAfter,
         CallShares, ShortOfRoom, Roomy, Steady;
    SteppedGives(w, own, t, w', own', t', 3);
  }

  lemma RunStarts(w: World, own: map<int, int>, accounts: map<int, Account>, calls: seq<Call>)
    requires AllServing(w, own, accounts, |calls|, {})
    ensures RunAccounts(accounts, calls[..0]) == accounts
    ensures Sound(w, own, accounts, w, own, accounts, {})
    ensures CallsAnswered(w, own, accounts, calls, [], {}) && Isolated(w, own, accounts, w, calls[..0], {}, 0)
  {
    hide ServingAt, ExactAt, LivelyAt, PreservedAt;
    forall x | x in own
      ensures PreservedAt(w, w, x, own[x], 0)
    {
      PreservedRefl(w, x, own[x]);
    }
  }

  lemma RunAccountsStep(accounts: map<int, Account>, calls: seq<Call>, i: nat)
    requires i < |calls|
    ensures RunAccounts(accounts, calls[..i + 1]) == AccountsAfter(RunAccounts(accounts, calls[..i]), calls[i])
  {
    assert calls[..i + 1][..i] == calls[..i];
  }

  /** What holds of all calls of a client holds of the first i. */
  lemma PrefixOf(accounts: map<int, Account>, calls: seq<Call>, i: nat, x: int)
    requires i <= |calls|
    ensures SilentBy(calls, x) ==> SilentBy(calls[..i], x)
    ensures SteadyBy(accounts, calls, x) ==> SteadyBy(accounts, calls[..i], x)
    ensures NothingSharedBy(accounts, calls, x) ==> NothingSharedBy(accounts, calls[..i], x)
  {
    hide RunAccounts, Steady, CallShares;
    forall j | 0 <= j < i
      ensures calls[..i][j] == calls[j] && calls[..i][..j] == calls[..j]
    {
    }
  }

  lemma IsolatedEarly(w0: World, own0: map<int, int>, accounts0: map<int, Account>, w: World, calls: seq<Call>, i: nat,
                      lossy: set<int>)
    requires i <= |calls| && Isolated(w0, own0, accounts0, w, calls[..i], lossy, 3 * i)
    ensures Isolated(w0, own0, accounts0, w, calls, lossy, 3 * |calls|)
  {
    hide StartsExact, SilentBy, SteadyBy, NothingSharedBy, LivelyAt, PreservedAt;
    forall x
      ensures SilentBy(calls, x) ==> SilentBy(calls[..i], x)
      ensures SteadyBy(accounts0, calls, x) ==> SteadyBy(accounts0, calls[..i], x)
      ensures NothingSharedBy(accounts0, calls, x) ==> NothingSharedBy(accounts0, calls[..i], x)
    {
      PrefixOf(accounts0, calls, i, x);
    }
    forall x | x in own0 && SilentBy(calls, x)
      ensures PreservedAt(w0, w, x, own0[x], 3 * |calls|)
    {
      PreservedMore(w0, w, x, own0[x], 3 * i, 3 * |calls|);
    }
  }

  /** The next call of a client, seen from all its calls so far. */
  lemma NextOf(accounts: map<int, Account>, calls: seq<Call>, i: nat, x: int)
    requires i < |calls|
    ensures SilentBy(calls[..i + 1], x) ==> SilentBy(calls[..i], x) && calls[i].client != x
    ensures SteadyBy(accounts, calls[..i + 1], x) ==>
      SteadyBy(accounts, calls[..i], x)
        && (calls[i].client == x ==> Steady(RunAccounts(accounts, calls[..i]), calls[i]))
    ensures NothingSharedBy(accounts, calls[..i + 1], x) ==>
      && NothingSharedBy(accounts, calls[..i], x)
      && (calls[i].client == x ==> !CallShares(RunAccounts(accounts, calls[..i]), calls[i]))
  {
    hide RunAccounts, Steady, CallShares;
    PrefixOf(accounts, calls[..i + 1], i, x);
    assert calls[..i + 1][..i] == calls[..i] && calls[..i + 1][i] == calls[i];
  }

  /** One more call keeps the clients apart. */
  lemma IsolatedMore(w0: World, own0: map<int, int>, accounts0: map<int, Account>,
                     w1: World, own1: map<int, int>, t1: Tally, w2: World, own2: map<int, int>, t2: Tally,
                     calls: seq<Call>, i: nat, ok: bool, reply: CallReply, lossy: set<int>, lossy': set<int>)
    requires i < |calls| && Acceptable(RunAccounts(accounts0, calls[..i]), calls[i])
    requires CallDone(w1, own1, t1, w2, own2, t2, RunAccounts(accounts0, calls[..i]), |calls| - i, calls[i], ok, reply,
                      3)
    requires Isolated(w0, own0, accounts0, w1, calls[..i], lossy, 3 * i)
    requires Sound(w0, own0, accounts0, w1, own1, RunAccounts(accounts0, calls[..i]), lossy)
    requires forall x :: x in own0 ==> x in own1 && own1[x] == own0[x]
    requires own1.Keys == RunAccounts(accounts0, calls[..i]).Keys
    requires lossy' == if ok then LossyAfter(lossy, calls[i].client, t1, t2) else lossy
    ensures Isolated(w0, own0, accounts0, w2, calls[..i + 1], lossy', 3 * (i + 1))
  {
    hide StartsExact, SilentBy, SteadyBy, NothingSharedBy, LivelyAt, PreservedAt, CompanyAt, RunAccounts, Acceptable,
         ExactAt, ServingAt, Stepped, Steady, CallShares, ExpectedReply, AccountsAfter, ShortOfRoom, Roomy;
    var call, now := calls[i], RunAccounts(accounts0, calls[..i]);
    forall x
      ensures SilentBy(calls[..i + 1], x) ==> SilentBy(calls[..i], x) && call.client != x
      ensures SteadyBy(accounts0, calls[..i + 1], x) ==>
        SteadyBy(accounts0, calls[..i], x) && (call.client == x ==> Steady(now, call))
      ensures NothingSharedBy(accounts0, calls[..i + 1], x) ==>
        NothingSharedBy(accounts0, calls[..i], x) && (call.client == x ==> !CallShares(now, call))
    {
      NextOf(accounts0, calls, i, x);
    }
    forall x | x in own0 && SilentBy(calls[..i + 1], x)
      ensures PreservedAt(w0, w2, x, own0[x], 3 * (i + 1))
    {
      PreservedTrans(w0, w1, w2, x, own0[x], 3 * i, 3);
    }
    NotLossy(w0, own0, accounts0, w1, own1, now, call, lossy);
  }

  /** A caller that was not lossy starts its call with an exact index. */
  lemma NotLossy(w0: World, own0: map<int, int>, accounts0: map<int, Account>,
                 w: World, own: map<int, int>, accounts: map<int, Account>, call: Call, lossy: set<int>)
    requires Sound(w0, own0, accounts0, w, own, accounts, lossy)
    ensures call.client !in lossy && StartsExact(w0, own0, accounts0, call.client) ==>
      StartsExact(w, own, accounts, call.client)
  {
    hide ExactAt;
  }

  /** A refused call: everybody but the caller is as before. */
  lemma CallRefused(w0: World, own0: map<int, int>, accounts0: map<int, Account>,
                    w1: World, own1: map<int, int>, t1: Tally, w2: World, own2: map<int, int>, t2: Tally,
                    calls: seq<Call>, i: nat, reply: CallReply, lossy: set<int>)
    requires i < |calls| && Acceptable(RunAccounts(accounts0, calls[..i]), calls[i])
    requires CallDone(w1, own1, t1, w2, own2, t2, RunAccounts(accounts0, calls[..i]), |calls| - i, calls[i], false,
                      reply, 3)
    requires AllServing(w1, own1, RunAccounts(accounts0, calls[..i]), |calls| - i, {})
    requires Sound(w0, own0, accounts0, w1, own1, RunAccounts(accounts0, calls[..i]), lossy)
    requires Isolated(w0, own0, accounts0, w1, calls[..i], lossy, 3 * i)
    requires forall x :: x in own0 ==> x in own1 && own1[x] == own0[x]
    ensures AllServing(w2, own2, RunAccounts(accounts0, calls[..i]), |calls| - i, {calls[i].client})
    ensures Sound(w0, own0, accounts0, w2, own2, RunAccounts(accounts0, calls[..i]), lossy + {calls[i].client})
    ensures Isolated(w0, own0, accounts0, w2, calls, lossy, 3 * |calls|)
  {
    hide Acceptable, RunAccounts, ServingAt, StartsExact, ExactAt, Isolated, Sound, CallDone, OthersSpared, AllServing,
         AccountsAfter, ExpectedReply, LossyAfter;
    var call, now := calls[i], RunAccounts(accounts0, calls[..i]);
    ServersKnown(w1, own1, now, |calls| - i, call.client);
    IsolatedMore(w0, own0, accounts0, w1, own1, t1, w2, own2, t2, calls, i, false, reply, lossy, lossy);
    IsolatedEarly(w0, own0, accounts0, w2, calls, i + 1, lossy);
    CallParts(w1, own1, t1, w2, own2, t2, now, |calls| - i, call, false, reply);
    SparedServe(w1, w2, own1, now, call.client, |calls| - i);
    SparedSound(w0, own0, accounts0, w1, w2, own1, now, call.client, lossy);
  }

  lemma CallParts(w: World, own: map<int, int>, t: Tally, w': World, own': map<int, int>, t': Tally,
                  accounts: map<int, Account>, budget: int, call: Call, ok: bool, reply: CallReply)
    requires Acceptable(accounts, call) && CallDone(w, own, t, w', own', t', accounts, budget, call, ok, reply, 3)
    ensures OthersSpared(w, w', own, call.client, 3) && (!ok ==> own' == own)
    ensures ok ==>
      && call.client in own' && call.client in AccountsAfter(accounts, call)
      && own' == own[call.client := own'[call.client]]
      && ServingAt(w', call.client, own'[call.client], AccountsAfter(accounts, call)[call.client], budget - 1)
    ensures ok && StartsExact(w, own, accounts, call.client) ==>
      && reply == ExpectedReply(accounts, call)
      && (ExactAt(w', call.client, own'[call.client], AccountsAfter(accounts, call)[call.client].archive)
          <==> t'.losses == t.losses)
  {
    hide Stepped, OthersSpared, ServingAt, StartsExact, ExactAt, LivelyAt, Acceptable, ExpectedReply, AccountsAfter,
         CallShares, ShortOfRoom, Roomy, Steady;
  }

  /** Clients that notice nothing are served as before. */
  lemma SparedServe(w: World, w': World, own: map<int, int>, accounts: map<int, Account>, client: int, budget: int)
    requires AllServing(w, own, accounts, budget, {}) && OthersSpared(w, w', own, client, 3)
    ensures AllServing(w', own, accounts, budget, {client})
    ensures forall x :: x in own && x != client ==> ServingAt(w', x, own[x], accounts[x], budget - 1)
  {
    hide ServingAt, PreservedAt, LivelyAt, CompanyAt;
    forall x | x in own && x != client
      ensures ServingAt(w', x, own[x], accounts[x], budget) && ServingAt(w', x, own[x], accounts[x], budget - 1)
    {
      StillServing(w, w', x, own[x], accounts[x], budget, 3);
      SmallerBudget(w', x, own[x], accounts[x], budget, budget - 1);
    }
  }

  lemma SparedSound(w0: World, own0: map<int, int>, accounts0: map<int, Account>,
                    w: World, w': World, own: map<int, int>, accounts: map<int, Account>, client: int, lossy: set<int>)
    requires Sound(w0, own0, accounts0, w, own, accounts, lossy) && OthersSpared(w, w', own, client, 3)
    ensures Sound(w0, own0, accounts0, w', own, accounts, lossy + {client})
  {
    hide StartsExact, ExactAt, PreservedAt, LivelyAt, CompanyAt;
    forall x | x in own && x in accounts && x != client && ExactAt(w, x, own[x], accounts[x].archive)
      ensures ExactAt(w', x, own[x], accounts[x].archive)
    {
      StillServing(w, w', x, own[x], accounts[x], 0, 3);
    }
  }

  /** A completed call. */
  lemma CallAccepted(w0: World, own0: map<int, int>, accounts0: map<int, Account>,
                     w1: World, own1: map<int, int>, t1: Tally, w2: World, own2: map<int, int>, t2: Tally,
                     calls: seq<Call>, i: nat, reply: CallReply, replies: seq<CallReply>,
                     lossy: set<int>, lossy': set<int>)
    requires i < |calls| && Acceptable(RunAccounts(accounts0, calls[..i]), calls[i]) && |replies| == i
    requires lossy' == LossyAfter(lossy, calls[i].client, t1, t2)
    requires CallDone(w1, own1, t1, w2, own2, t2, RunAccounts(accounts0, calls[..i]), |calls| - i, calls[i], true,
                      reply, 3)
    requires AllServing(w1, own1, RunAccounts(accounts0, calls[..i]), |calls| - i, {})
    requires Sound(w0, own0, accounts0, w1, own1, RunAccounts(accounts0, calls[..i]), lossy)
    requires CallsAnswered(w0, own0, accounts0, calls, replies, lossy)
    requires Isolated(w0, own0, accounts0, w1, calls[..i], lossy, 3 * i)
    requires forall x :: x in own0 ==> x in own1 && own1[x] == own0[x]
    requires RunAccounts(accounts0, calls[..i + 1]) == AccountsAfter(RunAccounts(accounts0, calls[..i]), calls[i])
    ensures AllServing(w2, own2, RunAccounts(accounts0, calls[..i + 1]), |calls| - (i + 1), {})
    ensures Sound(w0, own0, accounts0, w2, own2, RunAccounts(accounts0, calls[..i + 1]), lossy')
    ensures CallsAnswered(w0, own0, accounts0, calls, replies + [reply], lossy')
    ensures Isolated(w0, own0, accounts0, w2, calls[..i + 1], lossy', 3 * (i + 1))
    ensures t2.losses == t1.losses ==> lossy' == lossy
  {
    hide Acceptable, RunAccounts, ServingAt, StartsExact, ExactAt, Isolated, Sound, CallsAnswered, ExpectedReply,
         CallDone, OthersSpared, AllServing, AccountsAfter;
    var call, now := calls[i], RunAccounts(accounts0, calls[..i]);
    ServersKnown(w1, own1, now, |calls| - i, call.client);
    IsolatedMore(w0, own0, accounts0, w1, own1, t1, w2, own2, t2, calls, i, true, reply, lossy, lossy');
    CallParts(w1, own1, t1, w2, own2, t2, now, |calls| - i, call, true, reply);
    SparedServe(w1, w2, own1, now, call.client, |calls| - i);
    SparedSound(w0, own0, accounts0, w1, w2, own1, now, call.client, lossy);
    NotLossy(w0, own0, accounts0, w1, own1, now, call, lossy);
    ServedAfter(w1, w2, own1, own2, now, call, |calls| - i);
    SoundAfter(w0, own0, accounts0, w2, own1, own2, now, call, t1, t2, lossy);
    OneMoreAnswer(w0, own0, accounts0, calls, replies, reply, lossy, lossy');
  }

  lemma ServedAfter(w: World, w': World, own: map<int, int>, own': map<int, int>, accounts: map<int, Account>,
                    call: Call, budget: int)
    requires AllServing(w, own, accounts, budget, {})
    requires forall x :: x in own && x != call.client ==> ServingAt(w', x, own[x], accounts[x], budget - 1)
    requires call.client in own' && call.client in AccountsAfter(accounts, call)
    requires own' == own[call.client := own'[call.client]]
    requires ServingAt(w', call.client, own'[call.client], AccountsAfter(accounts, call)[call.client], budget - 1)
    ensures AllServing(w', own', AccountsAfter(accounts, call), budget - 1, {})
  {
    hide ServingAt, AccountAfter;
  }

  lemma SoundAfter(w0: World, own0: map<int, int>, accounts0: map<int, Account>,
                   w: World, own: map<int, int>, own': map<int, int>, accounts: map<int, Account>, call: Call,
                   t: Tally, t': Tally, lossy: set<int>)
    requires Sound(w0, own0, accounts0, w, own, accounts, lossy + {call.client})
    requires call.client in own' && call.client in AccountsAfter(accounts, call)
    requires own' == own[call.client := own'[call.client]]
    requires call.client !in lossy && StartsExact(w0, own0, accounts0, call.client) && t'.losses == t.losses ==>
      ExactAt(w, call.client, own'[call.client], AccountsAfter(accounts, call)[call.client].archive)
    ensures Sound(w0, own0, accounts0, w, own', AccountsAfter(accounts, call), LossyAfter(lossy, call.client, t, t'))
  {
    hide StartsExact, ExactAt, AccountAfter;
  }

  lemma OneMoreAnswer(w0: World, own0: map<int, int>, accounts0: map<int, Account>, calls: seq<Call>,
                      replies: seq<CallReply>, reply: CallReply, lossy: set<int>, lossy': set<int>)
    requires CallsAnswered(w0, own0, accounts0, calls, replies, lossy) && |replies| < |calls| && lossy <= lossy'
    requires var i := |replies|;
             var now := RunAccounts(accounts0, calls[..i]);
             && Acceptable(now, calls[i])
             && (calls[i].client !in lossy && StartsExact(w0, own0, accounts0, calls[i].client) ==>
                   reply == ExpectedReply(now, calls[i]))
    ensures CallsAnswered(w0, own0, accounts0, calls, replies + [reply], lossy')
  {
    hide Acceptable, ExpectedReply, RunAccounts, StartsExact;
  }

  /** While all caches are full and the calls are steady, nothing is lost or rewound. */
  lemma LivelyCall(w1: World, own1: map<int, int>, t1: Tally, w2: World, own2: map<int, int>, t2: Tally,
                   accounts0: map<int, Account>, calls: seq<Call>, i: nat, budget: int, ok: bool, reply: CallReply)
    requires i < |calls| && Acceptable(RunAccounts(accounts0, calls[..i]), calls[i])
    requires CallDone(w1, own1, t1, w2, own2, t2, RunAccounts(accounts0, calls[..i]), budget, calls[i], ok, reply, 3)
    requires own1.Keys == RunAccounts(accounts0, calls[..i]).Keys
    ensures AllLively(w1, own1) && (forall x :: SteadyBy(accounts0, calls, x)) ==>
      AllLively(w2, own2) && t2.losses == t1.losses && t2.rewinds == t1.rewinds
  {
    hide AllLively, SteadyBy, Steady, CallDone, RunAccounts, Acceptable;
    if AllLively(w1, own1) && forall x :: SteadyBy(accounts0, calls, x) {
      SteadyAt(accounts0, calls, i);
      LivelyStep(w1, own1, t1, w2, own2, t2, RunAccounts(accounts0, calls[..i]), budget, calls[i], ok, reply);
    }
  }

  lemma SteadyAt(accounts: map<int, Account>, calls: seq<Call>, i: nat)
    requires i < |calls| && SteadyBy(accounts, calls, calls[i].client)
    ensures Steady(RunAccounts(accounts, calls[..i]), calls[i])
  {
    hide RunAccounts, Steady;
  }

  lemma LivelyStep(w: World, own: map<int, int>, t: Tally, w': World, own': map<int, int>, t': Tally,
                   accounts: map<int, Account>, budget: int, call: Call, ok: bool, reply: CallReply)
    requires Acceptable(accounts, call) && CallDone(w, own, t, w', own', t', accounts, budget, call, ok, reply, 3)
    requires own.Keys == accounts.Keys && AllLively(w, own) && Steady(accounts, call)
    ensures AllLively(w', own') && t'.losses == t.losses && t'.rewinds == t.rewinds
  {
    hide Acceptable, ServingAt, StartsExact, ExactAt, LivelyAt, PreservedAt, CompanyAt, ExpectedReply, AccountsAfter,
         CallShares, ShortOfRoom, Roomy, Stepped;
    SteadyIsKnown(accounts, call);
    SteppedGives(w, own, t, w', own', t', 3);
    assert own' == own;
  }

  lemma SteadyIsKnown(accounts: map<int, Account>, call: Call)
    requires Acceptable(accounts, call) && Steady(accounts, call)
    ensures call.client in accounts
  {
    hide InBounds;
  }
}
