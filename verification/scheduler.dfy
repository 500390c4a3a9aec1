/** Context scheduling: one active context, up to four inactive ones, and sealed snapshots in storage. */
module Scheduler {
  import opened Bytes
  import opened Context
  import opened IndexModel
  import opened KeywordIndex
  import opened KeywordUpdates
  import opened DocModel
  import opened Select
  import opened Snapshot
  import opened Persist

  /** All the state that scheduling moves around. */
  datatype World = World(
    ctx: ClientContext,
    edb: int,
    inactive: map<int, CachedContext>,
    bitmaps: map<int, Store>,
    docs: map<int, DocStore>,
    snapshots: map<int, Text>)

  function WorldOf(cm: ContextManager, host: Host): World
    reads cm, host
  {
    World(cm.ctx, cm.currentEdb, cm.inactive, host.bitmaps, host.docs, host.snapshots)
  }

  function BitmapsOf(w: World, edb: int): Store
  {
    if edb in w.bitmaps then w.bitmaps[edb] else map[]
  }

  function DocsOf(w: World, edb: int): DocStore
  {
    if edb in w.docs then w.docs[edb] else map[]
  }

  /** The context that speaks for a client: active, else inactive, else sealed in storage. */
  function Held(w: World, client: int, edb: int): Restored
  {
    if w.edb == edb && w.ctx.clientId == client then Restored(w.ctx)
    else if client in w.inactive then Restored(w.inactive[client].ctx)
    else if edb in w.snapshots then Unseal(w.snapshots[edb])
    else Rejected
  }

  /** Each client has one registered database of its own. */
  predicate Owned(w: World, own: map<int, int>)
  {
    && (forall x :: x in own ==> own[x] > 0 && own[x] in w.bitmaps && own[x] in w.docs)
    && (forall x, y :: x in own && y in own && own[x] == own[y] ==> x == y)
  }

  /** At most cap inactive contexts, each filed under its owner; the active client is not among them. */
  predicate Placed(w: World, own: map<int, int>, cap: nat)
  {
    && |w.inactive| <= cap
    && (forall x :: x in w.inactive ==>
          x in own && w.inactive[x].edbId == own[x] && w.inactive[x].ctx.clientId == x)
    && (w.edb != 0 ==> w.ctx.clientId !in w.inactive)
    && (forall x :: x in own && own[x] == w.edb ==> w.ctx.clientId == x)
  }

  predicate Idle(w: World)
  {
    w.edb == 0 && w.ctx == DefaultContext()
  }

  predicate ActiveIs(w: World, client: int, edb: int)
  {
    w.ctx.clientId == client && w.edb == edb
  }

  /** Nobody is active, or the owner of a database is. */
  predicate ActiveOk(w: World, own: map<int, int>)
  {
    Idle(w) || (w.ctx.clientId in own && own[w.ctx.clientId] == w.edb)
  }

  /** Whatever speaks for a client can serve it. */
  ghost predicate Healthy(w: World, own: map<int, int>)
  {
    forall x :: x in own ==> HealthyAt(w, x, own[x])
  }

  ghost predicate HealthyAt(w: World, x: int, edb: int)
  {
    var h := Held(w, x, edb);
    h.Restored? ==> h.ctx.clientId == x && Ready(h.ctx, BitmapsOf(w, edb), DocsOf(w, edb))
  }

  /** Every context in memory could still be flushed and sealed. */
  predicate Roomy(w: World)
  {
    (!Idle(w) ==> Room(w.ctx)) && forall x :: x in w.inactive ==> Room(w.inactive[x].ctx)
  }

  predicate InMemory(w: World, client: int, edb: int)
  {
    (w.edb == edb && w.ctx.clientId == client) || client in w.inactive
  }

  /** The client's keyword cache is full, or will be once its snapshot is loaded, and words remain to swap in. */
  predicate LivelyAt(w: World, x: int, edb: int)
  {
    var h := Held(w, x, edb);
    h.Restored? ==> |h.ctx.KVS| > h.ctx.ckMax && (InMemory(w, x, edb) ==> |h.ctx.CK| == h.ctx.ckMax)
  }

  /** There are more keywords than the cache holds, and in memory they are all listed to be drawn from. */
  predicate CompanyAt(w: World, x: int, edb: int)
  {
    var h := Held(w, x, edb);
    h.Restored? ==> |h.ctx.KVS| > h.ctx.ckMax && (InMemory(w, x, edb) ==> Companions(h.ctx))
  }

  /** A client in storage needs nothing but enough keywords to come back with a full cache and companions. */
  lemma StoredIsLively(w: World, x: int, edb: int)
    requires !InMemory(w, x, edb)
    requires Held(w, x, edb).Restored? ==> |Held(w, x, edb).ctx.KVS| > Held(w, x, edb).ctx.ckMax
    ensures LivelyAt(w, x, edb) && CompanyAt(w, x, edb)
  {
    hide Held, InMemory, Companions;
  }

  /**
   Every client still has a context exactly if it had one, it is the same logical database with slot
   counters at most k higher, and a client that could run with a full keyword cache, or draw companions,
   still can.
   */
  ghost predicate Transparent(w: World, w': World, own: map<int, int>, k: nat)
  {
    (forall x :: x in own ==> TransparentAt(w, w', x, own[x], k)) && Elsewhere(w, w', own)
  }

  predicate Unowned(own: map<int, int>, edb: int)
  {
    forall x :: x in own ==> own[x] != edb
  }

  /** The stores of databases without an owner are as before. */
  ghost predicate Elsewhere(w: World, w': World, own: map<int, int>)
  {
    forall e :: Unowned(own, e) ==>
      && (e in w'.bitmaps <==> e in w.bitmaps) && (e in w'.docs <==> e in w.docs)
      && BitmapsOf(w', e) == BitmapsOf(w, e) && DocsOf(w', e) == DocsOf(w, e)
  }

  ghost predicate TransparentAt(w: World, w': World, x: int, edb: int, k: nat)
  {
    && PreservedAt(w, w', x, edb, k)
    && (LivelyAt(w, x, edb) ==> LivelyAt(w', x, edb)) && (CompanyAt(w, x, edb) ==> CompanyAt(w', x, edb))
  }

  ghost predicate PreservedAt(w: World, w': World, x: int, edb: int, k: nat)
  {
    var h, h' := Held(w, x, edb), Held(w', x, edb);
    && (h.Restored? <==> h'.Restored?)
    && (h.Restored? ==>
          SameClient(h.ctx, BitmapsOf(w, edb), DocsOf(w, edb), h'.ctx, BitmapsOf(w', edb), DocsOf(w', edb), k))
  }

  lemma TransparentAtTrans(w0: World, w1: World, w2: World, x: int, edb: int, k1: nat, k2: nat)
    requires TransparentAt(w0, w1, x, edb, k1) && TransparentAt(w1, w2, x, edb, k2)
    ensures TransparentAt(w0, w2, x, edb, k1 + k2)
  {
    hide Held, SameClient, LivelyAt, CompanyAt;
    var h0, h1, h2 := Held(w0, x, edb), Held(w1, x, edb), Held(w2, x, edb);
    if h0.Restored? {
      SameClientTrans(h0.ctx, BitmapsOf(w0, edb), DocsOf(w0, edb), h1.ctx, BitmapsOf(w1, edb), DocsOf(w1, edb),
                      h2.ctx, BitmapsOf(w2, edb), DocsOf(w2, edb), k1, k2);
    }
  }

  lemma ElsewhereSame(w: World, w': World, own: map<int, int>)
    requires w'.bitmaps == w.bitmaps && w'.docs == w.docs
    ensures Elsewhere(w, w', own)
  {
    hide Unowned;
  }

  lemma ElsewhereTrans(w0: World, w1: World, w2: World, own: map<int, int>)
    requires Elsewhere(w0, w1, own) && Elsewhere(w1, w2, own)
    ensures Elsewhere(w0, w2, own)
  {
    hide Unowned, BitmapsOf, DocsOf;
  }

  lemma TransparentTrans(w0: World, w1: World, w2: World, own: map<int, int>, k1: nat, k2: nat)
    requires Transparent(w0, w1, own, k1) && Transparent(w1, w2, own, k2)
    ensures Transparent(w0, w2, own, k1 + k2)
  {
    hide TransparentAt, Elsewhere;
    ElsewhereTrans(w0, w1, w2, own);
    forall x | x in own
      ensures TransparentAt(w0, w2, x, own[x], k1 + k2)
    {
      TransparentAtTrans(w0, w1, w2, x, own[x], k1, k2);
    }
  }

  lemma TransparentMore(w: World, w': World, own: map<int, int>, k: nat, m: nat)
    requires Transparent(w, w', own, k) && k <= m
    ensures Transparent(w, w', own, m)
  {
    hide TransparentAt, Elsewhere;
    forall x | x in own
      ensures TransparentAt(w, w', x, own[x], m)
    {
      TransparentAtMore(w, w', x, own[x], k, m);
    }
  }

  lemma TransparentAtMore(w: World, w': World, x: int, edb: int, k: nat, m: nat)
    requires TransparentAt(w, w', x, edb, k) && k <= m
    ensures TransparentAt(w, w', x, edb, m)
  {
    hide Held, SameClient, LivelyAt, CompanyAt;
    var h, h' := Held(w, x, edb), Held(w', x, edb);
    if h.Restored? {
      SameClientMore(h.ctx, BitmapsOf(w, edb), DocsOf(w, edb), h'.ctx, BitmapsOf(w', edb), DocsOf(w', edb), k, m);
    }
  }

  lemma Unmoved(w: World, w': World, x: int, edb: int)
    requires Held(w', x, edb) == Held(w, x, edb) && InMemory(w', x, edb) == InMemory(w, x, edb)
    requires BitmapsOf(w', edb) == BitmapsOf(w, edb) && DocsOf(w', edb) == DocsOf(w, edb)
    ensures TransparentAt(w, w', x, edb, 0) && (HealthyAt(w, x, edb) ==> HealthyAt(w', x, edb))
  {
    hide Held, Ready, SameClient, InMemory, BitmapsOf, DocsOf, Companions;
    var h := Held(w, x, edb);
    if h.Restored? {
      SameClientRefl(h.ctx, BitmapsOf(w, edb), DocsOf(w, edb));
    }
  }

  /** Moving contexts around without touching storage. */
  lemma MovesKeep(w: World, w': World, own: map<int, int>)
    requires w'.bitmaps == w.bitmaps && w'.docs == w.docs
    requires forall x :: x in own ==>
      Held(w', x, own[x]) == Held(w, x, own[x]) && InMemory(w', x, own[x]) == InMemory(w, x, own[x])
    ensures Transparent(w, w', own, 0) && (Healthy(w, own) ==> Healthy(w', own))
  {
    hide Held, InMemory, TransparentAt, HealthyAt, Elsewhere;
    ElsewhereSame(w, w', own);
    forall x | x in own
      ensures TransparentAt(w, w', x, own[x], 0) && (HealthyAt(w, x, own[x]) ==> HealthyAt(w', x, own[x]))
    {
      Unmoved(w, w', x, own[x]);
    }
  }

  /** has_active_context */
  method HasActiveContext(cm: ContextManager) returns (b: bool)
    ensures b <==> cm.ctx.clientId != 0 || cm.currentEdb != 0
  {
    b := cm.ctx.clientId != 0 || cm.currentEdb != 0;
  }

  /** cache_active_context */
  method CacheActiveContext(cm: ContextManager, host: Host, ghost own: map<int, int>)
    requires var w := WorldOf(cm, host);
             Owned(w, own) && Placed(w, own, INACTIVE_CONTEXT_CACHE_MAX) && ActiveOk(w, own) && Healthy(w, own)
               && Roomy(w)
    modifies cm`ctx, cm`currentEdb, cm`inactive
    ensures var w, w' := old(WorldOf(cm, host)), WorldOf(cm, host);
            && Owned(w', own) && Placed(w', own, INACTIVE_CONTEXT_CACHE_MAX + 1) && Idle(w')
            && Healthy(w', own) && Roomy(w') && Transparent(w, w', own, 0)
  {
    hide Healthy, Transparent, Room, Unseal;
    ghost var w := WorldOf(cm, host);
    var active := HasActiveContext(cm);
    if !active {
      MovesKeep(w, w, own);
      return;
    }
    var cached := CachedContext(cm.ctx, cm.currentEdb);
    cm.inactive := cm.inactive[cached.ctx.clientId := cached];
    cm.ctx := DefaultContext();
    cm.currentEdb := 0;
    CachedWorld(w, WorldOf(cm, host), own);
  }

  lemma CachedWorld(w: World, w': World, own: map<int, int>)
    requires Owned(w, own) && Placed(w, own, INACTIVE_CONTEXT_CACHE_MAX) && ActiveOk(w, own) && !Idle(w)
    requires Healthy(w, own) && Roomy(w)
    requires w' == w.(inactive := w.inactive[w.ctx.clientId := CachedContext(w.ctx, w.edb)], ctx := DefaultContext(),
                      edb := 0)
    ensures Owned(w', own) && Placed(w', own, INACTIVE_CONTEXT_CACHE_MAX + 1) && Roomy(w')
    ensures Healthy(w', own) && Transparent(w, w', own, 0)
  {
    hide Healthy, Transparent, Room, Unseal, DefaultContext;
    CachedPlaces(w, w', own);
    forall x | x in own
      ensures Held(w', x, own[x]) == Held(w, x, own[x]) && InMemory(w', x, own[x]) == InMemory(w, x, own[x])
    {
    }
    hide Held, InMemory, Owned, Placed;
    MovesKeep(w, w', own);
  }

  lemma CachedPlaces(w: World, w': World, own: map<int, int>)
    requires Owned(w, own) && Placed(w, own, INACTIVE_CONTEXT_CACHE_MAX) && ActiveOk(w, own) && !Idle(w) && Roomy(w)
    requires w' == w.(inactive := w.inactive[w.ctx.clientId := CachedContext(w.ctx, w.edb)], ctx := DefaultContext(),
                      edb := 0)
    ensures Owned(w', own) && Placed(w', own, INACTIVE_CONTEXT_CACHE_MAX + 1) && Roomy(w')
  {
    hide Room;
  }

  /** Whoever was evicted will come back with a full keyword cache and companions, if it has more keywords than fit. */
  ghost predicate EvictedRevives(w: World, w': World, own: map<int, int>)
  {
    forall v :: v in w.inactive && v !in w'.inactive && v in own ==>
      |w.inactive[v].ctx.KVS| > w.inactive[v].ctx.ckMax ==> LivelyAt(w', v, own[v]) && CompanyAt(w', v, own[v])
  }

  /** evict_one_inactive_context_if_needed */
  method EvictOneInactiveContextIfNeeded(cm: ContextManager, host: Host, ghost own: map<int, int>)
    requires var w := WorldOf(cm, host);
             Owned(w, own) && Placed(w, own, INACTIVE_CONTEXT_CACHE_MAX + 1) && Idle(w) && Healthy(w, own) && Roomy(w)
    modifies cm`ctx, cm`currentEdb, cm`inactive, host
    ensures var w, w' := old(WorldOf(cm, host)), WorldOf(cm, host);
            && Owned(w', own) && Placed(w', own, INACTIVE_CONTEXT_CACHE_MAX) && Idle(w')
            && Healthy(w', own) && Roomy(w') && Transparent(w, w', own, 1) && EvictedRevives(w, w', own)
  {
    hide Healthy, Transparent, Room, Unseal, Owned, Placed, FlushedClient, StandsFor, EvictedRevives, Ready,
         DefaultContext, Held;
    ghost var w := WorldOf(cm, host);
    if |cm.inactive| <= INACTIVE_CONTEXT_CACHE_MAX {
      MovesKeep(w, w, own);
      TransparentMore(w, w, own, 0, 1);
      NoneEvicted(w, own);
      PlacedTighter(w, own);
      return;
    }
    var clientIds := cm.inactive.Keys;
    SomeInactive(clientIds);
    var victimClientId :| victimClientId in clientIds;
    var activeBackup, activeEdbBackup := cm.ctx, cm.currentEdb;
    var victim := cm.inactive[victimClientId];
    VictimFacts(w, own, victimClientId);
    cm.ctx := victim.ctx;
    cm.currentEdb := victim.edbId;
    PersistActiveContextToStorage(cm, host, cm.currentEdb);
    cm.inactive := cm.inactive - {victimClientId};
    cm.ctx := activeBackup;
    cm.currentEdb := activeEdbBackup;
    EvictedWorld(w, WorldOf(cm, host), own, victimClientId);
  }

  lemma NoneEvicted(w: World, own: map<int, int>)
    ensures EvictedRevives(w, w, own)
  {
    hide LivelyAt, CompanyAt;
  }

  lemma SomeInactive(keys: set<int>)
    ensures keys == {} || exists x :: x in keys
  {
    if forall x :: x !in keys {
      assert keys == {};
    }
  }

  lemma PlacedTighter(w: World, own: map<int, int>)
    requires Placed(w, own, INACTIVE_CONTEXT_CACHE_MAX + 1) && |w.inactive| <= INACTIVE_CONTEXT_CACHE_MAX
    ensures Placed(w, own, INACTIVE_CONTEXT_CACHE_MAX)
  {
  }

  lemma VictimFacts(w: World, own: map<int, int>, v: int)
    requires Owned(w, own) && Placed(w, own, INACTIVE_CONTEXT_CACHE_MAX + 1) && Idle(w) && Healthy(w, own) && Roomy(w)
    requires v in w.inactive
    ensures v in own && w.inactive[v].edbId == own[v] && own[v] in w.bitmaps && own[v] in w.docs
    ensures Ready(w.inactive[v].ctx, w.bitmaps[own[v]], w.docs[own[v]]) && Room(w.inactive[v].ctx)
    ensures Held(w, v, own[v]) == Restored(w.inactive[v].ctx)
  {
    hide Ready, Room, Unseal;
    assert HealthyAt(w, v, own[v]);
  }

  /** The victim now lives in its snapshot; nobody else notices. */
  lemma EvictedWorld(w: World, w': World, own: map<int, int>, v: int)
    requires Owned(w, own) && Placed(w, own, INACTIVE_CONTEXT_CACHE_MAX + 1) && Idle(w) && Healthy(w, own) && Roomy(w)
    requires v in w.inactive && v in own && own[v] in w.bitmaps && own[v] in w.docs && own[v] in w'.bitmaps
    requires own[v] in w'.docs && own[v] in w'.snapshots
    requires w' == w.(inactive := w.inactive - {v}, bitmaps := w.bitmaps[own[v] := w'.bitmaps[own[v]]],
                      docs := w.docs[own[v] := w'.docs[own[v]]],
                      snapshots := w.snapshots[own[v] := w'.snapshots[own[v]]])
    requires StandsFor(w'.snapshots[own[v]], w.inactive[v].ctx, w.bitmaps[own[v]], w.docs[own[v]],
                       w'.bitmaps[own[v]], w'.docs[own[v]])
    ensures Owned(w', own) && Placed(w', own, INACTIVE_CONTEXT_CACHE_MAX) && Roomy(w')
    ensures Healthy(w', own) && Transparent(w, w', own, 1) && EvictedRevives(w, w', own)
  {
    hide Ready, Room, Unseal, SameClient, TransparentAt, HealthyAt, Elsewhere, Held, StandsFor, LivelyAt, CompanyAt;
    EvictedPlaces(w, w', own, v);
    forall x | x in own
      ensures TransparentAt(w, w', x, own[x], 1) && HealthyAt(w', x, own[x])
    {
      assert HealthyAt(w, x, own[x]);
      if x == v {
        VictimMoved(w, w', own, v);
      } else {
        Bystander(w, w', own, v, x);
      }
    }
    VictimMoved(w, w', own, v);
    EvictedElsewhere(w, w', own, v);
  }

  lemma EvictedPlaces(w: World, w': World, own: map<int, int>, v: int)
    requires Owned(w, own) && Placed(w, own, INACTIVE_CONTEXT_CACHE_MAX + 1) && Idle(w) && Roomy(w) && v in w.inactive
    requires v in own && own[v] in w'.bitmaps && own[v] in w'.docs && own[v] in w'.snapshots
    requires w' == w.(inactive := w.inactive - {v}, bitmaps := w.bitmaps[own[v] := w'.bitmaps[own[v]]],
                      docs := w.docs[own[v] := w'.docs[own[v]]],
                      snapshots := w.snapshots[own[v] := w'.snapshots[own[v]]])
    ensures Owned(w', own) && Placed(w', own, INACTIVE_CONTEXT_CACHE_MAX) && Roomy(w')
  {
    hide Room;
    assert w'.inactive.Keys == w.inactive.Keys - {v};
  }

  lemma EvictedElsewhere(w: World, w': World, own: map<int, int>, v: int)
    requires v in own && own[v] in w.bitmaps && own[v] in w.docs && own[v] in w'.bitmaps && own[v] in w'.docs
    requires w'.bitmaps == w.bitmaps[own[v] := w'.bitmaps[own[v]]] && w'.docs == w.docs[own[v] := w'.docs[own[v]]]
    ensures Elsewhere(w, w', own)
  {
  }

  lemma Bystander(w: World, w': World, own: map<int, int>, v: int, x: int)
    requires Owned(w, own) && Idle(w) && v in own && x in own && x != v && HealthyAt(w, x, own[x])
    requires own[v] in w'.bitmaps && own[v] in w'.docs && own[v] in w'.snapshots
    requires w' == w.(inactive := w.inactive - {v}, bitmaps := w.bitmaps[own[v] := w'.bitmaps[own[v]]],
                      docs := w.docs[own[v] := w'.docs[own[v]]],
                      snapshots := w.snapshots[own[v] := w'.snapshots[own[v]]])
    ensures TransparentAt(w, w', x, own[x], 1) && HealthyAt(w', x, own[x])
  {
    hide TransparentAt, HealthyAt, Unseal;
    assert own[x] != own[v];
    Unmoved(w, w', x, own[x]);
    TransparentAtMore(w, w', x, own[x], 0, 1);
  }

  lemma VictimMoved(w: World, w': World, own: map<int, int>, v: int)
    requires v in own && own[v] > 0 && w.edb == 0 && w'.edb == 0 && v in w.inactive && v !in w'.inactive
    requires own[v] in w.bitmaps && own[v] in w.docs && own[v] in w'.bitmaps && own[v] in w'.docs
    requires own[v] in w'.snapshots
    requires w.inactive[v].ctx.clientId == v
    requires StandsFor(w'.snapshots[own[v]], w.inactive[v].ctx, w.bitmaps[own[v]], w.docs[own[v]],
                       w'.bitmaps[own[v]], w'.docs[own[v]])
    ensures TransparentAt(w, w', v, own[v], 1) && HealthyAt(w', v, own[v])
    ensures |w.inactive[v].ctx.KVS| > w.inactive[v].ctx.ckMax ==> LivelyAt(w', v, own[v]) && CompanyAt(w', v, own[v])
  {
    hide Ready, Unseal, SameView, SameContents, WriteOnce, VersionsKept;
    var c, r := w.inactive[v].ctx, Unseal(w'.snapshots[own[v]]).ctx;
    SubsetSize(c.KVS.Keys, r.KVS.Keys);
  }

  /** make_fresh_context */
  function FreshContext(clientId: int): ClientContext
  {
    DefaultContext().(clientId := clientId, endofDocId := 1)
  }

  /** Between requests: ownership, placement and the invariants of every client's context. */
  ghost predicate Settled(w: World, own: map<int, int>)
  {
    Owned(w, own) && Placed(w, own, INACTIVE_CONTEXT_CACHE_MAX) && Healthy(w, own)
  }

  /** A database that nobody has used yet. */
  predicate Unused(w: World, own: map<int, int>, client: int, edb: int)
  {
    client !in own && edb > 0 && edb in w.bitmaps && edb in w.docs && Unowned(own, edb)
  }

  /** Who may be scheduled: a new client on an unused database, or an owner. */
  predicate MaySchedule(w: World, own: map<int, int>, client: int, edb: int, createIfMissing: bool)
  {
    if createIfMissing then Unused(w, own, client, edb) else client in own && own[client] == edb
  }

  /** What scheduling a client achieves. */
  ghost predicate Scheduled(w: World, w': World, own: map<int, int>, client: int, edb: int, createIfMissing: bool,
                            ret: int)
  {
    && Settled(w', own) && Transparent(w, w', own, 1)
    && (ret == 0 || ret == -1)
    && (ret == 0 <==> createIfMissing || Held(w, client, edb).Restored?)
    && (if ret == 0 then ActiveIs(w', client, edb) else Idle(w'))
    && (createIfMissing ==> w'.ctx == FreshContext(client))
    && (forall x :: x in w'.inactive ==> Room(w'.inactive[x].ctx))
  }

  /**
   ecall_schedule_context. For a known client it succeeds exactly if that client had a context, even
   when the eviction victim is the client itself; for a new one it always does. No client's logical
   database changes, and at most four contexts stay inactive; nothing at all changes for a client that is
   active already.
   */
  method ScheduleContext(cm: ContextManager, host: Host, client: int, edb: int, createIfMissing: bool,
                         ghost own: map<int, int>)
    returns (ret: int)
    requires var w := WorldOf(cm, host); Settled(w, own) && ActiveOk(w, own) && Roomy(w)
    requires MaySchedule(WorldOf(cm, host), own, client, edb, createIfMissing)
    modifies cm`ctx, cm`currentEdb, cm`inactive, host
    ensures Scheduled(old(WorldOf(cm, host)), WorldOf(cm, host), own, client, edb, createIfMissing, ret)
    ensures ActiveIs(old(WorldOf(cm, host)), client, edb) && edb != 0 ==> WorldOf(cm, host) == old(WorldOf(cm, host))
  {
    hide Healthy, Transparent, Room, Owned, Placed, Scheduled, MaySchedule, Held;
    ghost var w0 := WorldOf(cm, host);
    var active := HasActiveContext(cm);
    if active && cm.ctx.clientId == client && cm.currentEdb == edb {
      AlreadyScheduled(w0, own, client, edb, createIfMissing);
      return 0;
    }
    CacheActiveContext(cm, host, own);
    ghost var w1 := WorldOf(cm, host);
    EvictOneInactiveContextIfNeeded(cm, host, own);
    ghost var w2 := WorldOf(cm, host);
    TransparentTrans(w0, w1, w2, own, 0, 1);
    StillMaySchedule(w0, w2, own, client, edb, createIfMissing);
    if client in cm.inactive {
      cm.ctx := cm.inactive[client].ctx;
      cm.currentEdb := cm.inactive[client].edbId;
      cm.inactive := cm.inactive - {client};
      Reactivated(w0, w2, WorldOf(cm, host), own, client, edb, createIfMissing);
      return 0;
    }
    if createIfMissing {
      cm.ctx := FreshContext(client);
      cm.currentEdb := edb;
      Created(w0, w2, WorldOf(cm, host), own, client, edb);
      return 0;
    }
    ReadyToLoad(w2, own, client, edb);
    var loaded := LoadActiveContextFromStorage(cm, host, edb);
    if loaded {
      LoadedWorld(w0, w2, WorldOf(cm, host), own, client, edb);
      return 0;
    }
    cm.ctx := DefaultContext();
    cm.currentEdb := 0;
    NotFound(w0, w2, own, client, edb);
    ret := -1;
  }

  /** After scheduling at most four contexts are inactive, and the active client is not one of them. */
  lemma FourInactive(w: World, w': World, own: map<int, int>, client: int, edb: int, createIfMissing: bool, ret: int)
    requires Scheduled(w, w', own, client, edb, createIfMissing, ret) && edb > 0
    ensures |w'.inactive| <= 4 && (ret == 0 ==> client !in w'.inactive)
  {
    hide Owned, Healthy, Transparent, Held;
  }

  lemma AlreadyScheduled(w: World, own: map<int, int>, client: int, edb: int, createIfMissing: bool)
    requires Settled(w, own) && ActiveOk(w, own) && Roomy(w) && MaySchedule(w, own, client, edb, createIfMissing)
    requires (client != 0 || edb != 0) && ActiveIs(w, client, edb)
    ensures Scheduled(w, w, own, client, edb, createIfMissing, 0)
  {
    hide Healthy, Transparent, Room, Unseal;
    MovesKeep(w, w, own);
    TransparentMore(w, w, own, 0, 1);
  }

  /** The world between caching, evicting and activating. */
  ghost predicate Between(w0: World, w: World, own: map<int, int>, client: int, edb: int, createIfMissing: bool)
  {
    && Transparent(w0, w, own, 1) && Settled(w, own) && Idle(w) && Roomy(w)
    && MaySchedule(w, own, client, edb, createIfMissing)
    && (client in own && own[client] == edb ==> (Held(w, client, edb).Restored? <==> Held(w0, client, edb).Restored?))
  }

  lemma StillMaySchedule(w0: World, w: World, own: map<int, int>, client: int, edb: int, createIfMissing: bool)
    requires MaySchedule(w0, own, client, edb, createIfMissing) && Transparent(w0, w, own, 1) && Settled(w, own)
    requires Idle(w) && Roomy(w)
    ensures Between(w0, w, own, client, edb, createIfMissing)
  {
    hide Owned, Placed, Healthy, Held, SameClient, Room;
    if client in own {
      assert TransparentAt(w0, w, client, own[client], 1);
    }
  }

  lemma Reactivated(w0: World, w: World, w': World, own: map<int, int>, client: int, edb: int, createIfMissing: bool)
    requires Between(w0, w, own, client, edb, createIfMissing) && client in w.inactive
    requires w' == w.(ctx := w.inactive[client].ctx, edb := w.inactive[client].edbId, inactive := w.inactive - {client})
    ensures Scheduled(w0, w', own, client, edb, createIfMissing, 0)
  {
    hide Healthy, Transparent, Room, Held, InMemory, Owned, Placed, Idle, Unowned;
    ReactivatedPlaces(w, w', own, client, edb, createIfMissing);
    forall x | x in own
      ensures Held(w', x, own[x]) == Held(w, x, own[x]) && InMemory(w', x, own[x]) == InMemory(w, x, own[x])
    {
      ReactivatedHeld(w, w', own, client, x);
    }
    MovesKeep(w, w', own);
    TransparentTrans(w0, w, w', own, 1, 0);
    KnownHeld(w, own, client);
  }

  lemma ReactivatedPlaces(w: World, w': World, own: map<int, int>, client: int, edb: int, createIfMissing: bool)
    requires Owned(w, own) && Placed(w, own, INACTIVE_CONTEXT_CACHE_MAX) && Idle(w) && Roomy(w) && client in w.inactive
    requires MaySchedule(w, own, client, edb, createIfMissing)
    requires w' == w.(ctx := w.inactive[client].ctx, edb := w.inactive[client].edbId, inactive := w.inactive - {client})
    ensures client in own && own[client] == edb && !createIfMissing
    ensures Owned(w', own) && Placed(w', own, INACTIVE_CONTEXT_CACHE_MAX) && ActiveIs(w', client, edb)
    ensures forall x :: x in w'.inactive ==> Room(w'.inactive[x].ctx)
  {
    hide Room, DefaultContext, Unowned;
    assert w'.inactive.Keys == w.inactive.Keys - {client};
  }

  lemma ReactivatedHeld(w: World, w': World, own: map<int, int>, client: int, x: int)
    requires Owned(w, own) && Placed(w, own, INACTIVE_CONTEXT_CACHE_MAX) && Idle(w) && client in w.inactive && x in own
    requires w' == w.(ctx := w.inactive[client].ctx, edb := w.inactive[client].edbId, inactive := w.inactive - {client})
    ensures Held(w', x, own[x]) == Held(w, x, own[x]) && InMemory(w', x, own[x]) == InMemory(w, x, own[x])
  {
    hide Unseal;
  }

  lemma KnownHeld(w: World, own: map<int, int>, client: int)
    requires client in w.inactive && client in own
    ensures Held(w, client, own[client]).Restored?
  {
    hide Unseal;
  }

  lemma Created(w0: World, w: World, w': World, own: map<int, int>, client: int, edb: int)
    requires Between(w0, w, own, client, edb, true)
    requires w' == w.(ctx := FreshContext(client), edb := edb)
    ensures Scheduled(w0, w', own, client, edb, true, 0)
  {
    hide Healthy, Transparent, Room, Held, InMemory, DefaultContext;
    forall x | x in own
      ensures Held(w', x, own[x]) == Held(w, x, own[x]) && InMemory(w', x, own[x]) == InMemory(w, x, own[x])
    {
      CreatedHeld(w, w', own, client, edb, x);
    }
    MovesKeep(w, w', own);
    TransparentTrans(w0, w, w', own, 1, 0);
  }

  lemma CreatedHeld(w: World, w': World, own: map<int, int>, client: int, edb: int, x: int)
    requires Owned(w, own) && Idle(w) && x in own && x != client && own[x] != edb
    requires w' == w.(ctx := FreshContext(client), edb := edb)
    ensures Held(w', x, own[x]) == Held(w, x, own[x]) && InMemory(w', x, own[x]) == InMemory(w, x, own[x])
  {
    hide Unseal, DefaultContext;
  }

  lemma ReadyToLoad(w: World, own: map<int, int>, client: int, edb: int)
    requires Settled(w, own) && Idle(w) && MaySchedule(w, own, client, edb, false) && client !in w.inactive
    ensures edb in w.bitmaps && edb in w.docs
    ensures edb in w.snapshots && Unseal(w.snapshots[edb]).Restored? ==>
      Ready(Unseal(w.snapshots[edb]).ctx, w.bitmaps[edb], w.docs[edb])
  {
    hide Ready, Unseal;
    assert HealthyAt(w, client, edb);
  }

  lemma LoadedWorld(w0: World, w: World, w': World, own: map<int, int>, client: int, edb: int)
    requires Between(w0, w, own, client, edb, false) && client !in w.inactive
    requires edb in w.snapshots && Unseal(w.snapshots[edb]).Restored? && edb in w.bitmaps && edb in w.docs
    requires w' == w.(ctx := w'.ctx, edb := edb)
    requires Reloaded(Unseal(w.snapshots[edb]).ctx, w.bitmaps[edb], w.docs[edb], w'.ctx)
    ensures Scheduled(w0, w', own, client, edb, false, 0)
  {
    hide Room, Unseal, Ready, SameClient, Transparent, ActiveIs, Reloaded, HealthyAt, TransparentAt;
    ReloadedAs(w, w', own, client, edb);
    forall x | x in own
      ensures TransparentAt(w, w', x, own[x], 0) && HealthyAt(w', x, own[x])
    {
      assert HealthyAt(w, x, own[x]);
      if x != client {
        assert Held(w', x, own[x]) == Held(w, x, own[x]);
        Unmoved(w, w', x, own[x]);
      }
    }
    LoadedScheduled(w0, w, w', own, client, edb);
  }

  /** The client itself: from its snapshot to the active context. */
  lemma ReloadedAs(w: World, w': World, own: map<int, int>, client: int, edb: int)
    requires Healthy(w, own) && Idle(w) && client in own && own[client] == edb > 0 && client !in w.inactive
    requires edb in w.snapshots && Unseal(w.snapshots[edb]).Restored? && edb in w.bitmaps && edb in w.docs
    requires w' == w.(ctx := w'.ctx, edb := edb)
    requires Reloaded(Unseal(w.snapshots[edb]).ctx, w.bitmaps[edb], w.docs[edb], w'.ctx)
    ensures w'.ctx.clientId == client && TransparentAt(w, w', client, edb, 0) && HealthyAt(w', client, edb)
  {
    hide Unseal, Ready, SameView, SameContents, WriteOnce, VersionsKept;
    assert HealthyAt(w, client, edb);
  }

  lemma LoadedScheduled(w0: World, w: World, w': World, own: map<int, int>, client: int, edb: int)
    requires Between(w0, w, own, client, edb, false) && client !in w.inactive
    requires w' == w.(ctx := w'.ctx, edb := edb) && w'.ctx.clientId == client
    requires edb in w.snapshots && Unseal(w.snapshots[edb]).Restored?
    requires forall x :: x in own ==> TransparentAt(w, w', x, own[x], 0) && HealthyAt(w', x, own[x])
    ensures Scheduled(w0, w', own, client, edb, false, 0)
  {
    hide Room, Unseal, HealthyAt, TransparentAt, Owned, Placed, Held, Transparent, Idle, ActiveIs;
    LoadedSettled(w, w', own, client, edb);
    LoadedMoves(w, w', own);
    TransparentTrans(w0, w, w', own, 1, 0);
    ActiveNow(w', client, edb);
    FoundInStore(w, client, edb);
  }

  lemma FoundInStore(w: World, client: int, edb: int)
    requires client !in w.inactive && edb in w.snapshots && Unseal(w.snapshots[edb]).Restored?
    ensures Held(w, client, edb).Restored?
  {
    hide Unseal;
  }

  lemma ActiveNow(w: World, client: int, edb: int)
    requires w.ctx.clientId == client && w.edb == edb
    ensures ActiveIs(w, client, edb)
  {
  }

  lemma LoadedMoves(w: World, w': World, own: map<int, int>)
    requires w' == w.(ctx := w'.ctx, edb := w'.edb)
    requires forall x :: x in own ==> TransparentAt(w, w', x, own[x], 0)
    ensures Transparent(w, w', own, 0)
  {
    hide TransparentAt, Elsewhere;
    ElsewhereSame(w, w', own);
  }

  lemma LoadedSettled(w: World, w': World, own: map<int, int>, client: int, edb: int)
    requires Owned(w, own) && Placed(w, own, INACTIVE_CONTEXT_CACHE_MAX) && client in own && own[client] == edb
    requires client !in w.inactive
    requires w' == w.(ctx := w'.ctx, edb := edb) && w'.ctx.clientId == client
    requires forall x :: x in own ==> HealthyAt(w', x, own[x])
    ensures Settled(w', own)
  {
    hide HealthyAt;
  }

  lemma NotFound(w0: World, w: World, own: map<int, int>, client: int, edb: int)
    requires Between(w0, w, own, client, edb, false) && client !in w.inactive
    requires !(edb in w.snapshots && Unseal(w.snapshots[edb]).Restored?)
    ensures Scheduled(w0, w, own, client, edb, false, -1)
  {
    hide Healthy, Transparent, Room, Unseal;
  }

  /** A client that comes back from storage with more keywords than fit runs with a full cache and has companions. */
  lemma WokenIsWarm(w: World, w': World, own: map<int, int>, client: int, edb: int)
    requires Scheduled(w, w', own, client, edb, false, 0) && client in own && own[client] == edb
    requires !InMemory(w, client, edb) && Held(w, client, edb).Restored?
    requires |Held(w, client, edb).ctx.KVS| > Held(w, client, edb).ctx.ckMax
    ensures Warm(w'.ctx) && Companions(w'.ctx)
  {
    hide Settled, Elsewhere, SameClient, WordSet, Unseal;
    StoredIsLively(w, client, edb);
    assert TransparentAt(w, w', client, edb, 1);
  }
}
