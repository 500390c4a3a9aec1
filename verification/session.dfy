/** Whole runs of requests against one database. */
module Session {
  import opened Bytes
  import opened Labels
  import opened Context
  import opened Tokens
  import opened IndexModel
  import opened KeywordIndex
  import opened KeywordUpdates
  import opened Dummies
  import opened DocModel
  import opened Query
  import opened QueryCode
  import opened Select
  import opened Update
  import opened Database
  import opened Archives

  /** A compiled SELECT, or an update. */
  datatype Request = Ask(root: Ast, keywords: seq<Text>, kind: int) | Change(update: UpdateRequest)

  datatype Reply = Answer(select: SelectReply) | Changed

  /** The bounds that the request structures and the bundle format impose on clients. */
  predicate InBounds(req: Request)
  {
    match req
    case Ask(root, keywords, kind) => InRange(root, |keywords|) && |keywords| <= MAX_TERMS && 0 <= kind <= 4
    case Change(u) => u.op != OP_DELETE ==> Fits(NewSlot(u)) && AllReal(NewWords(u))
  }

  function ArchiveAfter(a: Archive, req: Request): Archive
  {
    if req.Change? then Updated(a, req.update) else a
  }

  /** What a request is answered with, computed on the archive alone. */
  function ReplyTo(a: Archive, req: Request, limit: int): Reply
    requires InBounds(req)
  {
    if req.Ask? then Answer(ArchiveReply(a, Named(req.root, req.keywords), req.kind, limit)) else Changed
  }

  function RunArchive(a: Archive, reqs: seq<Request>): Archive
  {
    if reqs == [] then a else ArchiveAfter(RunArchive(a, reqs[..|reqs| - 1]), reqs[|reqs| - 1])
  }

  /** The number of keyword rounds an update runs through. */
  function UpdateCost(a: Archive, req: UpdateRequest): nat
  {
    |Cleared(a, req)| + |Filed(req)|
  }

  function RequestCost(a: Archive, req: Request): nat
  {
    if req.Change? then UpdateCost(a, req.update) else 0
  }

  /** The keyword rounds of a whole run. */
  function RunCost(a: Archive, reqs: seq<Request>): nat
  {
    if reqs == [] then 0
    else RunCost(a, reqs[..|reqs| - 1]) + RequestCost(RunArchive(a, reqs[..|reqs| - 1]), reqs[|reqs| - 1])
  }

  /** The words a request files or clears. */
  function RequestWords(a: Archive, req: Request): set<Text>
  {
    if req.Change? then WordSet(Rounds(a, req.update)) else {}
  }

  /** The words a run files or clears. */
  function RunWords(a: Archive, reqs: seq<Request>): set<Text>
  {
    if reqs == [] then {}
    else RunWords(a, reqs[..|reqs| - 1]) + RequestWords(RunArchive(a, reqs[..|reqs| - 1]), reqs[|reqs| - 1])
  }

  /** The placeholders that came in between: one with every twentieth update. */
  function Arrivals(c: ClientContext, c': ClientContext): int
  {
    c'.replenishCounter / 20 - c.replenishCounter / 20
  }

  lemma ArrivalCounts(c: ClientContext, c': ClientContext)
    ensures Replenished(c, c') ==> Arrivals(c, c') == Arrival(c)
    ensures c'.replenishCounter == c.replenishCounter ==> Arrivals(c, c') == 0
  {
  }

  /** handle_update: any update, clean or not, from any cache. */
  method HandleUpdate(cm: ContextManager, host: Host, edb: int, req: UpdateRequest, ghost a: Archive)
    returns (status: UpdateStatus)
    requires host.Registered(edb) && Ready(cm.ctx, host.bitmaps[edb], host.docs[edb])
    requires Covers(cm.ctx, host.bitmaps[edb], host.docs[edb], a)
    requires InBounds(Change(req)) && cm.ctx.dummySize < DUMMY_LIMIT
    modifies cm`ctx, cm`tally, host`bitmaps, host`docs, host`trace
    ensures status.Applied? || status.NotFound? ==> cm.tally.misses == old(cm.tally.misses)
    ensures status.Incomplete? ==> cm.tally.misses > old(cm.tally.misses)
    ensures status.NoRoom? ==> cm.ctx.dummyCount <= 0 && old(cm.ctx.dummyCount) < UpdateCost(a, req)
    ensures status.NoRoom? ==> Hungry(cm.ctx, WordSet(Rounds(a, req)))
    ensures Fed(old(cm.ctx), cm.ctx, WordSet(Rounds(a, req)), Arrivals(old(cm.ctx), cm.ctx))
    ensures edb in host.bitmaps && host.bitmaps == old(host.bitmaps)[edb := host.bitmaps[edb]]
    ensures edb in host.docs && host.docs == old(host.docs)[edb := host.docs[edb]]
    ensures Kept(old(cm.ctx), old(host.bitmaps)[edb], old(host.docs)[edb], old(cm.tally),
                 cm.ctx, host.bitmaps[edb], host.docs[edb], cm.tally)
    ensures VersionsKept(old(cm.ctx), old(host.docs)[edb], cm.ctx, host.docs[edb], 2)
    ensures Spent(old(cm.ctx), old(cm.tally), cm.ctx, cm.tally, UpdateCost(a, req))
    ensures |old(cm.ctx.CK)| == 0 ==> (status.Applied? || status.NotFound?) && |cm.ctx.CK| == 0
    ensures status.Applied? && req.op == 0 ==>
      Gone(old(cm.ctx), old(host.docs)[edb], cm.ctx, host.bitmaps[edb], host.docs[edb], req.docId)
    ensures (status.Applied? || status.NotFound?) && req.op != 0 ==>
      AsSent(old(cm.ctx), cm.ctx, host.bitmaps[edb], host.docs[edb], req, status.Applied?)
    ensures status.NotFound? ==> req.op == 2
    ensures status.Applied? || status.NotFound? ==>
      Covers(cm.ctx, host.bitmaps[edb], host.docs[edb], Updated(a, req))
    ensures Mirrors(old(cm.ctx), old(host.bitmaps)[edb], old(host.docs)[edb], a) ==>
      (status.Applied? || status.NotFound?) ==>
      && (Mirrors(cm.ctx, host.bitmaps[edb], host.docs[edb], Updated(a, req)) <==> !Drops(old(cm.ctx), a, req))
      && (cm.tally.losses == old(cm.tally.losses) <==> !Drops(old(cm.ctx), a, req))
    ensures status.Applied? || status.NotFound? ==>
      InStep(old(cm.ctx), old(host.bitmaps)[edb], old(host.docs)[edb], cm.ctx, host.bitmaps[edb], host.docs[edb], req)
  {
    hide Ready, Mirrors, Covers, Kept, Stored, Deleted, AllReal, Fits, NewSlot, NewWords, UpdateCost, OldWords, Gone,
         ClearedWords, Replenished, NextEnd, Spent, VersionsKept, Fed, Hungry, Arrival, Arrivals, Rounds, Updated,
         Drops, WordSet, InStep, AsSent;
    ghost var c0, s0, d0, t0 := cm.ctx, host.bitmaps[edb], host.docs[edb], cm.tally;
    RoundsFound(c0, s0, d0, a, req);
    if req.op == OP_DELETE {
      status := HandleDelete(cm, host, edb, req.docId);
      if status.Applied? {
        DeleteArchived(c0, s0, d0, t0, a, cm.ctx, host.bitmaps[edb], host.docs[edb], cm.tally, req);
        DeleteInStep(c0, s0, d0, t0, cm.ctx, host.bitmaps[edb], host.docs[edb], cm.tally, req);
      }
    } else {
      status := HandleStore(cm, host, edb, req);
      if status.Applied? || status.NotFound? {
        StoreArchived(c0, s0, d0, t0, a, cm.ctx, host.bitmaps[edb], host.docs[edb], cm.tally, req, status);
        StoreInStep(c0, s0, d0, t0, cm.ctx, host.bitmaps[edb], host.docs[edb], cm.tally, req, status);
      }
    }
    ArrivalCounts(c0, cm.ctx);
  }

  /**
   Any plain map that the enclave refines before the update it refines afterwards exactly if the update is
   clean and will drop no other document's bit, which can be checked before the call.
   */
  ghost predicate InStep(c: ClientContext, s: Store, d: DocStore, c': ClientContext, s': Store, d': DocStore,
                         req: UpdateRequest)
  {
    forall db: Db :: Refines(c, s, d, db) ==>
      (Refines(c', s', d', ApplyUpdate(db, req)) <==> Clean(db, req) && !LosesBit(c, db, req))
  }

  lemma StoreInStep(c: ClientContext, s: Store, d: DocStore, t: Tally, c': ClientContext, s': Store, d': DocStore,
                    t': Tally, req: UpdateRequest, status: UpdateStatus)
    requires Stored(c, s, d, t, c', s', d', t', req, status) && req.op != OP_DELETE && AllReal(NewWords(req))
    ensures InStep(c, s, d, c', s', d', req)
  {
    hide Refines, Stored, ApplyUpdate, Clean, LosesBit, NewWords, AllReal;
    forall db: Db | Refines(c, s, d, db)
      ensures Refines(c', s', d', ApplyUpdate(db, req)) <==> Clean(db, req) && !LosesBit(c, db, req)
    {
      StoreRefines(c, s, d, t, db, c', s', d', t', req, status);
    }
  }

  lemma DeleteInStep(c: ClientContext, s: Store, d: DocStore, t: Tally, c': ClientContext, s': Store, d': DocStore,
                     t': Tally, req: UpdateRequest)
    requires Deleted(c, s, d, t, c', s', d', t', req.docId) && req.op == OP_DELETE
    ensures InStep(c, s, d, c', s', d', req)
  {
    hide Refines, Deleted, ApplyUpdate, LosesBit;
    forall db: Db | Refines(c, s, d, db)
      ensures Refines(c', s', d', ApplyUpdate(db, req)) <==> Clean(db, req) && !LosesBit(c, db, req)
    {
      DeleteRefines(c, s, d, t, db, c', s', d', t', req);
      DeleteIsClean(db, req);
    }
  }

  lemma DeleteIsClean(db: Db, req: UpdateRequest)
    requires req.op == OP_DELETE
    ensures Clean(db, req)
  {
  }

  /** The words that the code finds in the slot are the archive's. */
  lemma RoundsFound(c: ClientContext, s: Store, d: DocStore, a: Archive, req: UpdateRequest)
    requires Covers(c, s, d, a)
    ensures AllReal(OldWords(c, d, req.docId))
    ensures req.op == OP_DELETE ==>
      && Rounds(a, req) == OldWords(c, d, req.docId) && UpdateCost(a, req) == |OldWords(c, d, req.docId)|
    ensures req.op != OP_DELETE ==>
      && AllReal(ClearedWords(c, d, req)) && UpdateCost(a, req) == |ClearedWords(c, d, req)| + |NewWords(req)|
      && Rounds(a, req) ==
           if ValidId(req.docId) && !ReplaceMisses(c, d, req) then ClearedWords(c, d, req) + NewWords(req) else []
    ensures WordSet([]) == {}
  {
    hide SlotsHeld, View, OldWords, ClearedWords, NewWords, AllReal, ReplaceMisses, Misses, SlotWords;
    WordsHeld(c, d, a, req);
    assert SlotWords(a, req.docId) + [] == SlotWords(a, req.docId);
    hide WordSet;
    NoRounds(a, req);
  }

  lemma NoRounds(a: Archive, req: UpdateRequest)
    ensures !ValidId(req.docId) ==> SlotWords(a, req.docId) == []
    ensures req.op == OP_DELETE ==> !Misses(a, req)
    ensures WordSet([]) == {}
  {
  }

  /**
   What any number of requests does to one client's state, whether or not they all succeed: identity and
   limits stay; the cache and the placeholders pay at most the given number of rounds, and a cache that can
   pay loses nothing; placeholders go to new keywords only, and these are among the given words; companions
   stay, and while there are companions no pick is barren; stored keyword versions are written once unless a
   known word started over; slot versions advance.
   */
  ghost predicate Advanced(c: ClientContext, s: Store, d: DocStore, t: Tally,
                           c': ClientContext, s': Store, d': DocStore, t': Tally,
                           requests: nat, rounds: nat, words: set<Text>)
  {
    && c'.K == c.K && c'.clientId == c.clientId && c'.ckMax == c.ckMax && c'.retrievalLimit == c.retrievalLimit
    && c'.dummySize <= c.dummySize + requests
    && Spent(c, t, c', t', rounds) && Fed(c, c', words, Arrivals(c, c'))
    && (Companions(c) ==> Companions(c') && t'.barren == t.barren) && |c'.KVS| >= |c.KVS|
    && (t'.rewinds == t.rewinds ==> WriteOnce(c, s, c', s'))
    && VersionsKept(c, d, c', d', 2 * requests)
  }

  lemma AdvancedRefl(c: ClientContext, s: Store, d: DocStore, t: Tally)
    ensures Advanced(c, s, d, t, c, s, d, t, 0, 0, {})
  {
    hide Fresh, NoOverwrite, VersionsKept, Fed;
    FedSame(c, c, 0);
    WriteOnceRefl(c, s);
    VersionsUntouched(c, d, c, 0);
  }

  lemma AdvancedTrans(c0: ClientContext, s0: Store, d0: DocStore, t0: Tally, c1: ClientContext, s1: Store, d1: DocStore,
                      t1: Tally, c2: ClientContext, s2: Store, d2: DocStore, t2: Tally,
                      i: nat, m: nat, a: set<Text>, j: nat, n: nat, b: set<Text>)
    requires Advanced(c0, s0, d0, t0, c1, s1, d1, t1, i, m, a) && Advanced(c1, s1, d1, t1, c2, s2, d2, t2, j, n, b)
    ensures Advanced(c0, s0, d0, t0, c2, s2, d2, t2, i + j, m + n, a + b)
  {
    hide WriteOnce, VersionsKept, Companions, NeverCold, Warm, Fed;
    FedTrans(c0, c1, c2, a, b, Arrivals(c0, c1), Arrivals(c1, c2));
    SpentTrans(c0, t0, c1, t1, c2, t2, m, n);
    VersionsKeptTrans(c0, d0, c1, d1, c2, d2, 2 * i, 2 * j);
    if t2.rewinds == t0.rewinds {
      WriteOnceTrans(c0, s0, c1, s1, c2, s2);
    }
  }

  lemma AdvancedMore(c: ClientContext, s: Store, d: DocStore, t: Tally, c': ClientContext, s': Store, d': DocStore,
                     t': Tally, i: nat, m: nat, a: set<Text>, j: nat, n: nat, b: set<Text>)
    requires Advanced(c, s, d, t, c', s', d', t', i, m, a) && i <= j && m <= n && a <= b
    ensures Advanced(c, s, d, t, c', s', d', t', j, n, b)
  {
    hide WriteOnce, VersionsKept, Companions, Spent, Fed, Arrivals;
    FedMore(c, c', a, b, Arrivals(c, c'));
    SpentMore(c, t, c', t', m, n);
    VersionsKeptMore(c, d, c', d', 2 * i, 2 * j);
  }

  lemma QueryAdvances(c: ClientContext, s: Store, d: DocStore, t: Tally, c': ClientContext, s': Store, d': DocStore,
                      t': Tally, ok: bool)
    requires Queried(c, s, d, c', s', d') && MissedUnless(ok, c, t, t')
    ensures Ready(c', s', d') && Advanced(c, s, d, t, c', s', d', t', 1, 0, {})
  {
    hide Ready, SameView, SameContents, Fresh, NoOverwrite, VersionsKept, Fed, RealKeys;
    FedSame(c, c', 0);
    VersionsKeptMore(c, d, c', d', 1, 2);
  }

  lemma UpdateAdvances(c: ClientContext, s: Store, d: DocStore, t: Tally, c': ClientContext, s': Store, d': DocStore,
                       t': Tally, n: nat, words: set<Text>)
    requires Kept(c, s, d, t, c', s', d', t') && VersionsKept(c, d, c', d', 2) && Spent(c, t, c', t', n)
    requires Fed(c, c', words, Arrivals(c, c'))
    ensures Ready(c', s', d') && Advanced(c, s, d, t, c', s', d', t', 1, n, words)
  {
    hide Ready, Fresh, NoOverwrite, VersionsKept, Spent, Warm, Fed, Arrivals;
  }

  /** ecall_handle_request, from any cache. */
  method HandleRequest(cm: ContextManager, host: Host, edb: int, req: Request, ghost a: Archive)
    returns (ok: bool, reply: Reply)
    requires host.Registered(edb) && Ready(cm.ctx, host.bitmaps[edb], host.docs[edb])
    requires Covers(cm.ctx, host.bitmaps[edb], host.docs[edb], a)
    requires InBounds(req) && cm.ctx.dummySize < DUMMY_LIMIT
    modifies cm`ctx, cm`tally, host`bitmaps, host`docs, host`trace
    ensures ok ==> cm.tally.misses == old(cm.tally.misses)
    ensures !ok ==> cm.tally.misses > old(cm.tally.misses) || Hungry(cm.ctx, RequestWords(a, req))
    ensures edb in host.bitmaps && host.bitmaps == old(host.bitmaps)[edb := host.bitmaps[edb]]
    ensures edb in host.docs && host.docs == old(host.docs)[edb := host.docs[edb]]
    ensures Ready(cm.ctx, host.bitmaps[edb], host.docs[edb])
    ensures Advanced(old(cm.ctx), old(host.bitmaps)[edb], old(host.docs)[edb], old(cm.tally),
                     cm.ctx, host.bitmaps[edb], host.docs[edb], cm.tally,
                     1, RequestCost(a, req), RequestWords(a, req))
    ensures ok ==> Covers(cm.ctx, host.bitmaps[edb], host.docs[edb], ArchiveAfter(a, req))
    ensures ok && Mirrors(old(cm.ctx), old(host.bitmaps)[edb], old(host.docs)[edb], a) ==>
      && reply == ReplyTo(a, req, old(cm.ctx.retrievalLimit))
      && (Mirrors(cm.ctx, host.bitmaps[edb], host.docs[edb], ArchiveAfter(a, req))
          <==> !RequestLoses(old(cm.ctx), a, req))
      && (cm.tally.losses == old(cm.tally.losses) <==> !RequestLoses(old(cm.ctx), a, req))
      && (Sharing(a, req) || cm.tally.losses == old(cm.tally.losses))
  {
    hide Ready, Mirrors, Covers, Kept, Updated, Queried, Run, ArchiveReply, Encode, MakeTerms, InRange,
         MissedUnless, Spent, VersionsKept, Advanced, Alone, InStep, UpdateCost, NeverCold, Companions, Fed, Hungry,
         Arrivals, Rounds, Drops, WordSet;
    ghost var c0, s0, d0, t0 := cm.ctx, host.bitmaps[edb], host.docs[edb], cm.tally;
    match req {
      case Ask(root, keywords, kind) =>
        CompiledRuns(c0, s0, root, keywords);
        var answer: SelectReply;
        ok, answer := HandleSelect(cm, host, edb, SelectRequest(MakeTerms(keywords), Encode(root), kind));
        ghost var c1, s1, d1, t1 := cm.ctx, host.bitmaps[edb], host.docs[edb], cm.tally;
        QueryArchived(c0, s0, d0, a, c1, s1, d1);
        QueryAdvances(c0, s0, d0, t0, c1, s1, d1, t1, ok);
        MissedGives(ok, c0, t0, t1);
        if Mirrors(c0, s0, d0, a) {
          ReplyArchived(c0, s0, d0, a, root, keywords, kind);
        }
        reply := Answer(answer);
      case Change(u) =>
        var status := HandleUpdate(cm, host, edb, u, a);
        ok := status.Applied? || status.NotFound?;
        UpdateAdvances(c0, s0, d0, t0, cm.ctx, host.bitmaps[edb], host.docs[edb], cm.tally, UpdateCost(a, u),
                       WordSet(Rounds(a, u)));
        AloneDropsNothing(c0, a, u);
        reply := Changed;
    }
  }

  /** An update that will drop another document's bit. */
  predicate RequestLoses(c: ClientContext, a: Archive, req: Request)
  {
    req.Change? && Drops(c, a, req.update)
  }

  /** An update of a word that another document is filed under. */
  predicate Sharing(a: Archive, req: Request)
  {
    req.Change? && !Alone(a, req.update)
  }

  lemma MissedGives(ok: bool, c: ClientContext, t: Tally, t': Tally)
    requires MissedUnless(ok, c, t, t')
    ensures t'.losses == t.losses && (if ok then t'.misses == t.misses else t'.misses > t.misses)
  {
  }

  /** The replies so far are those computed on the archive. */
  ghost predicate Answered(a: Archive, reqs: seq<Request>, replies: seq<Reply>, limit: int)
  {
    && |replies| <= |reqs|
    && (forall i :: 0 <= i < |replies| ==> InBounds(reqs[i]))
    && (forall i :: 0 <= i < |replies| ==> replies[i] == ReplyTo(RunArchive(a, reqs[..i]), reqs[i], limit))
  }

  lemma AnsweredMore(a: Archive, reqs: seq<Request>, replies: seq<Reply>, reply: Reply, limit: int)
    requires Answered(a, reqs, replies, limit) && |replies| < |reqs| && InBounds(reqs[|replies|])
    requires reply == ReplyTo(RunArchive(a, reqs[..|replies|]), reqs[|replies|], limit)
    ensures Answered(a, reqs, replies + [reply], limit)
  {
    hide InBounds, ReplyTo, RunArchive;
  }

  lemma RunStep(a: Archive, reqs: seq<Request>, i: nat)
    requires i < |reqs|
    ensures RunArchive(a, reqs[..i + 1]) == ArchiveAfter(RunArchive(a, reqs[..i]), reqs[i])
    ensures RunCost(a, reqs[..i + 1]) == RunCost(a, reqs[..i]) + RequestCost(RunArchive(a, reqs[..i]), reqs[i])
    ensures RunWords(a, reqs[..i + 1]) == RunWords(a, reqs[..i]) + RequestWords(RunArchive(a, reqs[..i]), reqs[i])
  {
    assert reqs[..i + 1][..i] == reqs[..i];
  }

  lemma {:induction false} RunCostGrows(a: Archive, reqs: seq<Request>, i: nat)
    requires i <= |reqs|
    ensures RunCost(a, reqs[..i]) <= RunCost(a, reqs) && RunWords(a, reqs[..i]) <= RunWords(a, reqs)
    decreases |reqs| - i
  {
    hide RequestCost, RequestWords, RunArchive;
    if i == |reqs| {
      assert reqs[..i] == reqs;
    } else {
      RunStep(a, reqs, i);
      RunCostGrows(a, reqs, i + 1);
    }
  }

  /** No update of the run touches a word that another document is filed under at that point. */
  predicate UnsharedRun(a: Archive, reqs: seq<Request>)
  {
    forall i :: 0 <= i < |reqs| ==> !Sharing(RunArchive(a, reqs[..i]), reqs[i])
  }

  lemma UnsharedAt(a: Archive, reqs: seq<Request>, i: nat)
    requires i < |reqs|
    ensures UnsharedRun(a, reqs) ==> !Sharing(RunArchive(a, reqs[..i]), reqs[i])
  {
    hide RunArchive, Sharing;
  }

  lemma NothingRun(a: Archive, reqs: seq<Request>, limit: int)
    ensures Answered(a, reqs, [], limit) && RunArchive(a, reqs[..0]) == a && RunCost(a, reqs[..0]) == 0
    ensures RunWords(a, reqs[..0]) == {}
  {
  }

  /**
   Any sequence of requests, clean or not, from any context that covers the archive. When it is done, slots
   and live set are the archive's, and no keyword lists a document that is not filed under it. If no round
   drops the bit of another document, every reply and the final state are the archive's; that is so in
   particular if the cache starts full or with as many entries as the run has rounds (Advanced), or if no
   update touches a word that another document is filed under. The run ends early only if a random pick
   misses, or if no placeholder is left and there were fewer, later arrivals included, than words of the run
   new to the index.
   */
  method RunRequests(cm: ContextManager, host: Host, edb: int, reqs: seq<Request>, ghost a: Archive)
    returns (replies: seq<Reply>)
    requires host.Registered(edb) && Ready(cm.ctx, host.bitmaps[edb], host.docs[edb])
    requires Covers(cm.ctx, host.bitmaps[edb], host.docs[edb], a)
    requires (forall i :: 0 <= i < |reqs| ==> InBounds(reqs[i]))
    requires cm.ctx.dummySize + |reqs| <= DUMMY_LIMIT
    modifies cm`ctx, cm`tally, host`bitmaps, host`docs, host`trace
    ensures edb in host.bitmaps && host.bitmaps == old(host.bitmaps)[edb := host.bitmaps[edb]]
    ensures edb in host.docs && host.docs == old(host.docs)[edb := host.docs[edb]]
    ensures Ready(cm.ctx, host.bitmaps[edb], host.docs[edb])
    ensures Advanced(old(cm.ctx), old(host.bitmaps)[edb], old(host.docs)[edb], old(cm.tally),
                     cm.ctx, host.bitmaps[edb], host.docs[edb], cm.tally,
                     |reqs|, RunCost(a, reqs), RunWords(a, reqs))
    ensures |replies| <= |reqs|
    ensures |replies| < |reqs| ==>
      || cm.tally.misses > old(cm.tally.misses)
      || UsedUp(old(cm.ctx), cm.ctx, RunWords(a, reqs))
    ensures |replies| == |reqs| ==> Covers(cm.ctx, host.bitmaps[edb], host.docs[edb], RunArchive(a, reqs))
    ensures Mirrors(old(cm.ctx), old(host.bitmaps)[edb], old(host.docs)[edb], a) ==>
      && (cm.tally.losses == old(cm.tally.losses) ==> Answered(a, reqs, replies, old(cm.ctx.retrievalLimit)))
      && (|replies| == |reqs| && UnsharedRun(a, reqs) ==> cm.tally.losses == old(cm.tally.losses))
      && (|replies| == |reqs| && cm.tally.losses == old(cm.tally.losses) ==>
            Mirrors(cm.ctx, host.bitmaps[edb], host.docs[edb], RunArchive(a, reqs)))
  {
    hide Ready, Mirrors, Covers, InBounds, ReplyTo, ArchiveAfter, RunArchive, RunCost, RequestCost, RunWords,
         RequestWords, Answered, Advanced, Sharing, RequestLoses, NeverCold, Arrivals, Hungry, Fed, UnsharedRun,
         UsedUp;
    ghost var c0, s0, d0, t0 := cm.ctx, host.bitmaps[edb], host.docs[edb], cm.tally;
    ghost var limit, exact := c0.retrievalLimit, Mirrors(c0, s0, d0, a);
    AdvancedRefl(c0, s0, d0, t0);
    NothingRun(a, reqs, limit);
    replies := [];
    var i := 0;
    while i < |reqs|
      invariant 0 <= i <= |reqs| && |replies| == i
      invariant edb in host.bitmaps && host.bitmaps == old(host.bitmaps)[edb := host.bitmaps[edb]]
      invariant edb in host.docs && host.docs == old(host.docs)[edb := host.docs[edb]]
      invariant Ready(cm.ctx, host.bitmaps[edb], host.docs[edb])
      invariant Covers(cm.ctx, host.bitmaps[edb], host.docs[edb], RunArchive(a, reqs[..i]))
      invariant Advanced(c0, s0, d0, t0, cm.ctx, host.bitmaps[edb], host.docs[edb], cm.tally,
                         i, RunCost(a, reqs[..i]), RunWords(a, reqs[..i]))
      invariant cm.tally.misses == t0.misses
      invariant exact && cm.tally.losses == t0.losses ==>
        Mirrors(cm.ctx, host.bitmaps[edb], host.docs[edb], RunArchive(a, reqs[..i]))
          && Answered(a, reqs, replies, limit)
      invariant exact && UnsharedRun(a, reqs) ==> cm.tally.losses == t0.losses
    {
      ghost var c1, s1, d1, t1, now := cm.ctx, host.bitmaps[edb], host.docs[edb], cm.tally, RunArchive(a, reqs[..i]);
      AdvancedGives(c0, s0, d0, t0, c1, s1, d1, t1, i, RunCost(a, reqs[..i]), RunWords(a, reqs[..i]));
      UnsharedAt(a, reqs, i);
      var ok, reply := HandleRequest(cm, host, edb, reqs[i], now);
      RunAdvances(c0, s0, d0, t0, c1, s1, d1, t1, cm.ctx, host.bitmaps[edb], host.docs[edb], cm.tally, a, reqs, i);
      RunStep(a, reqs, i);
      if !ok {
        RunStops(c0, s0, d0, t0, cm.ctx, host.bitmaps[edb], host.docs[edb], cm.tally, a, reqs, i);
        return;
      }
      if exact && cm.tally.losses == t0.losses {
        AnsweredMore(a, reqs, replies, reply, limit);
      }
      replies := replies + [reply];
      i := i + 1;
    }
    assert reqs[..i] == reqs;
  }

  lemma AdvancedGives(c: ClientContext, s: Store, d: DocStore, t: Tally, c': ClientContext, s': Store, d': DocStore,
                      t': Tally, requests: nat, rounds: nat, words: set<Text>)
    requires Advanced(c, s, d, t, c', s', d', t', requests, rounds, words)
    ensures c'.dummySize <= c.dummySize + requests && c'.retrievalLimit == c.retrievalLimit && c'.clientId == c.clientId
    ensures c'.dummyCount >= c.dummyCount - rounds && t'.misses >= t.misses && t'.losses >= t.losses
  {
    hide WriteOnce, VersionsKept, Companions, NeverCold, Warm, Fed;
  }

  /** One more request of the run. */
  lemma RunAdvances(c0: ClientContext, s0: Store, d0: DocStore, t0: Tally, c1: ClientContext, s1: Store, d1: DocStore,
                    t1: Tally, c2: ClientContext, s2: Store, d2: DocStore, t2: Tally, a: Archive, reqs: seq<Request>,
                    i: nat)
    requires i < |reqs|
    requires Advanced(c0, s0, d0, t0, c1, s1, d1, t1, i, RunCost(a, reqs[..i]), RunWords(a, reqs[..i]))
    requires Advanced(c1, s1, d1, t1, c2, s2, d2, t2, 1, RequestCost(RunArchive(a, reqs[..i]), reqs[i]),
                      RequestWords(RunArchive(a, reqs[..i]), reqs[i]))
    ensures Advanced(c0, s0, d0, t0, c2, s2, d2, t2, i + 1, RunCost(a, reqs[..i + 1]), RunWords(a, reqs[..i + 1]))
    ensures t2.misses >= t1.misses && t2.losses >= t1.losses
  {
    hide Advanced, RequestCost, RequestWords, RunArchive;
    var now := RunArchive(a, reqs[..i]);
    RunStep(a, reqs, i);
    hide RunCost, RunWords;
    AdvancedTrans(c0, s0, d0, t0, c1, s1, d1, t1, c2, s2, d2, t2, i, RunCost(a, reqs[..i]), RunWords(a, reqs[..i]),
                  1, RequestCost(now, reqs[i]), RequestWords(now, reqs[i]));
    AdvancedGives(c1, s1, d1, t1, c2, s2, d2, t2, 1, RequestCost(now, reqs[i]), RequestWords(now, reqs[i]));
  }

  /** No placeholder is left, and there were fewer, later arrivals included, than words new to the index. */
  predicate UsedUp(c: ClientContext, c': ClientContext, words: set<Text>)
  {
    c'.dummyCount <= 0 && c.dummyCount + Arrivals(c, c') < |words - c.KVS.Keys|
  }

  /** A run that ends with a refused request. */
  lemma RunStops(c0: ClientContext, s0: Store, d0: DocStore, t0: Tally, c: ClientContext, s: Store, d: DocStore,
                 t: Tally, a: Archive, reqs: seq<Request>, i: nat)
    requires i < |reqs|
    requires Advanced(c0, s0, d0, t0, c, s, d, t, i + 1, RunCost(a, reqs[..i + 1]), RunWords(a, reqs[..i + 1]))
    ensures Advanced(c0, s0, d0, t0, c, s, d, t, |reqs|, RunCost(a, reqs), RunWords(a, reqs))
    ensures Hungry(c, RequestWords(RunArchive(a, reqs[..i]), reqs[i])) ==> UsedUp(c0, c, RunWords(a, reqs))
  {
    hide Advanced, RequestCost, RequestWords, RunArchive, UsedUp, Hungry;
    RunStep(a, reqs, i);
    RunCostGrows(a, reqs, i + 1);
    hide RunCost, RunWords;
    AdvancedMore(c0, s0, d0, t0, c, s, d, t, i + 1, RunCost(a, reqs[..i + 1]), RunWords(a, reqs[..i + 1]),
                 |reqs|, RunCost(a, reqs), RunWords(a, reqs));
    HungryRun(c0, s0, d0, t0, c, s, d, t, |reqs|, RunCost(a, reqs), RequestWords(RunArchive(a, reqs[..i]), reqs[i]),
              RunWords(a, reqs));
  }

  lemma HungryRun(c: ClientContext, s: Store, d: DocStore, t: Tally, c': ClientContext, s': Store, d': DocStore,
                  t': Tally, requests: nat, rounds: nat, some: set<Text>, words: set<Text>)
    requires Advanced(c, s, d, t, c', s', d', t', requests, rounds, words) && some <= words
    ensures Hungry(c', some) ==> UsedUp(c, c', words)
  {
    hide WriteOnce, VersionsKept, Companions, Spent, Fed, Arrivals, Real;
    if Hungry(c', some) {
      FedHungry(c, c', words, Arrivals(c, c'));
    }
  }

  /** Words new to the index are no more than rounds. */
  lemma {:induction false} RunWordsFew(a: Archive, reqs: seq<Request>)
    ensures |RunWords(a, reqs)| <= RunCost(a, reqs)
  {
    if reqs != [] {
      var n := |reqs| - 1;
      RunWordsFew(a, reqs[..n]);
      RequestWordsFew(RunArchive(a, reqs[..n]), reqs[n]);
      hide RequestWords, RequestCost, RunArchive;
      UnionSize(RunWords(a, reqs[..n]), RequestWords(RunArchive(a, reqs[..n]), reqs[n]));
    }
  }

  lemma UnionSize(a: set<Text>, b: set<Text>)
    ensures |a + b| <= |a| + |b|
  {
  }

  lemma RequestWordsFew(a: Archive, req: Request)
    ensures |RequestWords(a, req)| <= RequestCost(a, req)
  {
    hide TokensOf, NewWords;
    if req.Change? {
      DistinctWords(Rounds(a, req.update));
    }
  }

  // ----- runs of updates from an empty keyword cache

  lemma KeptFrame(c: ClientContext, s: Store, d: DocStore, t: Tally, c': ClientContext, s': Store, d': DocStore,
                  t': Tally)
    requires Kept(c, s, d, t, c', s', d', t')
    ensures Ready(c', s', d') && c'.dummySize <= c.dummySize + 1 && c'.ckMax == c.ckMax
    ensures t'.losses >= t.losses
  {
    hide Ready, Warm, Fresh, NoOverwrite;
  }

  lemma UnsharedPrefix(a: Archive, reqs: seq<Request>, i: nat)
    requires i < |reqs|
    ensures UnsharedRun(a, reqs[..i + 1]) <==> UnsharedRun(a, reqs[..i]) && !Sharing(RunArchive(a, reqs[..i]), reqs[i])
  {
    hide RunArchive, Sharing;
    var more, less := reqs[..i + 1], reqs[..i];
    assert more[i] == reqs[i] && more[..i] == less;
    forall j | 0 <= j < i
      ensures more[j] == less[j] && more[..j] == less[..j]
    {
    }
  }

  /**
   A database that has not been searched or reloaded since it was opened runs with an empty keyword cache.
   Any sequence of updates then completes, still with an empty cache; no bit is dropped exactly if no update
   touches a word that another document is filed under, and then the end is the archive's.
   */
  method RunColdUpdates(cm: ContextManager, host: Host, edb: int, reqs: seq<Request>, ghost a: Archive)
    requires host.Registered(edb) && Ready(cm.ctx, host.bitmaps[edb], host.docs[edb])
    requires Mirrors(cm.ctx, host.bitmaps[edb], host.docs[edb], a) && |cm.ctx.CK| == 0
    requires forall i :: 0 <= i < |reqs| ==> reqs[i].Change? && InBounds(reqs[i])
    requires cm.ctx.dummySize + |reqs| <= DUMMY_LIMIT
    modifies cm`ctx, cm`tally, host`bitmaps, host`docs, host`trace
    ensures edb in host.bitmaps && host.bitmaps == old(host.bitmaps)[edb := host.bitmaps[edb]]
    ensures edb in host.docs && host.docs == old(host.docs)[edb := host.docs[edb]]
    ensures Ready(cm.ctx, host.bitmaps[edb], host.docs[edb]) && |cm.ctx.CK| == 0
    ensures cm.tally.misses == old(cm.tally.misses)
    ensures Covers(cm.ctx, host.bitmaps[edb], host.docs[edb], RunArchive(a, reqs))
    ensures cm.tally.losses == old(cm.tally.losses) <==> UnsharedRun(a, reqs)
    ensures UnsharedRun(a, reqs) ==> Mirrors(cm.ctx, host.bitmaps[edb], host.docs[edb], RunArchive(a, reqs))
  {
    hide Ready, Mirrors, Covers, InBounds, RunArchive, RunCost, Kept, NeverCold, UpdateCost, Spent, VersionsKept, Alone,
         Fed, Hungry, Arrivals, Drops, Rounds, RunWords, WordSet, Updated, InStep, UnsharedRun;
    NothingRun(a, reqs, 0);
    NothingShared(a, reqs);
    MirrorsCovers(cm.ctx, host.bitmaps[edb], host.docs[edb], a);
    for i := 0 to |reqs|
      invariant edb in host.bitmaps && host.bitmaps == old(host.bitmaps)[edb := host.bitmaps[edb]]
      invariant edb in host.docs && host.docs == old(host.docs)[edb := host.docs[edb]]
      invariant Ready(cm.ctx, host.bitmaps[edb], host.docs[edb]) && |cm.ctx.CK| == 0
      invariant cm.tally.misses == old(cm.tally.misses) && cm.tally.losses >= old(cm.tally.losses)
      invariant Covers(cm.ctx, host.bitmaps[edb], host.docs[edb], RunArchive(a, reqs[..i]))
      invariant cm.tally.losses == old(cm.tally.losses) <==> UnsharedRun(a, reqs[..i])
      invariant cm.tally.losses == old(cm.tally.losses) ==>
        Mirrors(cm.ctx, host.bitmaps[edb], host.docs[edb], RunArchive(a, reqs[..i]))
      invariant cm.ctx.dummySize <= old(cm.ctx.dummySize) + i
    {
      ghost var c1, s1, d1, t1, now := cm.ctx, host.bitmaps[edb], host.docs[edb], cm.tally, RunArchive(a, reqs[..i]);
      ReadyCache(c1, s1, d1);
      AloneDropsNothing(c1, now, reqs[i].update);
      var status := HandleUpdate(cm, host, edb, reqs[i].update, now);
      KeptFrame(c1, s1, d1, t1, cm.ctx, host.bitmaps[edb], host.docs[edb], cm.tally);
      RunStep(a, reqs, i);
      UnsharedPrefix(a, reqs, i);
    }
    assert reqs[..|reqs|] == reqs;
  }

  lemma NothingShared(a: Archive, reqs: seq<Request>)
    ensures UnsharedRun(a, reqs[..0])
  {
  }

  lemma ReadyCache(c: ClientContext, s: Store, d: DocStore)
    requires Ready(c, s, d)
    ensures c.ckMax >= 1
  {
    hide Pool, DocInv, Fresh, View;
  }

  // ----- runs on the plain map

  function DbAfter(db: Db, req: Request): Db
  {
    if req.Change? then ApplyUpdate(db, req.update) else db
  }

  function RunDb(db: Db, reqs: seq<Request>): Db
  {
    if reqs == [] then db else DbAfter(RunDb(db, reqs[..|reqs| - 1]), reqs[|reqs| - 1])
  }

  /** What a request is answered with, computed on the plain map alone. */
  function DbReplyTo(db: Db, req: Request, limit: int): Reply
    requires InBounds(req)
  {
    if req.Ask? then Answer(DbReply(db, Named(req.root, req.keywords), req.kind, limit)) else Changed
  }

  /** The update is clean for the map it meets. */
  predicate CleanRequest(db: Db, req: Request)
  {
    req.Change? ==> Clean(db, req.update)
  }

  /** Every update of the run is clean in the map it meets. */
  predicate CleanRun(db: Db, reqs: seq<Request>)
  {
    forall i :: 0 <= i < |reqs| ==> CleanRequest(RunDb(db, reqs[..i]), reqs[i])
  }

  /** The archive and the plain map go together, request by request, exactly while requests are clean. */
  lemma PlainRequest(a: Archive, db: Db, req: Request)
    requires Plain(a, db) && InSlots(db)
    ensures Plain(ArchiveAfter(a, req), DbAfter(db, req)) <==> CleanRequest(db, req)
    ensures InSlots(DbAfter(db, req))
    ensures InBounds(req) ==> forall limit :: ReplyTo(a, req, limit) == DbReplyTo(db, req, limit)
  {
    hide Plain, Clean, Updated, ArchiveReply, DbReply, NewSlot, InRange, Named;
    if req.Change? {
      CleanStaysPlain(a, db, req.update);
    } else if InBounds(req) {
      forall limit
        ensures ReplyTo(a, req, limit) == DbReplyTo(db, req, limit)
      {
        PlainReply(a, db, Named(req.root, req.keywords), req.kind, limit);
      }
    }
  }

  /** The archive is plain before and after every request. */
  ghost predicate PlainAlong(a: Archive, db: Db, reqs: seq<Request>)
  {
    forall i :: 0 <= i <= |reqs| ==> Plain(RunArchive(a, reqs[..i]), RunDb(db, reqs[..i]))
  }

  /** Along a whole run the archive stays plain exactly if every update is clean. */
  lemma {:induction false} PlainRun(a: Archive, db: Db, reqs: seq<Request>)
    requires Plain(a, db) && InSlots(db)
    ensures PlainAlong(a, db, reqs) <==> CleanRun(db, reqs)
    ensures InSlots(RunDb(db, reqs))
  {
    hide Plain, InSlots, CleanRequest, ArchiveAfter, DbAfter, PlainAlong, CleanRun;
    if reqs == [] {
      NoRequests(a, db);
    } else {
      var n := |reqs| - 1;
      PlainRun(a, db, reqs[..n]);
      AlongMore(a, db, reqs);
      CleanMore(db, reqs);
      if CleanRun(db, reqs[..n]) {
        PlainRequest(RunArchive(a, reqs[..n]), RunDb(db, reqs[..n]), reqs[n]);
      }
      InSlotsAfter(RunDb(db, reqs[..n]), reqs[n]);
    }
  }

  lemma NoRequests(a: Archive, db: Db)
    requires Plain(a, db)
    ensures PlainAlong(a, db, []) && CleanRun(db, [])
  {
    hide Plain;
  }

  lemma InSlotsAfter(db: Db, req: Request)
    requires InSlots(db)
    ensures InSlots(DbAfter(db, req))
  {
    hide NewSlot;
  }

  lemma AlongMore(a: Archive, db: Db, reqs: seq<Request>)
    requires reqs != []
    ensures var less := reqs[..|reqs| - 1];
            && (PlainAlong(a, db, reqs) <==> PlainAlong(a, db, less) && Plain(RunArchive(a, reqs), RunDb(db, reqs)))
            && (PlainAlong(a, db, less) ==> Plain(RunArchive(a, less), RunDb(db, less)))
  {
    hide Plain, RunArchive, RunDb;
    var n := |reqs| - 1;
    var less := reqs[..n];
    assert reqs[..n + 1] == reqs && less[..n] == less;
    if PlainAlong(a, db, reqs) {
      forall i | 0 <= i <= n
        ensures Plain(RunArchive(a, less[..i]), RunDb(db, less[..i]))
      {
        assert less[..i] == reqs[..i];
      }
      assert Plain(RunArchive(a, reqs[..n + 1]), RunDb(db, reqs[..n + 1]));
    }
    if PlainAlong(a, db, less) {
      assert Plain(RunArchive(a, less[..n]), RunDb(db, less[..n]));
      forall i | 0 <= i <= n
        ensures Plain(RunArchive(a, reqs[..i]), RunDb(db, reqs[..i]))
      {
        assert less[..i] == reqs[..i];
      }
    }
  }

  lemma CleanMore(db: Db, reqs: seq<Request>)
    requires reqs != []
    ensures var n := |reqs| - 1;
            CleanRun(db, reqs) <==> CleanRun(db, reqs[..n]) && CleanRequest(RunDb(db, reqs[..n]), reqs[n])
  {
    hide CleanRequest, RunDb;
    var n := |reqs| - 1;
    var less := reqs[..n];
    forall i | 0 <= i < n
      ensures less[..i] == reqs[..i] && less[i] == reqs[i]
    {
    }
  }

  /** The replies of a clean run are those of the plain map. */
  lemma PlainAnswered(a: Archive, db: Db, reqs: seq<Request>, replies: seq<Reply>, limit: int)
    requires Plain(a, db) && InSlots(db) && CleanRun(db, reqs) && Answered(a, reqs, replies, limit)
    ensures forall i :: 0 <= i < |replies| ==> InBounds(reqs[i])
    ensures forall i :: 0 <= i < |replies| ==> replies[i] == DbReplyTo(RunDb(db, reqs[..i]), reqs[i], limit)
  {
    hide Plain, InSlots, CleanRequest, RunArchive, RunDb, InBounds, ReplyTo, DbReplyTo;
    PlainRun(a, db, reqs);
    forall i | 0 <= i < |replies|
      ensures replies[i] == DbReplyTo(RunDb(db, reqs[..i]), reqs[i], limit)
    {
      InSlotsPrefix(db, reqs, i);
      PlainRequest(RunArchive(a, reqs[..i]), RunDb(db, reqs[..i]), reqs[i]);
    }
  }

  lemma {:induction false} InSlotsPrefix(db: Db, reqs: seq<Request>, i: nat)
    requires InSlots(db) && i <= |reqs|
    ensures InSlots(RunDb(db, reqs[..i]))
  {
    hide InSlots, DbAfter;
    if i > 0 {
      InSlotsPrefix(db, reqs, i - 1);
      assert reqs[..i][..i - 1] == reqs[..i - 1];
      InSlotsAfter(RunDb(db, reqs[..i - 1]), reqs[i - 1]);
    }
  }
}
