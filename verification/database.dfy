/** The whole enclave against a plain map from document number to index text and body. */
module Database {
  import opened Bytes
  import opened BitPack
  import opened Labels
  import opened Context
  import opened Tokens
  import opened IndexModel
  import opened ColdRounds
  import opened KeywordUpdates
  import opened DocModel
  import opened DocAccess
  import opened Query
  import opened QueryCode
  import opened Select
  import opened Update

  /** The live documents. */
  type Db = map<int, Slot>

  /** Document i is live and carries keyword w. */
  predicate Carries(db: Db, i: int, w: Text)
  {
    i in db && w in TokensOf(db[i].index)
  }

  /** Live set and slot contents are those of the database. */
  ghost predicate DocsHeld(c: ClientContext, d: DocStore, db: Db)
  {
    && (forall i :: i in db ==> ValidId(i) && AllReal(TokensOf(db[i].index)))
    && (forall k :: k in c.allDocs <==> k + 1 in db)
    && (forall i :: ValidId(i) ==> Contents(c, d, ToString(i)) == if i in db then db[i] else EMPTY_SLOT)
  }

  /** The documents are held, and no keyword lists one that does not carry it. */
  ghost predicate Holds(c: ClientContext, s: Store, d: DocStore, db: Db)
  {
    DocsHeld(c, d, db) && forall w, k :: k in View(c, s, w) ==> Carries(db, k + 1, w)
  }

  /** The enclave and its host hold exactly this database: live set, slot contents and keyword bitmaps. */
  ghost predicate Refines(c: ClientContext, s: Store, d: DocStore, db: Db)
  {
    DocsHeld(c, d, db) && forall w, k :: k in View(c, s, w) <==> Carries(db, k + 1, w)
  }

  lemma RefinesHolds(c: ClientContext, s: Store, d: DocStore, db: Db)
    requires Refines(c, s, d, db)
    ensures Holds(c, s, d, db)
  {
    hide View, DocsHeld, Carries;
  }

  /** What a request is meant to do: REPLACE of a missing document is refused. */
  function ApplyUpdate(db: Db, req: UpdateRequest): (db': Db)
    ensures 1 <= req.docId <= 10000 && req.op == 1 ==>
      db' == db[req.docId := Slot(TrimNul(if req.flags == 1 then req.index else req.doc), TrimNul(req.doc))]
    ensures 1 <= req.docId <= 10000 && req.op == 2 ==>
      db' == if req.docId !in db then db
             else db[req.docId := Slot(TrimNul(if req.flags == 1 then req.index else req.doc), TrimNul(req.doc))]
    ensures 1 <= req.docId <= 10000 && req.op == 0 ==> db' == db - {req.docId}
    ensures !(1 <= req.docId <= 10000) ==> db' == db
  {
    if !ValidId(req.docId) then db
    else if req.op == OP_DELETE then db - {req.docId}
    else if req.op == OP_REPLACE && req.docId !in db then db
    else db[req.docId := NewSlot(req)]
  }

  /**
   The requests that the enclave carries out as meant: INSERT must not drop keywords of a document
   it overwrites, and REPLACE needs an old index text or nothing new to file.
   */
  predicate Clean(db: Db, req: UpdateRequest)
  {
    var id := req.docId;
    ValidId(id) && req.op != OP_DELETE ==>
      if req.op == OP_REPLACE then
        if id in db then db[id].index != [] || NewWords(req) == [] else NewSlot(req) == EMPTY_SLOT
      else
        id in db ==> forall w :: w in TokensOf(db[id].index) ==> w in NewWords(req)
  }

  lemma NewSlotWords(req: UpdateRequest)
    ensures TokensOf(NewSlot(req).index) == NewWords(req)
  {
    TokensTrim(RawIndex(req));
  }

  lemma ToStringInjective(i: int, j: int)
    requires ToString(i) == ToString(j)
    ensures i == j
  {
    AtoiToString(i);
    AtoiToString(j);
  }

  lemma ContentsSetByNumber(c: ClientContext, d: DocStore, c': ClientContext, d': DocStore, id: int, slot: Slot)
    requires ContentsSet(c, d, c', d', ToString(id), slot)
    ensures forall i :: ValidId(i) ==>
      Contents(c', d', ToString(i)) == if i == id then slot else Contents(c, d, ToString(i))
  {
    hide Contents, ToString;
    forall i | ValidId(i)
      ensures Contents(c', d', ToString(i)) == if i == id then slot else Contents(c, d, ToString(i))
    {
      ValidIdIsKey(i);
      if ToString(i) == ToString(id) {
        ToStringInjective(i, id);
      }
    }
  }

  lemma SameContentsByNumber(c: ClientContext, d: DocStore, c': ClientContext, d': DocStore)
    requires SameContents(c, d, c', d')
    ensures forall i :: ValidId(i) ==> Contents(c', d', ToString(i)) == Contents(c, d, ToString(i))
  {
    hide Contents, ToString;
    forall i | ValidId(i)
      ensures Contents(c', d', ToString(i)) == Contents(c, d, ToString(i))
    {
      ValidIdIsKey(i);
    }
  }

  /** The old words of a slot. */
  lemma OldWordsHeld(c: ClientContext, d: DocStore, db: Db, id: int)
    requires DocsHeld(c, d, db)
    ensures OldWords(c, d, id) == (if id in db then TokensOf(db[id].index) else [])
    ensures AllReal(OldWords(c, d, id))
  {
    hide Contents, ToString, TokensOf, View, Real;
    NoWords();
  }

  /** The old words of a slot under a refined database. */
  lemma OldWordsRefined(c: ClientContext, s: Store, d: DocStore, db: Db, id: int)
    requires Refines(c, s, d, db)
    ensures OldWords(c, d, id) == (if id in db then TokensOf(db[id].index) else [])
    ensures AllReal(OldWords(c, d, id))
  {
    hide DocsHeld, OldWords, AllReal, View;
    OldWordsHeld(c, d, db, id);
  }

  /** What the effects of INSERT and REPLACE come to, in terms of the database before. */
  ghost predicate StoredIn(db: Db, c: ClientContext, s: Store, d: DocStore, req: UpdateRequest)
  {
    var id := req.docId;
    var missed := req.op == OP_REPLACE && (id !in db || db[id].index == []);
    && (forall k :: k in c.allDocs <==> k + 1 in db || (!missed && k + 1 == id))
    && (forall i :: ValidId(i) ==>
          Contents(c, d, ToString(i)) == if i == id then NewSlot(req) else if i in db then db[i] else EMPTY_SLOT)
    && (forall w, k :: k in View(c, s, w) <==>
          if missed || k + 1 != id then Carries(db, k + 1, w)
          else w in NewWords(req) || (req.op != OP_REPLACE && Carries(db, id, w)))
  }

  lemma StoredMeans(c: ClientContext, s: Store, d: DocStore, db: Db, c': ClientContext, s': Store, d': DocStore,
                    req: UpdateRequest, status: UpdateStatus)
    requires Refines(c, s, d, db) && SlotStored(c, d, c', d', req, status) && ValidId(req.docId)
    requires StoreEdited(c, s, d, c', s', req, status)
    ensures StoredIn(db, c', s', d', req)
  {
    hide Contents, ToString, TokensOf, View, NewSlot, NewWords, ContentsSet, AllReal;
    OldWordsRefined(c, s, d, db, req.docId);
    ContentsSetByNumber(c, d, c', d', req.docId, NewSlot(req));
    NoWords();
  }

  /** With the index edited as meant, the enclave stays in step with the database exactly when the request is clean. */
  lemma EditedRefines(c: ClientContext, s: Store, d: DocStore, db: Db, c': ClientContext, s': Store, d': DocStore,
                      req: UpdateRequest, status: UpdateStatus)
    requires Refines(c, s, d, db) && SlotStored(c, d, c', d', req, status) && StoreEdited(c, s, d, c', s', req, status)
    requires req.op != OP_DELETE && AllReal(NewWords(req))
    ensures Refines(c', s', d', ApplyUpdate(db, req)) <==> Clean(db, req)
  {
    hide Contents, ToString, TokensOf, View, NewSlot, NewWords, ContentsSet, AllReal, SlotStored, StoreEdited;
    if !ValidId(req.docId) {
      InvalidStoreRefines(c, s, d, db, c', s', d', req, status);
    } else {
      StoredMeans(c, s, d, db, c', s', d', req, status);
      if Clean(db, req) {
        CleanRefines(db, c', s', d', req);
      } else {
        UncleanDiffers(db, c', s', d', req);
      }
    }
  }

  /**
   From any cache, INSERT and REPLACE keep the enclave in step with the database exactly when the request
   is clean and no touched word that another document carries comes up with the cache empty. Both can be
   checked beforehand; the second is also exactly when the tally of losses stays.
   */
  lemma StoreRefines(c: ClientContext, s: Store, d: DocStore, t: Tally, db: Db,
                     c': ClientContext, s': Store, d': DocStore, t': Tally, req: UpdateRequest, status: UpdateStatus)
    requires Refines(c, s, d, db) && Stored(c, s, d, t, c', s', d', t', req, status) && req.op != OP_DELETE
    requires AllReal(NewWords(req))
    ensures Refines(c', s', d', ApplyUpdate(db, req)) <==> Clean(db, req) && !LosesBit(c, db, req)
    ensures t'.losses == t.losses <==> !LosesBit(c, db, req)
  {
    hide Refines, ApplyUpdate, Clean, ClearedWords, NewWords, AllReal, SlotStored, StoreEdited, StoreReset, OthersLost,
         NoneGained, OthersKept, SameView, OwnEdited, LossAhead, LosesBit, KnownAfterArrival;
    StoreForeseen(c, s, d, t, db, c', s', d', t', req, status);
    if t'.losses == t.losses {
      StoreIndexedEdits(c, s, d, t, c', s', t', req, status);
      EditedRefines(c, s, d, db, c', s', d', req, status);
    } else {
      LostDiffers(c, s, d, db, c', s', d', req, ClearedWords(c, d, req) + NewWords(req));
    }
  }

  lemma StoreForeseen(c: ClientContext, s: Store, d: DocStore, t: Tally, db: Db,
                      c': ClientContext, s': Store, d': DocStore, t': Tally, req: UpdateRequest, status: UpdateStatus)
    requires Refines(c, s, d, db) && Stored(c, s, d, t, c', s', d', t', req, status) && req.op != OP_DELETE
    ensures t'.losses == t.losses <==> !LosesBit(c, db, req)
  {
    hide Refines, ClearedWords, NewWords, StoreReset, Tallied, SameView, OwnEdited, LossAhead, LosesBit,
         KnownAfterArrival, ReplaceMisses, ContentsSet, SameContents, TouchedWords;
    StoreTouches(c, s, d, db, req);
    LossForeseen(c, s, d, db, req);
    NothingLost(c, db, req);
  }

  lemma NothingLost(c: ClientContext, db: Db, req: UpdateRequest)
    ensures TouchedWords(db, req) == [] ==> !LosesBit(c, db, req)
  {
    hide TouchedWords, RunsCold;
  }

  /** A bit of another document that was dropped is missed in the updated database. */
  lemma LostDiffers(c: ClientContext, s: Store, d: DocStore, db: Db, c': ClientContext, s': Store, d': DocStore,
                    req: UpdateRequest, words: seq<Text>)
    requires Refines(c, s, d, db) && OthersLost(c, s, c', s', words, req.docId - 1)
    ensures !Refines(c', s', d', ApplyUpdate(db, req))
  {
    hide DocsHeld, View, TokensOf, NewSlot;
    var w, k :| w in words && k != req.docId - 1 && k in View(c, s, w) && k !in View(c', s', w);
    assert Carries(db, k + 1, w);
    assert Carries(ApplyUpdate(db, req), k + 1, w);
  }

  /** A clean INSERT or REPLACE leaves the right documents, and lists no wrong one, whatever the cache did. */
  lemma StoreHolds(c: ClientContext, s: Store, d: DocStore, t: Tally, db: Db,
                   c': ClientContext, s': Store, d': DocStore, t': Tally, req: UpdateRequest, status: UpdateStatus)
    requires Holds(c, s, d, db) && Stored(c, s, d, t, c', s', d', t', req, status) && req.op != OP_DELETE
    requires AllReal(NewWords(req)) && Clean(db, req)
    ensures Holds(c', s', d', ApplyUpdate(db, req))
  {
    hide DocsHeld, ApplyUpdate, Clean, AllReal, ContentsSet, SameContents, StoreIndexed, StoreReset, View, Carries,
         ReplaceMisses, NewSlot, ToString;
    DocsStored(c, d, db, c', d', req, status);
    ListsStored(c, s, d, t, db, c', s', d', t', req, status);
  }

  lemma DocsStored(c: ClientContext, d: DocStore, db: Db, c': ClientContext, d': DocStore,
                   req: UpdateRequest, status: UpdateStatus)
    requires DocsHeld(c, d, db) && SlotStored(c, d, c', d', req, status) && req.op != OP_DELETE
    requires AllReal(NewWords(req)) && Clean(db, req)
    ensures DocsHeld(c', d', ApplyUpdate(db, req))
  {
    hide Contents, ToString, TokensOf, NewSlot, NewWords, AllReal;
    NewSlotWords(req);
    NoWords();
    if ValidId(req.docId) {
      hide SameContents;
      ContentsSetByNumber(c, d, c', d', req.docId, NewSlot(req));
      hide ContentsSet;
    } else {
      SameContentsByNumber(c, d, c', d');
    }
  }

  lemma ListsStored(c: ClientContext, s: Store, d: DocStore, t: Tally, db: Db,
                    c': ClientContext, s': Store, d': DocStore, t': Tally, req: UpdateRequest, status: UpdateStatus)
    requires Holds(c, s, d, db) && StoreIndexed(c, s, d, t, c', s', t', req, status) && req.op != OP_DELETE
    requires (status.NotFound? <==> ReplaceMisses(c, d, req)) && Clean(db, req)
    ensures forall w, k :: k in View(c', s', w) ==> Carries(ApplyUpdate(db, req), k + 1, w)
  {
    hide Contents, ToString, TokensOf, View, NewSlot, NewWords, AllReal, OthersKept, OthersLost;
    OldWordsHeld(c, d, db, req.docId);
    NewSlotWords(req);
    NoWords();
    forall w, k | k in View(c', s', w)
      ensures Carries(ApplyUpdate(db, req), k + 1, w)
    {
      assert k in View(c, s, w) ==> Carries(db, k + 1, w);
    }
  }

  lemma InvalidStoreRefines(c: ClientContext, s: Store, d: DocStore, db: Db,
                            c': ClientContext, s': Store, d': DocStore, req: UpdateRequest, status: UpdateStatus)
    requires Refines(c, s, d, db) && SlotStored(c, d, c', d', req, status) && !ValidId(req.docId)
    requires StoreEdited(c, s, d, c', s', req, status)
    ensures Refines(c', s', d', db)
  {
    hide Contents, ToString, TokensOf, View, NewSlot, NewWords, AllReal;
    SameContentsByNumber(c, d, c', d');
  }

  lemma CleanRefines(db: Db, c: ClientContext, s: Store, d: DocStore, req: UpdateRequest)
    requires (forall i :: i in db ==> ValidId(i) && AllReal(TokensOf(db[i].index))) && AllReal(NewWords(req))
    requires StoredIn(db, c, s, d, req) && ValidId(req.docId) && req.op != OP_DELETE && Clean(db, req)
    ensures Refines(c, s, d, ApplyUpdate(db, req))
  {
    hide Contents, ToString, TokensOf, View, NewSlot, NewWords, AllReal;
    NewSlotWords(req);
    NoWords();
  }

  lemma UncleanDiffers(db: Db, c: ClientContext, s: Store, d: DocStore, req: UpdateRequest)
    requires StoredIn(db, c, s, d, req) && ValidId(req.docId) && req.op != OP_DELETE && !Clean(db, req)
    ensures !Refines(c, s, d, ApplyUpdate(db, req))
  {
    hide Contents, ToString, TokensOf, View, NewSlot, NewWords, AllReal;
    NewSlotWords(req);
    var id := req.docId;
    if req.op != OP_REPLACE {
      // A keyword of the overwritten document that the new text lacks keeps its bit.
      var w :| w in TokensOf(db[id].index) && w !in NewWords(req);
      assert id - 1 in View(c, s, w);
      assert !Carries(ApplyUpdate(db, req), id, w);
    } else if id in db {
      // The new text was stored but none of its keywords were filed.
      var w := NewWords(req)[0];
      NoWords();
      assert w in NewWords(req);
      assert id - 1 !in View(c, s, w);
      assert Carries(ApplyUpdate(db, req), id, w);
    } else {
      assert Contents(c, d, ToString(id)) == NewSlot(req);
    }
  }

  lemma DeletedRefines(c: ClientContext, s: Store, d: DocStore, db: Db, c': ClientContext, s': Store, d': DocStore,
                       req: UpdateRequest)
    requires Refines(c, s, d, db) && SlotDeleted(c, d, c', d', req.docId) && req.op == OP_DELETE
    requires DeleteEdited(c, s, d, c', s', req.docId)
    ensures Refines(c', s', d', ApplyUpdate(db, req))
  {
    hide Contents, ToString, TokensOf, View, AllReal;
    var id := req.docId;
    OldWordsRefined(c, s, d, db, id);
    if ValidId(id) {
      hide SameContents;
      ContentsSetByNumber(c, d, c', d', id, EMPTY_SLOT);
      hide ContentsSet;
    } else {
      SameContentsByNumber(c, d, c', d');
    }
  }

  /** DELETE does so exactly when no deleted word that another document carries comes up with the cache empty. */
  lemma DeleteRefines(c: ClientContext, s: Store, d: DocStore, t: Tally, db: Db,
                      c': ClientContext, s': Store, d': DocStore, t': Tally, req: UpdateRequest)
    requires Refines(c, s, d, db) && Deleted(c, s, d, t, c', s', d', t', req.docId) && req.op == OP_DELETE
    ensures Refines(c', s', d', ApplyUpdate(db, req)) <==> !LosesBit(c, db, req)
    ensures t'.losses == t.losses <==> !LosesBit(c, db, req)
  {
    hide Refines, ApplyUpdate, OldWords, SlotDeleted, DeleteEdited, DeleteReset, OthersLost, NoneGained, OthersKept,
         SameView, OwnEdited, LossAhead, LosesBit;
    DeleteForeseen(c, s, d, t, db, c', s', d', t', req);
    if t'.losses == t.losses {
      DeleteIndexedEdits(c, s, d, t, c', s', t', req.docId);
      DeletedRefines(c, s, d, db, c', s', d', req);
    } else {
      LostDiffers(c, s, d, db, c', s', d', req, OldWords(c, d, req.docId));
    }
  }

  lemma DeleteForeseen(c: ClientContext, s: Store, d: DocStore, t: Tally, db: Db,
                       c': ClientContext, s': Store, d': DocStore, t': Tally, req: UpdateRequest)
    requires Refines(c, s, d, db) && Deleted(c, s, d, t, c', s', d', t', req.docId) && req.op == OP_DELETE
    ensures t'.losses == t.losses <==> !LosesBit(c, db, req)
  {
    hide Refines, OldWords, SlotDeleted, DeleteReset, Tallied, SameView, OwnEdited, LossAhead, LosesBit;
    OldWordsRefined(c, s, d, db, req.docId);
    LossForeseen(c, s, d, db, req);
    NothingLost(c, db, req);
  }

  /** DELETE leaves the right documents, and lists no wrong one, whatever the cache did. */
  lemma DeleteHolds(c: ClientContext, s: Store, d: DocStore, t: Tally, db: Db,
                    c': ClientContext, s': Store, d': DocStore, t': Tally, req: UpdateRequest)
    requires Holds(c, s, d, db) && Deleted(c, s, d, t, c', s', d', t', req.docId) && req.op == OP_DELETE
    ensures Holds(c', s', d', ApplyUpdate(db, req))
  {
    hide DocsHeld, ApplyUpdate, SlotDeleted, DeleteIndexed, DeleteReset, View, Carries;
    DocsDeleted(c, d, db, c', d', req);
    ListsDeleted(c, s, d, t, db, c', s', t', req);
  }

  lemma DocsDeleted(c: ClientContext, d: DocStore, db: Db, c': ClientContext, d': DocStore, req: UpdateRequest)
    requires DocsHeld(c, d, db) && SlotDeleted(c, d, c', d', req.docId) && req.op == OP_DELETE
    ensures DocsHeld(c', d', ApplyUpdate(db, req))
  {
    hide Contents, ToString, TokensOf, AllReal;
    var id := req.docId;
    if ValidId(id) {
      hide SameContents;
      ContentsSetByNumber(c, d, c', d', id, EMPTY_SLOT);
      hide ContentsSet;
    } else {
      SameContentsByNumber(c, d, c', d');
    }
  }

  lemma ListsDeleted(c: ClientContext, s: Store, d: DocStore, t: Tally, db: Db,
                     c': ClientContext, s': Store, t': Tally, req: UpdateRequest)
    requires Holds(c, s, d, db) && DeleteIndexed(c, s, d, t, c', s', t', req.docId) && req.op == OP_DELETE
    ensures forall w, k :: k in View(c', s', w) ==> Carries(ApplyUpdate(db, req), k + 1, w)
  {
    hide Contents, ToString, TokensOf, View, AllReal, OthersKept, OthersLost, OldWords;
    OldWordsHeld(c, d, db, req.docId);
    forall w, k | k in View(c', s', w)
      ensures Carries(ApplyUpdate(db, req), k + 1, w)
    {
      assert k in View(c, s, w) ==> Carries(db, k + 1, w);
    }
  }

  // ----- updates from an empty keyword cache

  /** The words whose bitmaps an update touches. */
  function TouchedWords(db: Db, req: UpdateRequest): seq<Text>
  {
    var id := req.docId;
    var filed := if id in db then TokensOf(db[id].index) else [];
    if !ValidId(id) then []
    else if req.op == OP_DELETE then filed
    else if req.op != OP_REPLACE then NewWords(req)
    else if id !in db || db[id].index == [] then []
    else filed + NewWords(req)
  }

  /** No other document carries a touched word. */
  predicate Unshared(db: Db, req: UpdateRequest)
  {
    forall w, i :: w in TouchedWords(db, req) && i in db && i != req.docId ==> w !in TokensOf(db[i].index)
  }

  /** Another document carries the word. */
  predicate SharedWord(db: Db, id: int, w: Text)
  {
    exists i :: i in db && i != id && w in TokensOf(db[i].index)
  }

  /** The words the index knows when the update's rounds begin. */
  function KnownThen(c: ClientContext, req: UpdateRequest): set<Text>
  {
    if req.op == OP_DELETE then c.KVS.Keys else KnownAfterArrival(c)
  }

  /**
   What the code does wrong from a cache that is not full, seen from before the call: some touched word
   comes up after all cached words have had their rounds, and another document carries it.
   */
  predicate LosesBit(c: ClientContext, db: Db, req: UpdateRequest)
  {
    var words := TouchedWords(db, req);
    exists j :: 0 <= j < |words| && SharedWord(db, req.docId, words[j])
             && RunsCold(c.CK.Keys, KnownThen(c, req), c.ckMax, words[..j])
  }

  lemma SharedView(c: ClientContext, s: Store, d: DocStore, db: Db, id: int, w: Text)
    requires Refines(c, s, d, db)
    ensures View(c, s, w) <= {id - 1} <==> !SharedWord(db, id, w)
  {
    hide DocsHeld, TokensOf, View;
    if SharedWord(db, id, w) {
      var i :| i in db && i != id && w in TokensOf(db[i].index);
      assert Carries(db, i - 1 + 1, w);
      assert i - 1 in View(c, s, w);
    } else {
      forall k | k in View(c, s, w)
        ensures k == id - 1
      {
        assert Carries(db, k + 1, w);
      }
    }
  }

  lemma LossForeseen(c: ClientContext, s: Store, d: DocStore, db: Db, req: UpdateRequest)
    requires Refines(c, s, d, db)
    ensures LossAhead(c, s, KnownThen(c, req), TouchedWords(db, req), req.docId - 1) <==> LosesBit(c, db, req)
  {
    hide Refines, TouchedWords, KnownThen, RunsCold, View, SharedWord;
    var words := TouchedWords(db, req);
    forall j | 0 <= j < |words|
      ensures LossAt(c, s, KnownThen(c, req), words, j, req.docId - 1) <==>
        SharedWord(db, req.docId, words[j]) && RunsCold(c.CK.Keys, KnownThen(c, req), c.ckMax, words[..j])
    {
      SharedView(c, s, d, db, req.docId, words[j]);
    }
    hide LossAt;
  }

  /** From an empty cache any shared word is lost. */
  lemma EmptyLosesShared(c: ClientContext, db: Db, req: UpdateRequest)
    requires |c.CK| == 0 && c.ckMax >= 1
    ensures LosesBit(c, db, req) <==> !Unshared(db, req)
  {
    hide TouchedWords, TokensOf, KnownThen;
    var words := TouchedWords(db, req);
    assert c.CK.Keys == {};
    forall j | 0 <= j < |words|
      ensures RunsCold(c.CK.Keys, KnownThen(c, req), c.ckMax, words[..j])
    {
    }
    hide RunsCold;
    forall j | 0 <= j < |words| && SharedWord(db, req.docId, words[j])
      ensures !Unshared(db, req)
    {
      assert words[j] in words;
    }
    if !Unshared(db, req) {
      var w, i :| w in words && i in db && i != req.docId && w in TokensOf(db[i].index);
      var j :| 0 <= j < |words| && words[j] == w;
      assert SharedWord(db, req.docId, words[j]) && RunsCold(c.CK.Keys, KnownThen(c, req), c.ckMax, words[..j]);
    }
  }

  /** Under that condition, starting a bitmap over is the same as editing one bit of it. */
  lemma ResetIsEdit(c: ClientContext, s: Store, c': ClientContext, s': Store, del: seq<Text>, add: seq<Text>, bit: int)
    requires IndexReset(c, s, c', s', del, add, bit)
    requires forall w :: w in del || w in add ==> View(c, s, w) <= {bit}
    ensures IndexEdited(c, s, c', s', del, add, bit)
  {
    hide View;
    forall w
      ensures View(c', s', w) == Edit(View(c, s, w), w in del, w in add, bit)
    {
      if w in del || w in add {
        assert View(c, s, w) <= {bit};
      }
    }
  }

  /** Only this document's bit can be set in an unshared word. */
  lemma UnsharedView(c: ClientContext, s: Store, d: DocStore, db: Db, req: UpdateRequest, w: Text)
    requires Refines(c, s, d, db) && Unshared(db, req) && w in TouchedWords(db, req)
    ensures View(c, s, w) <= {req.docId - 1}
  {
    hide Contents, ToString, TokensOf, View, AllReal, TouchedWords;
    forall k | k in View(c, s, w)
      ensures k == req.docId - 1
    {
      assert Carries(db, k + 1, w);
    }
  }

  /** If no other document carries a touched word, no other document's bit can be dropped. */
  lemma UnsharedNotLost(c: ClientContext, s: Store, d: DocStore, db: Db, c': ClientContext, s': Store,
                        req: UpdateRequest, words: seq<Text>)
    requires Refines(c, s, d, db) && Unshared(db, req) && forall w :: w in words ==> w in TouchedWords(db, req)
    ensures !OthersLost(c, s, c', s', words, req.docId - 1)
  {
    hide Refines, View, Unshared, TouchedWords;
    forall w | w in words
      ensures View(c, s, w) <= {req.docId - 1}
    {
      UnsharedView(c, s, d, db, req, w);
    }
  }

  /** Then no round of INSERT, REPLACE or DELETE counts as a loss, from any cache. */
  lemma UnsharedStoreKeeps(c: ClientContext, s: Store, d: DocStore, t: Tally, db: Db,
                           c': ClientContext, s': Store, d': DocStore, t': Tally, req: UpdateRequest,
                           status: UpdateStatus)
    requires Refines(c, s, d, db) && Stored(c, s, d, t, c', s', d', t', req, status) && req.op != OP_DELETE
    requires Unshared(db, req)
    ensures t'.losses == t.losses
  {
    hide Refines, ClearedWords, NewWords, StoreReset, OthersLost, NoneGained, OthersKept, SameView, OwnEdited, Unshared,
         TouchedWords, ReplaceMisses, ContentsSet, SameContents;
    StoreTouches(c, s, d, db, req);
    if ValidId(req.docId) && !status.NotFound? {
      UnsharedNotLost(c, s, d, db, c', s', req, ClearedWords(c, d, req) + NewWords(req));
    }
  }

  lemma UnsharedDeleteKeeps(c: ClientContext, s: Store, d: DocStore, t: Tally, db: Db,
                            c': ClientContext, s': Store, d': DocStore, t': Tally, req: UpdateRequest)
    requires Refines(c, s, d, db) && Deleted(c, s, d, t, c', s', d', t', req.docId) && req.op == OP_DELETE
    requires Unshared(db, req)
    ensures t'.losses == t.losses
  {
    hide Refines, OldWords, SlotDeleted, DeleteReset, OthersLost, NoneGained, OthersKept, SameView, OwnEdited, Unshared;
    OldWordsRefined(c, s, d, db, req.docId);
    if ValidId(req.docId) {
      UnsharedNotLost(c, s, d, db, c', s', req, OldWords(c, d, req.docId));
    }
  }

  /** A bitmap that started over has lost the bit of any other document that carries the word. */
  lemma SharedLost(c: ClientContext, s: Store, d: DocStore, db: Db, c': ClientContext, s': Store, d': DocStore,
                   req: UpdateRequest, del: seq<Text>, add: seq<Text>)
    requires IndexReset(c, s, c', s', del, add, req.docId - 1) && !Unshared(db, req) && ValidId(req.docId)
    requires forall w :: w in TouchedWords(db, req) ==> w in del || w in add
    ensures !Refines(c', s', d', ApplyUpdate(db, req))
  {
    hide Contents, ToString, TokensOf, View, AllReal, TouchedWords, NewSlot;
    var w, i :| w in TouchedWords(db, req) && i in db && i != req.docId && w in TokensOf(db[i].index);
    assert i - 1 !in View(c', s', w);
    assert Carries(ApplyUpdate(db, req), i, w);
  }

  lemma StoreTouches(c: ClientContext, s: Store, d: DocStore, db: Db, req: UpdateRequest)
    requires Refines(c, s, d, db) && req.op != OP_DELETE
    ensures ValidId(req.docId) && !ReplaceMisses(c, d, req) ==>
      TouchedWords(db, req) == ClearedWords(c, d, req) + NewWords(req)
    ensures !ValidId(req.docId) || ReplaceMisses(c, d, req) ==> TouchedWords(db, req) == []
  {
    hide DocsHeld, TouchedWords, ClearedWords, NewWords, View, ReplaceMisses;
    HeldTouches(c, d, db, req);
  }

  lemma HeldTouches(c: ClientContext, d: DocStore, db: Db, req: UpdateRequest)
    requires DocsHeld(c, d, db)
    ensures req.op != OP_DELETE ==>
      TouchedWords(db, req) ==
        if ValidId(req.docId) && !ReplaceMisses(c, d, req) then ClearedWords(c, d, req) + NewWords(req) else []
    ensures req.op == OP_DELETE ==> TouchedWords(db, req) == OldWords(c, d, req.docId)
  {
    hide Contents, ToString, TokensOf, NewWords, AllReal;
    OldWordsHeld(c, d, db, req.docId);
    NoWords();
    assert [] + NewWords(req) == NewWords(req);
  }

  /**
   From an empty keyword cache INSERT and REPLACE keep the enclave in step with the database exactly
   when the request is clean and no other document carries a word it touches.
   */
  lemma ColdStoreRefines(c: ClientContext, s: Store, d: DocStore, db: Db, c': ClientContext, s': Store, d': DocStore,
                         req: UpdateRequest, status: UpdateStatus)
    requires Refines(c, s, d, db) && SlotStored(c, d, c', d', req, status) && StoreReset(c, s, d, c', s', req, status)
    requires req.op != OP_DELETE && AllReal(NewWords(req))
    ensures Refines(c', s', d', ApplyUpdate(db, req)) <==> Clean(db, req) && Unshared(db, req)
  {
    hide Refines, ApplyUpdate, Clean, ClearedWords, NewWords, AllReal, ReplaceMisses, SameView, IndexEdited, IndexReset,
         TouchedWords, Unshared, View, ContentsSet, SameContents;
    StoreTouches(c, s, d, db, req);
    var del, add := ClearedWords(c, d, req), NewWords(req);
    if !ValidId(req.docId) || status.NotFound? {
      NothingTouched(db, req);
      EditedRefines(c, s, d, db, c', s', d', req, status);
    } else if Unshared(db, req) {
      forall w | w in del || w in add
        ensures View(c, s, w) <= {req.docId - 1}
      {
        UnsharedView(c, s, d, db, req, w);
      }
      ResetIsEdit(c, s, c', s', del, add, req.docId - 1);
      EditedRefines(c, s, d, db, c', s', d', req, status);
    } else {
      SharedLost(c, s, d, db, c', s', d', req, del, add);
    }
  }

  lemma NothingTouched(db: Db, req: UpdateRequest)
    requires TouchedWords(db, req) == []
    ensures Unshared(db, req)
  {
    hide TouchedWords;
  }

  /** From an empty keyword cache DELETE does so exactly when no other document carries a deleted word. */
  lemma ColdDeleteRefines(c: ClientContext, s: Store, d: DocStore, db: Db, c': ClientContext, s': Store, d': DocStore,
                          req: UpdateRequest)
    requires Refines(c, s, d, db) && SlotDeleted(c, d, c', d', req.docId) && DeleteReset(c, s, d, c', s', req.docId)
    requires req.op == OP_DELETE
    ensures Refines(c', s', d', ApplyUpdate(db, req)) <==> Unshared(db, req)
  {
    hide Refines, ApplyUpdate, AllReal, SameView, IndexEdited, IndexReset, Unshared, View, ContentsSet, SameContents,
         OldWords;
    OldWordsRefined(c, s, d, db, req.docId);
    var del := OldWords(c, d, req.docId);
    if !ValidId(req.docId) {
      NothingTouched(db, req);
      DeletedRefines(c, s, d, db, c', s', d', req);
    } else if Unshared(db, req) {
      forall w | w in del || w in []
        ensures View(c, s, w) <= {req.docId - 1}
      {
        UnsharedView(c, s, d, db, req, w);
      }
      ResetIsEdit(c, s, c', s', del, [], req.docId - 1);
      DeletedRefines(c, s, d, db, c', s', d', req);
    } else {
      SharedLost(c, s, d, db, c', s', d', req, del, []);
    }
  }

  /** Queries keep the enclave in step with the database. */
  lemma QueryRefines(c: ClientContext, s: Store, d: DocStore, db: Db, c': ClientContext, s': Store, d': DocStore)
    requires Refines(c, s, d, db) && Queried(c, s, d, c', s', d')
    ensures Refines(c', s', d', db)
  {
    hide Contents, ToString, TokensOf, View, AllReal, IndexInv, DocInv, Fresh, NoOverwrite, VersionsKept;
    SameContentsByNumber(c, d, c', d');
  }

  /** A database just created is the empty map. */
  lemma FreshRefines(c: ClientContext, s: Store, d: DocStore)
    requires c.allDocs == {} && (forall w :: View(c, s, w) == {})
    requires forall id :: DocKey(id) ==> Contents(c, d, id) == EMPTY_SLOT
    ensures Refines(c, s, d, map[])
  {
    hide Contents, ToString, View;
    forall i | ValidId(i)
      ensures Contents(c, d, ToString(i)) == EMPTY_SLOT
    {
      ValidIdIsKey(i);
    }
  }

  // ----- queries on the database

  /** The live documents up to n that satisfy an expression, ascending. */
  function MatchIds(db: Db, e: Source, n: nat): seq<int>
  {
    if n == 0 then []
    else MatchIds(db, e, n - 1) + (if n in db && Satisfies(e, TokensOf(db[n].index)) then [n] else [])
  }

  function Cut(ids: seq<int>, limit: int): seq<int>
  {
    if 0 <= limit < |ids| then ids[..limit] else ids
  }

  /** The rows of the given documents. */
  function DbRows(db: Db, ids: seq<int>): seq<Row>
    requires forall i :: i in ids ==> i in db
  {
    if ids == [] then []
    else
      var n := |ids| - 1;
      var last := ids[n];
      assert last in ids;
      DbRows(db, ids[..n]) + [(last, db[last].body)]
  }

  lemma {:induction false} MatchIdsLive(db: Db, e: Source, n: nat)
    ensures forall i :: i in MatchIds(db, e, n) <==> 0 < i <= n && i in db && Satisfies(e, TokensOf(db[i].index))
  {
    hide Satisfies, TokensOf;
    if n > 0 {
      MatchIdsLive(db, e, n - 1);
    }
  }

  /** The answer to a query, computed on the database alone. */
  function DbReply(db: Db, e: Source, kind: int, limit: int): SelectReply
  {
    MatchIdsLive(db, e, TOTAL_FILE_NO);
    var ids := MatchIds(db, e, TOTAL_FILE_NO);
    if 1 <= kind <= 4 then Aggregate(|ids|, AggregateValue(kind, ids))
    else if kind == 0 then Rows(DbRows(db, Cut(ids, limit)))
    else Rows(DbRows(db, ids))
  }

  lemma {:induction false} IdsAreMatches(bits: Bitmap, db: Db, e: Source, n: nat)
    requires forall k :: 0 <= k < n ==> (k in bits <==> k + 1 in db && Satisfies(e, TokensOf(db[k + 1].index)))
    ensures Ids(bits, n) == MatchIds(db, e, n)
  {
    hide Satisfies, TokensOf;
    if n > 0 {
      IdsAreMatches(bits, db, e, n - 1);
    }
  }

  lemma {:induction false} RowsAreDbRows(c: ClientContext, s: Store, d: DocStore, db: Db, ids: seq<int>)
    requires Refines(c, s, d, db) && forall i :: i in ids ==> i in db
    ensures RowsOf(c, d, Names(ids)) == DbRows(db, ids)
  {
    hide Contents, View, ToString, Refines;
    if ids != [] {
      var n := |ids| - 1;
      assert ids[n] in ids;
      assert forall i :: i in ids[..n] ==> i in ids;
      RowsAreDbRows(c, s, d, db, ids[..n]);
      assert Names(ids)[..n] == Names(ids[..n]);
      ContentsRefined(c, s, d, db, ids[n]);
    }
  }

  lemma ContentsRefined(c: ClientContext, s: Store, d: DocStore, db: Db, i: int)
    requires Refines(c, s, d, db) && i in db
    ensures Contents(c, d, ToString(i)) == db[i] && Atoi(ToString(i)) == i
  {
    hide Contents, View, TokensOf, ToString, AllReal;
    ValidIdIsKey(i);
  }

  /** Under a refined database, keyword bitmaps and live set give an expression its meaning document by document. */
  lemma MeaningRefined(c: ClientContext, s: Store, d: DocStore, db: Db, root: Ast, keywords: seq<Text>)
    requires Refines(c, s, d, db) && InRange(root, |keywords|)
    ensures Ids(Meaning(root, MakeTerms(keywords), ViewOf(c, s), c.allDocs), TOTAL_FILE_NO)
         == MatchIds(db, Named(root, keywords), TOTAL_FILE_NO)
  {
    hide Contents, View, ToString, AllReal, Satisfies, Meaning, TokensOf;
    var bits := Meaning(root, MakeTerms(keywords), ViewOf(c, s), c.allDocs);
    forall k | 0 <= k < TOTAL_FILE_NO
      ensures k in bits <==> k + 1 in db && Satisfies(Named(root, keywords), TokensOf(db[k + 1].index))
    {
      var words := if k + 1 in db then TokensOf(db[k + 1].index) else [];
      forall w
        ensures k in ViewOf(c, s)(w) <==> k in c.allDocs && w in words
      {
        assert k in View(c, s, w) <==> Carries(db, k + 1, w);
      }
      MeaningIsSatisfaction(root, keywords, ViewOf(c, s), c.allDocs, k, words);
    }
    IdsAreMatches(bits, db, Named(root, keywords), TOTAL_FILE_NO);
  }

  /** A compiled query never faults. */
  lemma CompiledRuns(c: ClientContext, s: Store, root: Ast, keywords: seq<Text>)
    requires InRange(root, |keywords|) && |keywords| <= MAX_TERMS
    ensures var r := Run(Encode(root), MakeTerms(keywords), ViewOf(c, s), c.allDocs, []); r.Stack? && |r.bitmaps| == 1
  {
    hide Run, Meaning, Encode, View;
    RunCompiled(root, MakeTerms(keywords), ViewOf(c, s), c.allDocs);
  }

  /** A compiled query never faults, and its reply is the one computed on the database alone. */
  lemma ReplyRefined(c: ClientContext, s: Store, d: DocStore, db: Db, root: Ast, keywords: seq<Text>, kind: int)
    requires Refines(c, s, d, db) && InRange(root, |keywords|) && |keywords| <= MAX_TERMS && 0 <= kind <= 4
    ensures var req := SelectRequest(MakeTerms(keywords), Encode(root), kind);
            var r := Run(req.code, req.terms, ViewOf(c, s), c.allDocs, []);
            && r.Stack? && |r.bitmaps| == 1
            && ReplyFor(c, d, kind, Matches(c, s, req)) == DbReply(db, Named(root, keywords), kind, c.retrievalLimit)
  {
    hide Refines, Run, Meaning, MatchIds, Ids, RowsOf, DbRows, AggregateValue, Satisfies, TokensOf, Encode, View;
    var terms := MakeTerms(keywords);
    RunCompiled(root, terms, ViewOf(c, s), c.allDocs);
    MeaningRefined(c, s, d, db, root, keywords);
    var ids := MatchIds(db, Named(root, keywords), TOTAL_FILE_NO);
    MatchIdsLive(db, Named(root, keywords), TOTAL_FILE_NO);
    var shown := if kind == 0 then Cut(ids, c.retrievalLimit) else ids;
    assert forall i :: i in shown ==> i in ids;
    RowsAreDbRows(c, s, d, db, shown);
  }

  /**
   The whole way from query text to reply: an expression written out, tokenized, parsed, compiled and run
   is answered with what it means on the plain map.
   */
  lemma TextAnswered(c: ClientContext, s: Store, d: DocStore, db: Db, fold: bool, e: Source, kind: int,
                     terms: seq<Text>)
    requires Refines(c, s, d, db) && Printable(fold, e) && Lexable(e) && 0 <= kind <= 4
    requires |Number(e, []).keywords| <= MAX_TERMS && TermsFor(terms, Number(e, []).keywords)
    ensures var tokens := Lex(Render(Print(Disjunct, e)), []);
            var p := ParseExpr(fold, tokens, 0, []);
            && p.Parsed? && p.pos == |tokens|
            && var req := SelectRequest(terms, Encode(p.node), kind);
               var r := Run(req.code, req.terms, ViewOf(c, s), c.allDocs, []);
               && r.Stack? && |r.bitmaps| == 1
               && ReplyFor(c, d, kind, Matches(c, s, req)) == DbReply(db, e, kind, c.retrievalLimit)
  {
    hide Refines, Run, Encode, View, Lex, Render, Print, ParseExpr, Number, Named, Printable, Lexable, Matches,
         ReplyFor, DbReply;
    var printed := Print(Disjunct, e);
    PrintedTokens(Disjunct, e);
    LexRender(printed);
    ParsePrinted(fold, e, [], []);
    assert printed + [] == printed;
    var n := Number(e, []);
    assert terms == MakeTerms(n.keywords);
    ReplyRefined(c, s, d, db, n.node, n.keywords, kind);
  }
}
