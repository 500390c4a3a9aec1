/**
 What a database really keeps under any updates: slots, live set and filed keywords, each on its own. The
 plain map is the special case in which the live documents are filed under exactly their own keywords.
 */
module Archives {
  import opened Bytes
  import opened BitPack
  import opened Labels
  import opened Context
  import opened Tokens
  import opened IndexModel
  import opened ColdRounds
  import opened KeywordUpdates
  import opened DocModel
  import opened DocAccess
  import opened Query
  import opened QueryCode
  import opened Select
  import opened Update
  import opened Database

  datatype Archive = Archive(slots: map<int, Slot>, live: set<int>, filed: map<int, set<Text>>)

  /** The archive of a database just opened. */
  const EMPTY_ARCHIVE: Archive := Archive(map[], {}, map[])

  function SlotOf(a: Archive, i: int): Slot
  {
    if i in a.slots then a.slots[i] else EMPTY_SLOT
  }

  /** The keywords that a document is filed under. */
  function FiledUnder(a: Archive, i: int): set<Text>
  {
    if i in a.filed then a.filed[i] else {}
  }

  /** The keywords of the text in a slot. */
  function SlotWords(a: Archive, id: int): seq<Text>
  {
    if ValidId(id) then TokensOf(SlotOf(a, id).index) else []
  }

  /** REPLACE of a slot without index text stops after the slot write. */
  predicate Misses(a: Archive, req: UpdateRequest)
  {
    req.op == OP_REPLACE && (ValidId(req.docId) ==> SlotOf(a, req.docId).index == [])
  }

  /** The words that are cleared, then those that are filed. */
  function Cleared(a: Archive, req: UpdateRequest): seq<Text>
  {
    if req.op == OP_DELETE || req.op == OP_REPLACE then SlotWords(a, req.docId) else []
  }

  function Filed(req: UpdateRequest): seq<Text>
  {
    if req.op == OP_DELETE then [] else NewWords(req)
  }

  /** What an update does while it drops no other document's bit. */
  function Updated(a: Archive, req: UpdateRequest): Archive
  {
    var id := req.docId;
    if !ValidId(id) then a
    else
      var slots := a.slots[id := if req.op == OP_DELETE then EMPTY_SLOT else NewSlot(req)];
      if Misses(a, req) then a.(slots := slots)
      else
        Archive(slots, if req.op == OP_DELETE then a.live - {id} else a.live + {id},
                a.filed[id := FiledUnder(a, id) - WordSet(Cleared(a, req)) + WordSet(Filed(req))])
  }

  /** The words of an update's keyword rounds, in order. */
  function Rounds(a: Archive, req: UpdateRequest): seq<Text>
  {
    if ValidId(req.docId) && !Misses(a, req) then Cleared(a, req) + Filed(req) else []
  }

  /** Another document is filed under the word. */
  predicate AlsoFiled(a: Archive, id: int, w: Text)
  {
    exists i :: i in a.filed && i != id && w in a.filed[i]
  }

  /** No other document is filed under any word of the update. */
  predicate Alone(a: Archive, req: UpdateRequest)
  {
    forall w :: w in Rounds(a, req) ==> !AlsoFiled(a, req.docId, w)
  }

  /** Some word comes up after all cached words have had their rounds, and another document is filed under it. */
  predicate Drops(c: ClientContext, a: Archive, req: UpdateRequest)
  {
    var words := Rounds(a, req);
    exists j :: 0 <= j < |words| && AlsoFiled(a, req.docId, words[j])
             && RunsCold(c.CK.Keys, KnownThen(c, req), c.ckMax, words[..j])
  }

  // ----- the enclave against an archive

  /** Live set and slot contents are the archive's. */
  ghost predicate SlotsHeld(c: ClientContext, d: DocStore, a: Archive)
  {
    && (forall i :: ValidId(i) ==> Contents(c, d, ToString(i)) == SlotOf(a, i) && AllReal(TokensOf(SlotOf(a, i).index)))
    && (forall k :: k in c.allDocs <==> k + 1 in a.live)
  }

  /** Besides, no keyword lists a document that is not filed under it. */
  ghost predicate Covers(c: ClientContext, s: Store, d: DocStore, a: Archive)
  {
    SlotsHeld(c, d, a) && forall w, k :: k in View(c, s, w) ==> w in FiledUnder(a, k + 1)
  }

  /** The enclave and its host hold exactly this archive. */
  ghost predicate Mirrors(c: ClientContext, s: Store, d: DocStore, a: Archive)
  {
    SlotsHeld(c, d, a) && forall w, k :: k in View(c, s, w) <==> w in FiledUnder(a, k + 1)
  }

  lemma MirrorsCovers(c: ClientContext, s: Store, d: DocStore, a: Archive)
    requires Mirrors(c, s, d, a)
    ensures Covers(c, s, d, a)
  {
    hide SlotsHeld, View, FiledUnder;
  }

  /** The archive's words are those that the update finds in the slot. */
  lemma WordsHeld(c: ClientContext, d: DocStore, a: Archive, req: UpdateRequest)
    requires SlotsHeld(c, d, a)
    ensures OldWords(c, d, req.docId) == SlotWords(a, req.docId) && AllReal(SlotWords(a, req.docId))
    ensures req.op != OP_DELETE ==> ClearedWords(c, d, req) == Cleared(a, req) && AllReal(Cleared(a, req))
    ensures ReplaceMisses(c, d, req) <==> Misses(a, req)
  {
    hide Contents, ToString, TokensOf;
    EmptyReal();
  }

  lemma SlotsStored(c: ClientContext, d: DocStore, a: Archive, c': ClientContext, d': DocStore,
                    req: UpdateRequest, status: UpdateStatus)
    requires SlotsHeld(c, d, a) && SlotStored(c, d, c', d', req, status)
    requires req.op != OP_DELETE && AllReal(NewWords(req))
    ensures SlotsHeld(c', d', Updated(a, req))
  {
    hide Contents, ToString, TokensOf, NewSlot, NewWords, AllReal, WordSet, FiledUnder, ReplaceMisses, Misses, Cleared;
    NewSlotWords(req);
    WordsHeld(c, d, a, req);
    if ValidId(req.docId) {
      hide SameContents;
      ContentsSetByNumber(c, d, c', d', req.docId, NewSlot(req));
      hide ContentsSet;
    } else {
      SameContentsByNumber(c, d, c', d');
    }
  }

  lemma SlotsDeleted(c: ClientContext, d: DocStore, a: Archive, c': ClientContext, d': DocStore, req: UpdateRequest)
    requires SlotsHeld(c, d, a) && SlotDeleted(c, d, c', d', req.docId) && req.op == OP_DELETE
    ensures SlotsHeld(c', d', Updated(a, req))
  {
    hide Contents, ToString, TokensOf, AllReal, WordSet, FiledUnder, Cleared;
    NoWords();
    EmptyReal();
    if ValidId(req.docId) {
      hide SameContents;
      ContentsSetByNumber(c, d, c', d', req.docId, EMPTY_SLOT);
      hide ContentsSet;
    } else {
      SameContentsByNumber(c, d, c', d');
    }
  }

  /** What INSERT, REPLACE and DELETE do to the index, in terms of the archive. */
  ghost predicate Filing(c: ClientContext, s: Store, t: Tally, c': ClientContext, s': Store, t': Tally,
                         a: Archive, req: UpdateRequest)
  {
    if ValidId(req.docId) && !Misses(a, req) then
      && OwnEdited(c, s, c', s', Cleared(a, req), Filed(req), req.docId - 1)
      && Tallied(c, s, t, c', s', t', Rounds(a, req), req.docId - 1)
      && (t'.losses == t.losses <==> !LossAhead(c, s, KnownThen(c, req), Rounds(a, req), req.docId - 1))
    else SameView(c, s, c', s') && t'.losses == t.losses
  }

  lemma StoreFiles(c: ClientContext, s: Store, d: DocStore, t: Tally, a: Archive,
                   c': ClientContext, s': Store, d': DocStore, t': Tally, req: UpdateRequest, status: UpdateStatus)
    requires SlotsHeld(c, d, a) && Stored(c, s, d, t, c', s', d', t', req, status) && req.op != OP_DELETE
    ensures Filing(c, s, t, c', s', t', a, req)
  {
    hide SlotsHeld, OwnEdited, Tallied, LossAhead, SameView, ClearedWords, NewWords, Misses, Cleared, ReplaceMisses,
         KnownAfterArrival, ContentsSet, SameContents, StoreReset;
    WordsHeld(c, d, a, req);
  }

  lemma DeleteFiles(c: ClientContext, s: Store, d: DocStore, t: Tally, a: Archive,
                    c': ClientContext, s': Store, d': DocStore, t': Tally, req: UpdateRequest)
    requires SlotsHeld(c, d, a) && Deleted(c, s, d, t, c', s', d', t', req.docId) && req.op == OP_DELETE
    ensures Filing(c, s, t, c', s', t', a, req)
  {
    hide SlotsHeld, OwnEdited, Tallied, LossAhead, SameView, OldWords, SlotWords, SlotDeleted, DeleteReset;
    WordsHeld(c, d, a, req);
    assert SlotWords(a, req.docId) + [] == SlotWords(a, req.docId);
  }

  /** Whatever was dropped, nothing is listed that is not filed. */
  lemma FilingCovers(c: ClientContext, s: Store, d: DocStore, t: Tally, a: Archive,
                     c': ClientContext, s': Store, d': DocStore, t': Tally, req: UpdateRequest)
    requires Covers(c, s, d, a) && Filing(c, s, t, c', s', t', a, req) && SlotsHeld(c', d', Updated(a, req))
    ensures Covers(c', s', d', Updated(a, req))
  {
    hide SlotsHeld, View, Cleared, Misses, LossAhead, OthersKept, OthersLost, NewSlot, NewWords;
    forall w, k | k in View(c', s', w)
      ensures w in FiledUnder(Updated(a, req), k + 1)
    {
      assert k in View(c, s, w) ==> w in FiledUnder(a, k + 1);
    }
  }

  /** The enclave keeps mirroring the archive exactly if no bit was dropped, which can be foreseen. */
  lemma FilingMirrors(c: ClientContext, s: Store, d: DocStore, t: Tally, a: Archive,
                      c': ClientContext, s': Store, d': DocStore, t': Tally, req: UpdateRequest)
    requires Mirrors(c, s, d, a) && Filing(c, s, t, c', s', t', a, req) && SlotsHeld(c', d', Updated(a, req))
    ensures Mirrors(c', s', d', Updated(a, req)) <==> t'.losses == t.losses
    ensures t'.losses == t.losses <==> !Drops(c, a, req)
  {
    hide SlotsHeld, View, Cleared, Misses, LossAhead, NewSlot, NewWords, Drops, RunsCold, KnownThen, Rounds, Filed,
         FiledUnder;
    DropsForeseen(c, s, d, a, req);
    if !(ValidId(req.docId) && !Misses(a, req)) {
      FiledSame(a, req);
    } else {
      FiledAfter(a, req);
      if t'.losses == t.losses {
        KeptMirrors(c, s, c', s', a, req);
      } else {
        var w, k :| w in Rounds(a, req) && k != req.docId - 1 && k in View(c, s, w) && k !in View(c', s', w);
        assert w in FiledUnder(a, k + 1);
      }
    }
  }

  lemma FiledSame(a: Archive, req: UpdateRequest)
    requires !ValidId(req.docId) || Misses(a, req)
    ensures Updated(a, req).filed == a.filed && Rounds(a, req) == []
    ensures forall i :: FiledUnder(Updated(a, req), i) == FiledUnder(a, i)
  {
  }

  lemma FiledAfter(a: Archive, req: UpdateRequest)
    requires ValidId(req.docId) && !Misses(a, req)
    ensures FiledUnder(Updated(a, req), req.docId) ==
      FiledUnder(a, req.docId) - WordSet(Cleared(a, req)) + WordSet(Filed(req))
    ensures forall i :: i != req.docId ==> FiledUnder(Updated(a, req), i) == FiledUnder(a, i)
  {
    hide Cleared, Filed, WordSet;
  }

  lemma KeptMirrors(c: ClientContext, s: Store, c': ClientContext, s': Store, a: Archive, req: UpdateRequest)
    requires forall w, k :: k in View(c, s, w) <==> w in FiledUnder(a, k + 1)
    requires ValidId(req.docId) && !Misses(a, req) && OthersKept(c, s, c', s', req.docId - 1)
    requires OwnEdited(c, s, c', s', Cleared(a, req), Filed(req), req.docId - 1)
    ensures forall w, k :: k in View(c', s', w) <==> w in FiledUnder(Updated(a, req), k + 1)
  {
    hide View, Cleared, Misses, Filed, Updated, FiledUnder;
    FiledAfter(a, req);
    forall w, k
      ensures k in View(c', s', w) <==> w in FiledUnder(Updated(a, req), k + 1)
    {
      assert k in View(c, s, w) <==> w in FiledUnder(a, k + 1);
    }
  }

  lemma AlsoListed(c: ClientContext, s: Store, d: DocStore, a: Archive, id: int, w: Text)
    requires Mirrors(c, s, d, a)
    ensures View(c, s, w) <= {id - 1} <==> !AlsoFiled(a, id, w)
  {
    hide SlotsHeld, View;
    if AlsoFiled(a, id, w) {
      var i :| i in a.filed && i != id && w in a.filed[i];
      assert w in FiledUnder(a, i - 1 + 1);
      assert i - 1 in View(c, s, w);
    } else {
      forall k | k in View(c, s, w)
        ensures k == id - 1
      {
        assert w in FiledUnder(a, k + 1);
      }
    }
  }

  lemma DropsForeseen(c: ClientContext, s: Store, d: DocStore, a: Archive, req: UpdateRequest)
    requires Mirrors(c, s, d, a)
    ensures LossAhead(c, s, KnownThen(c, req), Rounds(a, req), req.docId - 1) <==> Drops(c, a, req)
    ensures Rounds(a, req) == [] ==> !Drops(c, a, req)
  {
    hide Mirrors, Rounds, KnownThen, RunsCold, View, AlsoFiled;
    var words := Rounds(a, req);
    forall j | 0 <= j < |words|
      ensures LossAt(c, s, KnownThen(c, req), words, j, req.docId - 1) <==>
        AlsoFiled(a, req.docId, words[j]) && RunsCold(c.CK.Keys, KnownThen(c, req), c.ckMax, words[..j])
    {
      AlsoListed(c, s, d, a, req.docId, words[j]);
    }
    hide LossAt;
  }

  /** An update of words that no other document is filed under drops nothing; from an empty cache, only such a one. */
  lemma AloneDropsNothing(c: ClientContext, a: Archive, req: UpdateRequest)
    ensures Alone(a, req) ==> !Drops(c, a, req)
    ensures |c.CK| == 0 && c.ckMax >= 1 ==> (Drops(c, a, req) <==> !Alone(a, req))
  {
    hide Rounds, AlsoFiled, KnownThen;
    var words := Rounds(a, req);
    if |c.CK| == 0 && c.ckMax >= 1 {
      assert c.CK.Keys == {};
      if !Alone(a, req) {
        var w :| w in words && AlsoFiled(a, req.docId, w);
        var j :| 0 <= j < |words| && words[j] == w;
        assert AlsoFiled(a, req.docId, words[j]) && RunsCold(c.CK.Keys, KnownThen(c, req), c.ckMax, words[..j]);
      }
    }
  }

  /** INSERT and REPLACE, clean or not, from any cache. */
  lemma StoreArchived(c: ClientContext, s: Store, d: DocStore, t: Tally, a: Archive,
                      c': ClientContext, s': Store, d': DocStore, t': Tally, req: UpdateRequest, status: UpdateStatus)
    requires Covers(c, s, d, a) && Stored(c, s, d, t, c', s', d', t', req, status)
    requires req.op != OP_DELETE && AllReal(NewWords(req))
    ensures Covers(c', s', d', Updated(a, req))
    ensures Mirrors(c, s, d, a) ==>
      && (Mirrors(c', s', d', Updated(a, req)) <==> !Drops(c, a, req))
      && (t'.losses == t.losses <==> !Drops(c, a, req))
  {
    hide SlotsHeld, SlotStored, StoreIndexed, StoreReset, Filing, Updated, Drops, Mirrors, NewWords, AllReal, View,
         FiledUnder;
    SlotsStored(c, d, a, c', d', req, status);
    StoreFiles(c, s, d, t, a, c', s', d', t', req, status);
    FilingCovers(c, s, d, t, a, c', s', d', t', req);
    if Mirrors(c, s, d, a) {
      FilingMirrors(c, s, d, t, a, c', s', d', t', req);
    }
  }

  /** DELETE from any cache: keywords of earlier contents, left over from an INSERT over them, stay filed. */
  lemma DeleteArchived(c: ClientContext, s: Store, d: DocStore, t: Tally, a: Archive,
                       c': ClientContext, s': Store, d': DocStore, t': Tally, req: UpdateRequest)
    requires Covers(c, s, d, a) && Deleted(c, s, d, t, c', s', d', t', req.docId) && req.op == OP_DELETE
    ensures Covers(c', s', d', Updated(a, req))
    ensures Mirrors(c, s, d, a) ==>
      && (Mirrors(c', s', d', Updated(a, req)) <==> !Drops(c, a, req))
      && (t'.losses == t.losses <==> !Drops(c, a, req))
  {
    hide SlotsHeld, SlotDeleted, DeleteIndexed, DeleteReset, Filing, Updated, Drops, Mirrors, View, FiledUnder;
    SlotsDeleted(c, d, a, c', d', req);
    DeleteFiles(c, s, d, t, a, c', s', d', t', req);
    FilingCovers(c, s, d, t, a, c', s', d', t', req);
    if Mirrors(c, s, d, a) {
      FilingMirrors(c, s, d, t, a, c', s', d', t', req);
    }
  }

  // ----- the plain map as a special case

  /** The archive says what the plain map says. */
  ghost predicate Plain(a: Archive, db: Db)
  {
    forall i :: PlainAt(a, db, i)
  }

  /** Documents are numbered by their slots. */
  predicate InSlots(db: Db)
  {
    forall i :: i in db ==> ValidId(i)
  }

  lemma EmptyIsPlain()
    ensures Plain(EMPTY_ARCHIVE, map[])
  {
  }

  predicate PlainAt(a: Archive, db: Db, i: int)
  {
    && (i in a.live <==> i in db)
    && SlotOf(a, i) == (if i in db then db[i] else EMPTY_SLOT)
    && FiledUnder(a, i) == (if i in db then WordSet(TokensOf(db[i].index)) else {})
  }

  /** A plain archive stays plain under exactly the clean updates. */
  lemma CleanStaysPlain(a: Archive, db: Db, req: UpdateRequest)
    requires Plain(a, db) && InSlots(db)
    ensures Plain(Updated(a, req), ApplyUpdate(db, req)) <==> Clean(db, req)
  {
    hide PlainAt, Updated, ApplyUpdate, Clean;
    forall i | i != req.docId
      ensures PlainAt(Updated(a, req), ApplyUpdate(db, req), i)
    {
      assert PlainAt(a, db, i);
      PlainElsewhere(a, db, req, i);
    }
    assert PlainAt(a, db, req.docId);
    PlainHere(a, db, req);
  }

  lemma PlainElsewhere(a: Archive, db: Db, req: UpdateRequest, i: int)
    requires PlainAt(a, db, i) && i != req.docId
    ensures PlainAt(Updated(a, req), ApplyUpdate(db, req), i)
  {
    hide Misses, Cleared, Filed, NewSlot, TokensOf, WordSet;
  }

  lemma PlainHere(a: Archive, db: Db, req: UpdateRequest)
    requires PlainAt(a, db, req.docId) && (req.docId in db ==> ValidId(req.docId))
    ensures PlainAt(Updated(a, req), ApplyUpdate(db, req), req.docId) <==> Clean(db, req)
  {
    hide NewSlot, NewWords, TokensOf, WordSet;
    NewSlotWords(req);
    NoWords();
    var id := req.docId;
    var before, after := if id in db then TokensOf(db[id].index) else [], NewWords(req);
    WordsJoin(before, after);
    SetsJoin(WordSet(before), WordSet(after));
  }

  lemma WordsJoin(a: seq<Text>, b: seq<Text>)
    ensures WordSet([]) == {} && (WordSet(b) == {} <==> b == [])
    ensures WordSet(a) + WordSet(b) == WordSet(b) <==> forall w :: w in a ==> w in b
  {
    if b != [] {
      assert b[0] in WordSet(b);
    }
    if WordSet(a) + WordSet(b) == WordSet(b) {
      forall w | w in a
        ensures w in b
      {
        assert w in WordSet(a) + WordSet(b);
      }
    }
  }

  lemma SetsJoin(a: set<Text>, b: set<Text>)
    ensures a - a + b == b && a - a + {} == {} && {} - a + b == b && {} + b == b
  {
  }

  /** For a plain archive, mirroring it is refining the map. */
  lemma PlainRefines(c: ClientContext, s: Store, d: DocStore, a: Archive, db: Db)
    requires Plain(a, db) && forall i :: i in db ==> ValidId(i) && AllReal(TokensOf(db[i].index))
    ensures Mirrors(c, s, d, a) <==> Refines(c, s, d, db)
    ensures Covers(c, s, d, a) <==> Holds(c, s, d, db)
  {
    hide Contents, ToString, TokensOf, View, SlotOf, FiledUnder, WordSet, Carries, AllReal;
    PlainSlots(c, d, a, db);
    PlainCarries(a, db);
  }

  lemma PlainSlots(c: ClientContext, d: DocStore, a: Archive, db: Db)
    requires Plain(a, db) && forall i :: i in db ==> ValidId(i) && AllReal(TokensOf(db[i].index))
    ensures SlotsHeld(c, d, a) <==> DocsHeld(c, d, db)
  {
    hide Contents, ToString, TokensOf, SlotOf, FiledUnder, WordSet, AllReal;
    NoWords();
    EmptyReal();
    PlainLive(a, db);
    forall i | ValidId(i)
      ensures SlotOf(a, i) == (if i in db then db[i] else EMPTY_SLOT)
    {
      assert PlainAt(a, db, i);
    }
    hide Plain, PlainAt;
  }

  lemma PlainLive(a: Archive, db: Db)
    requires Plain(a, db)
    ensures a.live == set i | i in db
  {
    hide TokensOf, SlotOf, FiledUnder;
    forall i
      ensures i in a.live <==> i in db
    {
      assert PlainAt(a, db, i);
    }
  }

  lemma PlainCarries(a: Archive, db: Db)
    requires Plain(a, db)
    ensures forall w, i :: w in FiledUnder(a, i) <==> Carries(db, i, w)
  {
    hide TokensOf, SlotOf, FiledUnder;
    forall w, i
      ensures w in FiledUnder(a, i) <==> Carries(db, i, w)
    {
      assert PlainAt(a, db, i);
    }
  }

  /** On a plain archive a dropped bit is foreseen as on the map. */
  lemma PlainDrops(c: ClientContext, a: Archive, db: Db, req: UpdateRequest)
    requires Plain(a, db) && InSlots(db)
    ensures Drops(c, a, req) <==> LosesBit(c, db, req)
    ensures Alone(a, req) <==> Unshared(db, req)
    ensures Rounds(a, req) == TouchedWords(db, req)
  {
    hide KnownThen, RunsCold, Rounds, TouchedWords, AlsoFiled, SharedWord, TokensOf, PlainAt;
    PlainRounds(a, db, req);
    forall w
      ensures AlsoFiled(a, req.docId, w) <==> SharedWord(db, req.docId, w)
    {
      PlainShared(a, db, req.docId, w);
    }
    UnsharedWords(db, req);
  }

  lemma PlainRounds(a: Archive, db: Db, req: UpdateRequest)
    requires Plain(a, db) && InSlots(db)
    ensures Rounds(a, req) == TouchedWords(db, req)
  {
    hide NewWords, TokensOf, FiledUnder, WordSet;
    NoWords();
    assert PlainAt(a, db, req.docId);
    assert [] + NewWords(req) == NewWords(req);
  }

  lemma PlainShared(a: Archive, db: Db, id: int, w: Text)
    requires Plain(a, db)
    ensures AlsoFiled(a, id, w) <==> SharedWord(db, id, w)
  {
    hide TokensOf, SlotOf;
    if AlsoFiled(a, id, w) {
      var i :| i in a.filed && i != id && w in a.filed[i];
      assert PlainAt(a, db, i);
    }
    if SharedWord(db, id, w) {
      var i :| i in db && i != id && w in TokensOf(db[i].index);
      assert PlainAt(a, db, i);
      assert w in FiledUnder(a, i);
    }
  }

  lemma UnsharedWords(db: Db, req: UpdateRequest)
    ensures Unshared(db, req) <==> forall w :: w in TouchedWords(db, req) ==> !SharedWord(db, req.docId, w)
  {
    hide TouchedWords, TokensOf;
  }

  // ----- queries

  /** Whether a query picks a document filed under these words: NOT looks at the live ones only, the rest at all. */
  predicate Picks(e: Source, words: set<Text>, live: bool)
  {
    match e
    case Leaf(w) => (if |w| <= 32 then w else w[..32]) in words
    case And(l, r) => Picks(l, words, live) && Picks(r, words, live)
    case Or(l, r) => Picks(l, words, live) || Picks(r, words, live)
    case Not(x) => live && !Picks(x, words, live)
  }

  lemma {:induction false} MeaningPicks(e: Ast, keywords: seq<Text>, view: Text -> Bitmap, live: Bitmap,
                                        bit: int, words: set<Text>)
    requires InRange(e, |keywords|) && forall w :: bit in view(w) <==> w in words
    ensures bit in Meaning(e, MakeTerms(keywords), view, live) <==> Picks(Named(e, keywords), words, bit in live)
    decreases e
  {
    match e
    case Leaf(i) =>
    case And(l, r) =>
      MeaningPicks(l, keywords, view, live, bit, words);
      MeaningPicks(r, keywords, view, live, bit, words);
    case Or(l, r) =>
      MeaningPicks(l, keywords, view, live, bit, words);
      MeaningPicks(r, keywords, view, live, bit, words);
    case Not(x) =>
      MeaningPicks(x, keywords, view, live, bit, words);
  }

  /** The documents up to n that a query picks, ascending. */
  function PickedIds(a: Archive, e: Source, n: nat): seq<int>
  {
    if n == 0 then []
    else PickedIds(a, e, n - 1) + (if Picks(e, FiledUnder(a, n), n in a.live) then [n] else [])
  }

  function ArchiveRows(a: Archive, ids: seq<int>): seq<Row>
  {
    if ids == [] then []
    else
      var n := |ids| - 1;
      ArchiveRows(a, ids[..n]) + [(ids[n], SlotOf(a, ids[n]).body)]
  }

  /** The answer to a query, computed on the archive alone. */
  function ArchiveReply(a: Archive, e: Source, kind: int, limit: int): SelectReply
  {
    var ids := PickedIds(a, e, TOTAL_FILE_NO);
    if 1 <= kind <= 4 then Aggregate(|ids|, AggregateValue(kind, ids))
    else if kind == 0 then Rows(ArchiveRows(a, Cut(ids, limit)))
    else Rows(ArchiveRows(a, ids))
  }

  lemma {:induction false} IdsArePicked(bits: Bitmap, a: Archive, e: Source, n: nat)
    requires forall k :: 0 <= k < n ==> (k in bits <==> Picks(e, FiledUnder(a, k + 1), k + 1 in a.live))
    ensures Ids(bits, n) == PickedIds(a, e, n)
  {
    hide Picks, FiledUnder;
    if n > 0 {
      IdsArePicked(bits, a, e, n - 1);
    }
  }

  lemma {:induction false} RowsAreArchiveRows(c: ClientContext, d: DocStore, a: Archive, ids: seq<int>)
    requires SlotsHeld(c, d, a) && forall i :: i in ids ==> ValidId(i)
    ensures RowsOf(c, d, Names(ids)) == ArchiveRows(a, ids)
  {
    hide Contents, ToString, SlotOf, SlotsHeld;
    if ids != [] {
      var n := |ids| - 1;
      assert ids[n] in ids;
      assert forall i :: i in ids[..n] ==> i in ids;
      RowsAreArchiveRows(c, d, a, ids[..n]);
      assert Names(ids)[..n] == Names(ids[..n]);
      ContentsArchived(c, d, a, ids[n]);
    }
  }

  lemma ContentsArchived(c: ClientContext, d: DocStore, a: Archive, i: int)
    requires SlotsHeld(c, d, a) && ValidId(i)
    ensures Contents(c, d, ToString(i)) == SlotOf(a, i) && Atoi(ToString(i)) == i
  {
    hide Contents, ToString, TokensOf, SlotOf;
    ValidIdIsKey(i);
  }

  lemma MeaningArchived(c: ClientContext, s: Store, d: DocStore, a: Archive, root: Ast, keywords: seq<Text>)
    requires Mirrors(c, s, d, a) && InRange(root, |keywords|)
    ensures Ids(Meaning(root, MakeTerms(keywords), ViewOf(c, s), c.allDocs), TOTAL_FILE_NO)
         == PickedIds(a, Named(root, keywords), TOTAL_FILE_NO)
  {
    hide Contents, View, ToString, AllReal, Picks, Meaning, TokensOf, FiledUnder, SlotOf;
    var bits := Meaning(root, MakeTerms(keywords), ViewOf(c, s), c.allDocs);
    forall k | 0 <= k < TOTAL_FILE_NO
      ensures k in bits <==> Picks(Named(root, keywords), FiledUnder(a, k + 1), k + 1 in a.live)
    {
      MeaningPicks(root, keywords, ViewOf(c, s), c.allDocs, k, FiledUnder(a, k + 1));
    }
    IdsArePicked(bits, a, Named(root, keywords), TOTAL_FILE_NO);
  }

  /** A compiled query is answered with the reply computed on the archive alone. */
  lemma ReplyArchived(c: ClientContext, s: Store, d: DocStore, a: Archive, root: Ast, keywords: seq<Text>, kind: int)
    requires Mirrors(c, s, d, a) && InRange(root, |keywords|) && |keywords| <= MAX_TERMS && 0 <= kind <= 4
    ensures var req := SelectRequest(MakeTerms(keywords), Encode(root), kind);
            var r := Run(req.code, req.terms, ViewOf(c, s), c.allDocs, []);
            && r.Stack? && |r.bitmaps| == 1
            && ReplyFor(c, d, kind, Matches(c, s, req))
            == ArchiveReply(a, Named(root, keywords), kind, c.retrievalLimit)
  {
    hide Mirrors, Run, Meaning, PickedIds, Ids, RowsOf, ArchiveRows, AggregateValue, Encode, View;
    var terms := MakeTerms(keywords);
    RunCompiled(root, terms, ViewOf(c, s), c.allDocs);
    MeaningArchived(c, s, d, a, root, keywords);
    var ids := Ids(Meaning(root, terms, ViewOf(c, s), c.allDocs), TOTAL_FILE_NO);
    var shown := if kind == 0 then Cut(ids, c.retrievalLimit) else ids;
    assert forall i :: i in shown ==> i in ids;
    MirrorsSlots(c, s, d, a);
    RowsAreArchiveRows(c, d, a, shown);
  }

  lemma MirrorsSlots(c: ClientContext, s: Store, d: DocStore, a: Archive)
    requires Mirrors(c, s, d, a)
    ensures SlotsHeld(c, d, a)
  {
    hide SlotsHeld, View;
  }

  /** A query keeps the archive. */
  lemma QueryArchived(c: ClientContext, s: Store, d: DocStore, a: Archive, c': ClientContext, s': Store, d': DocStore)
    requires Queried(c, s, d, c', s', d') && Covers(c, s, d, a)
    ensures Covers(c', s', d', a) && (Mirrors(c, s, d, a) ==> Mirrors(c', s', d', a))
  {
    hide Contents, ToString, TokensOf, View, AllReal, IndexInv, DocInv, Fresh, NoOverwrite, VersionsKept, RealKeys;
    SameContentsByNumber(c, d, c', d');
  }

  /** A plain archive answers as the plain map does. */
  lemma PlainReply(a: Archive, db: Db, e: Source, kind: int, limit: int)
    requires Plain(a, db)
    ensures ArchiveReply(a, e, kind, limit) == DbReply(db, e, kind, limit)
  {
    hide Picks, Satisfies, AggregateValue, Plain, TokensOf;
    PlainIds(a, db, e, TOTAL_FILE_NO);
    MatchIdsLive(db, e, TOTAL_FILE_NO);
    var ids := MatchIds(db, e, TOTAL_FILE_NO);
    var shown := if kind == 0 then Cut(ids, limit) else ids;
    assert forall i :: i in shown ==> i in ids;
    hide MatchIds, PickedIds;
    PlainRows(a, db, shown);
  }

  lemma {:induction false} PlainPicks(e: Source, words: seq<Text>, live: bool)
    ensures Picks(e, if live then WordSet(words) else {}, live) <==> live && Satisfies(e, words)
  {
    match e
    case Leaf(w) =>
    case And(l, r) =>
      PlainPicks(l, words, live);
      PlainPicks(r, words, live);
    case Or(l, r) =>
      PlainPicks(l, words, live);
      PlainPicks(r, words, live);
    case Not(x) =>
      PlainPicks(x, words, live);
  }

  lemma {:induction false} PlainIds(a: Archive, db: Db, e: Source, n: nat)
    requires Plain(a, db)
    ensures PickedIds(a, e, n) == MatchIds(db, e, n)
  {
    hide Picks, Satisfies, TokensOf, FiledUnder, SlotOf, WordSet;
    if n > 0 {
      PlainIds(a, db, e, n - 1);
      assert PlainAt(a, db, n);
      PlainPicks(e, if n in db then TokensOf(db[n].index) else [], n in db);
    }
  }

  lemma {:induction false} PlainRows(a: Archive, db: Db, ids: seq<int>)
    requires Plain(a, db) && forall i :: i in ids ==> i in db
    ensures ArchiveRows(a, ids) == DbRows(db, ids)
  {
    hide FiledUnder, SlotOf, TokensOf, WordSet;
    if ids != [] {
      var n := |ids| - 1;
      assert ids[n] in ids;
      assert forall i :: i in ids[..n] ==> i in ids;
      PlainRows(a, db, ids[..n]);
      assert PlainAt(a, db, ids[n]);
    }
  }
}
