/** From a request as it is sent to the rows that come back: what a client can rely on, in its own bytes. */
module Answers {
  import opened Bytes
  import opened BitPack
  import opened Labels
  import opened Context
  import opened Tokens
  import opened IndexModel
  import opened KeywordUpdates
  import opened Dummies
  import opened DocModel
  import opened DocAccess
  import opened Query
  import opened QueryCode
  import opened QueryLaws
  import opened Select
  import opened Update

  /** A word that a query text can consist of: no blanks, no parentheses, and not the operator NOT. */
  predicate QueryWord(fold: bool, w: Text)
  {
    && 0 < |w| <= 32 && Operand(fold, w)
    && forall i :: 0 <= i < |w| ==> !Blank(w[i]) && w[i] != 40 && w[i] != 41
  }

  /** A query text of one word becomes that word as the only term, and the code that looks it up. */
  method CompileWord(fold: bool, word: Text) returns (req: SelectRequest)
    requires QueryWord(fold, word)
    ensures req == SelectRequest([word], [1, 0], 0)
  {
    hide ParseExpr, Encode, Lex, Operand, Spells;
    var tokens := TokenizeQuery(word);
    RunIsToken(word);
    WordAlone(fold, word);
    var ok, terms, code := CompileSelect(fold, tokens);
    req := SelectRequest(terms, code, 0);
  }

  lemma WordAlone(fold: bool, word: Text)
    requires Operand(fold, word)
    ensures ParseExpr(fold, [word], 0, []) == Parsed(Leaf(0), 1, [word])
    ensures Encode(Leaf(0)) == [1, 0]
  {
    hide ParseTerm, Operand;
    WordIsTerm(fold, [word], 0, []);
    OrStops(fold, [word], Leaf(0), 1, [word]);
  }

  /** The first limit numbers of the slots whose bit is set, ascending: all of them unless there are more. */
  ghost predicate FirstMatches(bits: Bitmap, ids: seq<int>, limit: int)
  {
    && |ids| <= limit
    && (forall i, j :: 0 <= i < j < |ids| ==> ids[i] < ids[j])
    && (forall i :: i in ids ==> 1 <= i <= 10000 && i - 1 in bits)
    && (forall k :: k in bits && 0 <= k < 10000 ==>
          k + 1 in ids || (|ids| == limit && forall i :: i in ids ==> i < k + 1))
  }

  function Numbers(rows: seq<Row>): (ids: seq<int>)
    ensures |ids| == |rows|
  {
    seq(|rows|, i requires 0 <= i < |rows| => rows[i].0)
  }

  /** The rows answer a query for one word: the first limit documents listed under it, with their bodies. */
  ghost predicate WordRows(c: ClientContext, s: Store, d: DocStore, word: Text, rows: seq<Row>, limit: int)
  {
    && FirstMatches(View(c, s, word), Numbers(rows), limit)
    && forall i :: 0 <= i < |rows| ==> rows[i].1 == Contents(c, d, ToString(rows[i].0)).body
  }

  lemma {:induction false} RowsAre(c: ClientContext, d: DocStore, ids: seq<int>)
    ensures |RowsOf(c, d, Names(ids))| == |ids|
    ensures forall i :: 0 <= i < |ids| ==>
      RowsOf(c, d, Names(ids))[i] == (ids[i], Contents(c, d, ToString(ids[i])).body)
  {
    hide Contents, ToString;
    if ids != [] {
      var n := |ids| - 1;
      RowsAre(c, d, ids[..n]);
      assert Names(ids)[..n] == Names(ids[..n]);
      AtoiToString(ids[n]);
    }
  }

  lemma WordCode(c: ClientContext, s: Store, word: Text)
    ensures Run([1, 0], [word], ViewOf(c, s), c.allDocs, []) == Stack([View(c, s, word)])
  {
    hide View, Run;
    var v, live: Bitmap := ViewOf(c, s), c.allDocs;
    var zero: byte := 0;
    assert v([word][zero as int]) == View(c, s, word);
    MachineBytes([], [word], v, live, [], {}, {}, zero);
    assert [] + [v(word)] == [View(c, s, word)];
    var code: seq<byte> := [1, 0];
    assert code + [] == code;
    CodeDone([word], v, live, [View(c, s, word)]);
  }

  lemma CodeDone(terms: seq<Text>, view: Text -> Bitmap, live: Bitmap, stk: seq<Bitmap>)
    ensures Run([], terms, view, live, stk) == Stack(stk)
  {
  }

  lemma WordAnswer(c: ClientContext, s: Store, d: DocStore, word: Text)
    requires 0 <= c.retrievalLimit
    ensures var req := SelectRequest([word], [1, 0], 0);
            var r := Run(req.code, req.terms, ViewOf(c, s), c.allDocs, []);
            && r.Stack? && |r.bitmaps| > 0
            && var reply := ReplyFor(c, d, 0, Matches(c, s, req));
               reply.Rows? && WordRows(c, s, d, word, reply.rows, c.retrievalLimit)
  {
    hide View, Run, Contents, ToString, Ids, RowsOf, WordRows;
    WordCode(c, s, word);
    var all, limit := Ids(View(c, s, word), TOTAL_FILE_NO), c.retrievalLimit;
    RowsAnswer(c, s, d, word, if limit < |all| then all[..limit] else all);
  }

  lemma RowsAnswer(c: ClientContext, s: Store, d: DocStore, word: Text, ids: seq<int>)
    requires 0 <= c.retrievalLimit
    requires var all := Ids(View(c, s, word), TOTAL_FILE_NO);
             ids == if c.retrievalLimit < |all| then all[..c.retrievalLimit] else all
    ensures WordRows(c, s, d, word, RowsOf(c, d, Names(ids)), c.retrievalLimit)
  {
    hide View, Contents, ToString, Ids, RowsOf, FirstMatches;
    RowsAre(c, d, ids);
    CutMatches(View(c, s, word), ids, c.retrievalLimit);
    assert Numbers(RowsOf(c, d, Names(ids))) == ids;
  }

  lemma CutMatches(bits: Bitmap, ids: seq<int>, limit: int)
    requires 0 <= limit
    requires var all := Ids(bits, TOTAL_FILE_NO); ids == if limit < |all| then all[..limit] else all
    ensures FirstMatches(bits, ids, limit)
  {
    IdsSound(bits, TOTAL_FILE_NO);
    hide Ids;
    var all := Ids(bits, TOTAL_FILE_NO);
    assert forall i :: i in ids ==> i in all;
    forall k | k in bits && 0 <= k < 10000 && k + 1 !in ids
      ensures |ids| == limit && forall i :: i in ids ==> i < k + 1
    {
      assert k + 1 in all;
      var j :| 0 <= j < |all| && all[j] == k + 1;
      if j < |ids| {
        assert false;
      }
    }
  }

  /** A query for one word, from its text: the rows of the documents listed under it. */
  method AskWord(cm: ContextManager, host: Host, edb: int, fold: bool, word: Text) returns (ok: bool, rows: seq<Row>)
    requires host.Registered(edb) && Ready(cm.ctx, host.bitmaps[edb], host.docs[edb]) && QueryWord(fold, word)
    modifies cm`ctx, cm`tally, host`bitmaps, host`docs, host`trace
    ensures edb in host.bitmaps && edb in host.docs
    ensures ok ==> WordRows(old(cm.ctx), old(host.bitmaps)[edb], old(host.docs)[edb], word, rows,
                            old(cm.ctx.retrievalLimit))
    ensures Queried(old(cm.ctx), old(host.bitmaps)[edb], old(host.docs)[edb], cm.ctx, host.bitmaps[edb], host.docs[edb])
  {
    hide IndexInv, DocInv, View, Run, Contents, Queried, WordRows, QueryWord;
    ghost var c, s, d := cm.ctx, host.bitmaps[edb], host.docs[edb];
    var req := CompileWord(fold, word);
    WordAnswer(c, s, d, word);
    var reply: SelectReply;
    ok, reply := HandleSelect(cm, host, edb, req);
    rows := if ok then reply.rows else [];
  }

  /** The index text of a request: sent apart, or the document itself. */
  function SentIndex(req: UpdateRequest): Text
  {
    if req.flags == 1 then req.index else req.doc
  }

  /**
   After a completed INSERT or REPLACE, from whatever state, a query for any word of the index text as it was
   sent gives back the document as it was sent, without trailing NULs, unless the reply is full of documents
   with smaller numbers. No row shows anything else under its number.
   */
  method StoreThenAsk(cm: ContextManager, host: Host, edb: int, req: UpdateRequest, fold: bool, word: Text)
    returns (stored: bool, ok: bool, rows: seq<Row>)
    requires host.Registered(edb) && Ready(cm.ctx, host.bitmaps[edb], host.docs[edb]) && cm.ctx.dummySize < DUMMY_LIMIT
    requires (req.op == 1 || req.op == 2) && 1 <= req.docId <= 10000
    requires 13 + |TrimNul(SentIndex(req))| + |TrimNul(req.doc)| <= 4096
    requires AllReal(TokensOf(SentIndex(req))) && AllReal(ClearedWords(cm.ctx, host.docs[edb], req))
    requires word in TokensOf(SentIndex(req)) && QueryWord(fold, word)
    modifies cm`ctx, cm`tally, host`bitmaps, host`docs, host`trace
    ensures stored && ok ==>
      && (forall row :: row in rows && row.0 == req.docId ==> row.1 == TrimNul(req.doc))
      && ((req.docId, TrimNul(req.doc)) in rows
          || (|rows| == old(cm.ctx.retrievalLimit) && forall row :: row in rows ==> row.0 < req.docId))
  {
    hide Ready, Contents, View, Stored, Kept, Fed, Hungry, Spent, VersionsKept, NewSlot, NewWords, ClearedWords,
         AllReal, ReplaceMisses, Replenished, NextEnd, AsSent, TokensOf, WordRows, QueryWord, Arrival, Queried;
    ghost var c0, s0, d0, t0 := cm.ctx, host.bitmaps[edb], host.docs[edb], cm.tally;
    SentFits(req);
    ok, rows := false, [];
    var status := HandleStore(cm, host, edb, req);
    stored := status.Applied?;
    if !stored {
      return;
    }
    ghost var c1, s1, d1 := cm.ctx, host.bitmaps[edb], host.docs[edb];
    StillReady(c0, s0, d0, t0, c1, s1, d1, cm.tally);
    ok, rows := AskWord(cm, host, edb, fold, word);
    if ok {
      FoundAgain(c0, c1, s1, d1, req, word, rows);
    }
  }

  lemma SentFits(req: UpdateRequest)
    requires 13 + |TrimNul(SentIndex(req))| + |TrimNul(req.doc)| <= 4096
    ensures Fits(NewSlot(req)) && NewWords(req) == TokensOf(SentIndex(req))
  {
    hide TokensOf;
  }

  lemma StillReady(c: ClientContext, s: Store, d: DocStore, t: Tally, c': ClientContext, s': Store, d': DocStore,
                   t': Tally)
    requires Kept(c, s, d, t, c', s', d', t')
    ensures Ready(c', s', d') && c'.retrievalLimit == c.retrievalLimit
  {
    hide Ready, Fresh, NoOverwrite, Warm;
  }

  lemma FoundAgain(c0: ClientContext, c: ClientContext, s: Store, d: DocStore, req: UpdateRequest, word: Text,
                   rows: seq<Row>)
    requires AsSent(c0, c, s, d, req, true) && 1 <= req.docId <= 10000 && word in TokensOf(SentIndex(req))
    requires WordRows(c, s, d, word, rows, c.retrievalLimit)
    ensures forall row :: row in rows && row.0 == req.docId ==> row.1 == TrimNul(req.doc)
    ensures (req.docId, TrimNul(req.doc)) in rows ||
      (|rows| == c.retrievalLimit && forall row :: row in rows ==> row.0 < req.docId)
  {
    hide Contents, View, ToString, TokensOf;
    var k, ids := req.docId - 1, Numbers(rows);
    assert k in View(c, s, word);
    forall row | row in rows
      ensures row.0 in ids && (row.0 == req.docId ==> row.1 == TrimNul(req.doc))
    {
      var i :| 0 <= i < |rows| && rows[i] == row;
      assert ids[i] == row.0;
    }
    if req.docId in ids {
      var i :| 0 <= i < |ids| && ids[i] == req.docId;
      assert rows[i] == (req.docId, TrimNul(req.doc));
    }
  }

  /** After a completed DELETE no query for a word of the deleted document's index text shows that document. */
  method DeleteThenAsk(cm: ContextManager, host: Host, edb: int, id: int, fold: bool, word: Text)
    returns (deleted: bool, ok: bool, rows: seq<Row>)
    requires host.Registered(edb) && Ready(cm.ctx, host.bitmaps[edb], host.docs[edb]) && cm.ctx.dummySize < DUMMY_LIMIT
    requires 1 <= id <= 10000 && AllReal(OldWords(cm.ctx, host.docs[edb], id)) && QueryWord(fold, word)
    requires word in TokensOf(Contents(cm.ctx, host.docs[edb], ToString(id)).index)
    modifies cm`ctx, cm`tally, host`bitmaps, host`docs, host`trace
    ensures deleted && ok ==> forall row :: row in rows ==> row.0 != id
  {
    hide Ready, Contents, View, Deleted, Kept, Fed, Hungry, Spent, VersionsKept, OldWords, AllReal, Replenished, Gone,
         TokensOf, WordRows, QueryWord, Arrival, Queried, ToString;
    ghost var c0, s0, d0, t0 := cm.ctx, host.bitmaps[edb], host.docs[edb], cm.tally;
    ok, rows := false, [];
    var status := HandleDelete(cm, host, edb, id);
    deleted := status.Applied?;
    if !deleted {
      return;
    }
    ghost var c1, s1, d1 := cm.ctx, host.bitmaps[edb], host.docs[edb];
    StillReady(c0, s0, d0, t0, c1, s1, d1, cm.tally);
    ok, rows := AskWord(cm, host, edb, fold, word);
    if ok {
      NotFoundAgain(c0, d0, c1, s1, d1, id, word, rows);
    }
  }

  lemma NotFoundAgain(c0: ClientContext, d0: DocStore, c: ClientContext, s: Store, d: DocStore, id: int, word: Text,
                      rows: seq<Row>)
    requires Gone(c0, d0, c, s, d, id) && 1 <= id <= 10000
    requires word in TokensOf(Contents(c0, d0, ToString(id)).index)
    requires WordRows(c, s, d, word, rows, c.retrievalLimit)
    ensures forall row :: row in rows ==> row.0 != id
  {
    hide Contents, View, ToString, TokensOf;
    forall row | row in rows
      ensures row.0 != id
    {
      var i :| 0 <= i < |rows| && rows[i] == row;
      assert Numbers(rows)[i] == row.0 && row.0 in Numbers(rows);
    }
  }
}
