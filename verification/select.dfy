/** handle_select: evaluation through Search, result rows and aggregates. */
module Select {
  import opened Bytes
  import opened BitPack
  import opened Labels
  import opened Context
  import opened IndexModel
  import opened KeywordIndex
  import opened KeywordUpdates
  import opened DocModel
  import opened DocCache
  import opened DocAccess
  import opened Provision
  import opened QueryCode

  /** A context that can serve requests for its database. */
  ghost predicate Ready(c: ClientContext, s: Store, d: DocStore)
  {
    && IndexInv(c, s) && |c.CK| <= c.ckMax
    && DocInv(c, d) && 0 <= |c.docCK| <= c.docCkMax
    && 0 <= c.retrievalLimit <= MAX_RESULT_DOCS
  }

  /** The keyword bitmaps of a state, as the stack machine sees them. */
  function ViewOf(c: ClientContext, s: Store): Text -> Bitmap
  {
    (w: Text) => View(c, s, w)
  }

  /** The numbers of the slots whose bit is set, ascending. */
  function Ids(bits: Bitmap, n: nat): (ids: seq<int>)
    ensures forall i :: i in ids ==> 0 < i <= n
  {
    if n == 0 then [] else Ids(bits, n - 1) + (if n - 1 in bits then [n] else [])
  }

  lemma {:induction false} IdsSound(bits: Bitmap, n: nat)
    ensures forall i :: i in Ids(bits, n) <==> 0 < i <= n && i - 1 in bits
    ensures forall i, j :: 0 <= i < j < |Ids(bits, n)| ==> Ids(bits, n)[i] < Ids(bits, n)[j]
    ensures |Ids(bits, n)| <= n
  {
    if n > 0 {
      IdsSound(bits, n - 1);
      var shorter := Ids(bits, n - 1);
      forall i, j | 0 <= i < j < |Ids(bits, n)|
        ensures Ids(bits, n)[i] < Ids(bits, n)[j]
      {
        assert i < |shorter| ==> shorter[i] in shorter;
      }
    }
  }

  /** The slot numbers as document ids. */
  function Names(ids: seq<int>): (names: seq<Text>)
    ensures |names| == |ids|
    ensures forall k :: 0 <= k < |ids| ==> names[k] == ToString(ids[k])
  {
    seq(|ids|, k requires 0 <= k < |ids| => ToString(ids[k]))
  }

  datatype SelectRequest = SelectRequest(terms: seq<Text>, code: seq<byte>, kind: int)

  /** Rows of a plain SELECT, or the value and the match count of an aggregate. */
  datatype SelectReply = Rows(rows: seq<Row>) | Aggregate(matchCount: int, value: int)

  function Sum(ids: seq<int>): int
  {
    if ids == [] then 0 else Sum(ids[..|ids| - 1]) + ids[|ids| - 1]
  }

  /** MAX, MIN, SUM and AVG of the matching slot numbers; zero without a match. */
  function AggregateValue(kind: int, ids: seq<int>): int
  {
    if ids == [] then 0
    else if kind == 1 then ids[|ids| - 1]
    else if kind == 2 then ids[0]
    else if kind == 3 then Sum(ids)
    else if kind == 4 then Sum(ids) / |ids|
    else 0
  }

  lemma {:induction false} SumBounds(bits: Bitmap, n: nat)
    ensures 2 * Sum(Ids(bits, n)) <= n * (n + 1)
  {
    if n > 0 {
      SumBounds(bits, n - 1);
      SumGrows(bits, n);
      Triangle(n);
    }
  }

  lemma Triangle(n: nat)
    ensures n * (n + 1) == (n - 1) * n + 2 * n
  {
  }

  lemma SumGrows(bits: Bitmap, n: nat)
    requires n > 0
    ensures Sum(Ids(bits, n)) <= Sum(Ids(bits, n - 1)) + n
  {
    var shorter := Ids(bits, n - 1);
    if n - 1 in bits {
      assert Ids(bits, n)[..|shorter|] == shorter;
    } else {
      assert Ids(bits, n) == shorter;
    }
  }

  lemma {:induction false} SumBetween(ids: seq<int>, low: int, high: int)
    requires forall i :: i in ids ==> low <= i <= high
    ensures low * |ids| <= Sum(ids) <= high * |ids|
  {
    if ids != [] {
      var n := |ids| - 1;
      assert ids[n] in ids;
      assert forall i :: i in ids[..n] ==> i in ids;
      SumBetween(ids[..n], low, high);
      OneMoreTimes(low, n);
      OneMoreTimes(high, n);
      assert Sum(ids) == Sum(ids[..n]) + ids[n];
    }
  }

  lemma OneMoreTimes(a: int, n: nat)
    ensures a * (n + 1) == a * n + a
  {
  }

  /** Over any nonempty match: extremes are attained, the sum fits an int, and the mean lies between the extremes. */
  lemma AggregatesMean(bits: Bitmap)
    ensures var ids := Ids(bits, TOTAL_FILE_NO);
            ids != [] ==>
              && AggregateValue(1, ids) in ids && (forall i :: i in ids ==> i <= AggregateValue(1, ids))
              && AggregateValue(2, ids) in ids && (forall i :: i in ids ==> AggregateValue(2, ids) <= i)
              && 0 < AggregateValue(3, ids) <= 50005000 < 0x8000_0000
              && AggregateValue(2, ids) <= AggregateValue(4, ids) <= AggregateValue(1, ids)
              && AggregateValue(4, ids) * |ids| <= AggregateValue(3, ids) < (AggregateValue(4, ids) + 1) * |ids|
  {
    var ids := Ids(bits, TOTAL_FILE_NO);
    if ids != [] {
      IdsSound(bits, TOTAL_FILE_NO);
      SumBounds(bits, TOTAL_FILE_NO);
      var low, high, n := ids[0], ids[|ids| - 1], |ids|;
      SumBetween(ids, low, high);
      assert low in ids;
      MeanBetween(Sum(ids), n, low, high);
      SumBetween(ids, 1, TOTAL_FILE_NO);
    }
  }

  /** The slots that match: bits of existing slots. */
  function Matching(bits: Bitmap): set<int>
  {
    set k | k in bits && 0 <= k < 10000
  }

  /** The numbers of the first n slots that match, added up. */
  function Total(bits: Bitmap, n: nat): nat
  {
    if n == 0 then 0 else Total(bits, n - 1) + (if n - 1 in bits then n else 0)
  }

  /** What the value of an aggregate says about the matching slots: 1 MAX, 2 MIN, 3 SUM, 4 AVG. */
  predicate AggregateIs(kind: int, value: int, bits: Bitmap)
  {
    var m := Matching(bits);
    if m == {} then value == 0
    else
      && (kind == 1 ==> value - 1 in m && forall k :: k in m ==> k + 1 <= value)
      && (kind == 2 ==> value - 1 in m && forall k :: k in m ==> value <= k + 1)
      && (kind == 3 ==> value == Total(bits, 10000))
      && (kind == 4 ==> value * |m| <= Total(bits, 10000) < (value + 1) * |m|)
  }

  lemma {:induction false} SumIsTotal(bits: Bitmap, n: nat)
    ensures Sum(Ids(bits, n)) == Total(bits, n)
  {
    if n > 0 {
      SumIsTotal(bits, n - 1);
      var shorter := Ids(bits, n - 1);
      if n - 1 in bits {
        assert Ids(bits, n)[..|shorter|] == shorter;
      } else {
        assert Ids(bits, n) == shorter;
      }
    }
  }

  lemma {:induction false} IdsCount(bits: Bitmap, n: nat)
    ensures |Ids(bits, n)| == |set k | k in bits && 0 <= k < n|
  {
    if n == 0 {
      assert (set k | k in bits && 0 <= k < n) == {};
    } else {
      IdsCount(bits, n - 1);
      OneMoreBit(bits, n - 1);
    }
  }

  lemma OneMoreBit(bits: Bitmap, n: nat)
    ensures var before, now := set k | k in bits && 0 <= k < n, set k | k in bits && 0 <= k < n + 1;
            |now| == |before| + if n in bits then 1 else 0
  {
    var before, now := set k | k in bits && 0 <= k < n, set k | k in bits && 0 <= k < n + 1;
    assert now == if n in bits then before + {n} else before;
  }

  /** The aggregates, slot by slot. */
  lemma AggregateMeans(kind: int, bits: Bitmap)
    ensures AggregateIs(kind, AggregateValue(kind, Ids(bits, TOTAL_FILE_NO)), bits)
    ensures |Ids(bits, TOTAL_FILE_NO)| == |Matching(bits)|
  {
    MatchesAreIds(bits);
    SumIsTotal(bits, TOTAL_FILE_NO);
    AggregatesMean(bits);
    hide Ids, Sum, Total, Matching;
    var ids := Ids(bits, TOTAL_FILE_NO);
    assert forall k :: k in Matching(bits) ==> k + 1 in ids;
  }

  lemma MatchesAreIds(bits: Bitmap)
    ensures |Ids(bits, TOTAL_FILE_NO)| == |Matching(bits)|
    ensures Matching(bits) == {} <==> Ids(bits, TOTAL_FILE_NO) == []
    ensures forall i :: i in Ids(bits, TOTAL_FILE_NO) <==> i - 1 in Matching(bits)
  {
    IdsSound(bits, TOTAL_FILE_NO);
    IdsCount(bits, TOTAL_FILE_NO);
    hide Ids;
  }

  lemma MeanBetween(sum: int, n: nat, low: int, high: int)
    requires n > 0 && low * n <= sum <= high * n
    ensures low <= sum / n <= high
    ensures (sum / n) * n <= sum < (sum / n + 1) * n
  {
    var q, r := sum / n, sum % n;
    assert sum == n * q + r;
    assert (q + 1) * n == n * q + n;
    MulMono(q + 1, low, n);
    MulMono(high + 1, q, n);
  }

  lemma MulMono(a: int, b: int, n: nat)
    ensures a <= b ==> a * n <= b * n
  {
  }

  /** The tally after an operation that fails only by a missed pick, which is not barren while companions exist. */
  predicate MissedUnless(ok: bool, c: ClientContext, t: Tally, t': Tally)
  {
    && t' == t.(misses := t'.misses, barren := t'.barren)
    && t'.misses == t.misses + (if ok then 0 else 1)
    && t'.barren >= t.barren && (ok || Companions(c) ==> t'.barren == t.barren)
  }

  lemma SearchMissed(c0: ClientContext, s0: Store, c: ClientContext, s: Store, t: Tally)
    requires Searched(c0, s0, c, s)
    ensures MissedUnless(false, c0, t, Missed(c, t))
  {
    hide IndexInv, SameView, Fresh, NoOverwrite, Warm, WordSet;
    if Companions(c0) {
      CompanionsNotBarren(c, t);
    }
  }

  /** The stack machine of handle_select, each term looked up by Search. */
  method EvalBoolExpr(cm: ContextManager, host: Host, edb: int, terms: seq<Text>, code: seq<byte>)
    returns (ok: bool, result: Bitmap)
    requires edb in host.bitmaps && IndexInv(cm.ctx, host.bitmaps[edb]) && |cm.ctx.CK| <= cm.ctx.ckMax
    requires var r := Run(code, terms, ViewOf(cm.ctx, host.bitmaps[edb]), cm.ctx.allDocs, []);
             r.Stack? && |r.bitmaps| > 0
    modifies cm`ctx, cm`tally, host`bitmaps, host`trace
    ensures MissedUnless(ok, old(cm.ctx), old(cm.tally), cm.tally)
    ensures edb in host.bitmaps && host.bitmaps == old(host.bitmaps)[edb := host.bitmaps[edb]]
    ensures Searched(old(cm.ctx), old(host.bitmaps)[edb], cm.ctx, host.bitmaps[edb])
    ensures ok ==>
      var r := Run(code, terms, ViewOf(old(cm.ctx), old(host.bitmaps)[edb]), old(cm.ctx.allDocs), []);
      result == r.bitmaps[|r.bitmaps| - 1]
  {
    hide IndexInv, SameView, Inv, Pool, Fresh, NoOverwrite, View, Warm;
    ghost var c0, s0 := cm.ctx, host.bitmaps[edb];
    ghost var view, live := ViewOf(c0, s0), c0.allDocs;
    ghost var goal := Run(code, terms, view, live, []);
    SearchedRefl(c0, s0);
    ok, result := true, {};
    var stk: seq<Bitmap> := [];
    var i := 0;
    assert code[0..] == code;
    while i < |code|
      invariant 0 <= i <= |code|
      invariant edb in host.bitmaps && host.bitmaps == old(host.bitmaps)[edb := host.bitmaps[edb]]
      invariant Searched(c0, s0, cm.ctx, host.bitmaps[edb]) && ok && cm.tally == old(cm.tally)
      invariant Run(code[i..], terms, view, live, stk) == goal
    {
      CodeAt(code, i);
      SearchedFrame(c0, s0, cm.ctx, host.bitmaps[edb]);
      var token := code[i];
      if token == OP_TERM {
        i := i + 1;
        var keyword := terms[code[i] as int];
        ghost var c1, s1 := cm.ctx, host.bitmaps[edb];
        SearchedGives(c0, s0, c1, s1, keyword);
        var found, bm, draws := Search(cm, host, edb, keyword);
        SearchedMore(c0, s0, c1, s1, cm.ctx, host.bitmaps[edb], found);
        if !found {
          SearchMissed(c0, s0, c1, s1, old(cm.tally));
          ok := false;
          return;
        }
        stk := stk + [bm];
      } else if token == OP_AND {
        var right, left := stk[|stk| - 1], stk[|stk| - 2];
        stk := stk[..|stk| - 2] + [left * right];
      } else if token == OP_OR {
        var right, left := stk[|stk| - 1], stk[|stk| - 2];
        stk := stk[..|stk| - 2] + [left + right];
      } else if token == OP_NOT {
        var word := stk[|stk| - 1];
        stk := stk[..|stk| - 1] + [cm.ctx.allDocs - word];
      }
      i := i + 1;
    }
    result := stk[|stk| - 1];
  }

  lemma CodeAt(code: seq<byte>, i: nat)
    requires i < |code|
    ensures code[i..][0] == code[i] && code[i..][1..] == code[i + 1..]
    ensures i + 1 < |code| ==> code[i..][1] == code[i + 1] && code[i..][2..] == code[i + 2..]
  {
  }

  /** What any number of searches keeps, whether or not they all succeed. */
  ghost predicate Searched(c: ClientContext, s: Store, c': ClientContext, s': Store)
  {
    && c' == c.(CK := c'.CK, KVS := c'.KVS)
    && IndexInv(c', s') && SameView(c, s, c', s')
    && |c'.CK| <= c'.ckMax
    && |c'.CK| >= |c.CK|
    && (Warm(c) ==> Warm(c'))
    && (Fresh(c, s) ==> Fresh(c', s') && NoOverwrite(c.K, s, s'))
    && |c'.KVS| >= |c.KVS| && RealKeys(c') == RealKeys(c)
  }

  lemma SearchedRefl(c: ClientContext, s: Store)
    requires IndexInv(c, s) && |c.CK| <= c.ckMax
    ensures Searched(c, s, c, s)
  {
    hide View, IndexInv, Fresh;
  }

  lemma SearchedFrame(c: ClientContext, s: Store, c': ClientContext, s': Store)
    requires Searched(c, s, c', s')
    ensures c'.allDocs == c.allDocs
  {
    hide SameView, IndexInv, Fresh, NoOverwrite, Warm;
  }

  lemma SearchedGives(c: ClientContext, s: Store, c': ClientContext, s': Store, w: Text)
    requires Searched(c, s, c', s')
    ensures Inv(c', s') && c'.ckMax >= 1 && View(c', s', w) == ViewOf(c, s)(w) && |c'.CK| <= c'.ckMax
  {
    hide Inv, Pool, Fresh, NoOverwrite, Warm, View;
  }

  lemma SearchedMore(c0: ClientContext, s0: Store, c1: ClientContext, s1: Store, c2: ClientContext, s2: Store, ok: bool)
    requires Searched(c0, s0, c1, s1)
    requires Inv(c2, s2) && SameView(c1, s1, c2, s2) && c2 == c1.(CK := c2.CK, KVS := c2.KVS)
    requires c2.KVS.Keys >= c1.KVS.Keys && RealKeys(c2) == RealKeys(c1)
    requires (ok ==> |c2.CK| <= c2.ckMax) && (!ok ==> c2 == c1)
    requires |c2.CK| >= |c1.CK| || |c2.CK| == c2.ckMax
    requires Fresh(c1, s1) ==> Fresh(c2, s2) && NoOverwrite(c2.K, s1, s2)
    requires Pool(c1) ==> Pool(c2)
    ensures Searched(c0, s0, c2, s2)
  {
    hide View, Inv, Pool, Fresh;
    SubsetSize(c1.KVS.Keys, c2.KVS.Keys);
  }

  /** The matching slot numbers of a request, as its reply uses them: a plain SELECT is cut at the limit. */
  function Matches(c: ClientContext, s: Store, req: SelectRequest): (ids: seq<int>)
    requires var r := Run(req.code, req.terms, ViewOf(c, s), c.allDocs, []); r.Stack? && |r.bitmaps| > 0
  {
    var r := Run(req.code, req.terms, ViewOf(c, s), c.allDocs, []);
    var ids := Ids(r.bitmaps[|r.bitmaps| - 1], TOTAL_FILE_NO);
    if req.kind == 0 && 0 <= c.retrievalLimit < |ids| then ids[..c.retrievalLimit] else ids
  }

  function ReplyFor(c: ClientContext, d: DocStore, kind: int, ids: seq<int>): SelectReply
  {
    if 1 <= kind <= 4 then Aggregate(|ids|, AggregateValue(kind, ids)) else Rows(RowsOf(c, d, Names(ids)))
  }

  /** The scan of the final bitmap for matching slots. */
  method CollectIds(bits: Bitmap) returns (ids: seq<int>)
    ensures ids == Ids(bits, TOTAL_FILE_NO)
  {
    ids := [];
    for i := 0 to TOTAL_FILE_NO
      invariant ids == Ids(bits, i)
    {
      if i in bits {
        ids := ids + [i + 1];
      }
    }
  }

  /** The aggregate branches of handle_select. */
  method ComputeAggregate(kind: int, ids: seq<int>) returns (value: int)
    requires 1 <= kind <= 4
    ensures value == AggregateValue(kind, ids)
  {
    value := 0;
    if |ids| > 0 {
      if kind == 1 {
        value := ids[|ids| - 1];
      } else if kind == 2 {
        value := ids[0];
      } else {
        for k := 0 to |ids|
          invariant value == Sum(ids[..k])
        {
          assert ids[..k + 1][..k] == ids[..k];
          value := value + ids[k];
        }
        assert ids[..|ids|] == ids;
        if kind == 4 {
          value := value / |ids|;
        }
      }
    }
  }

  /** handle_select; ok is false when a Search found no bitmap to draw. */
  method HandleSelect(cm: ContextManager, host: Host, edb: int, req: SelectRequest)
    returns (ok: bool, reply: SelectReply)
    requires host.Registered(edb) && Ready(cm.ctx, host.bitmaps[edb], host.docs[edb]) && 0 <= req.kind <= 4
    requires var r := Run(req.code, req.terms, ViewOf(cm.ctx, host.bitmaps[edb]), cm.ctx.allDocs, []);
             r.Stack? && |r.bitmaps| > 0
    modifies cm`ctx, cm`tally, host`bitmaps, host`docs, host`trace
    ensures MissedUnless(ok, old(cm.ctx), old(cm.tally), cm.tally)
    ensures edb in host.bitmaps && host.bitmaps == old(host.bitmaps)[edb := host.bitmaps[edb]]
    ensures edb in host.docs && host.docs == old(host.docs)[edb := host.docs[edb]]
    ensures ok ==> reply == ReplyFor(old(cm.ctx), old(host.docs)[edb], req.kind,
                                     Matches(old(cm.ctx), old(host.bitmaps)[edb], req))
    ensures Queried(old(cm.ctx), old(host.bitmaps)[edb], old(host.docs)[edb],
                    cm.ctx, host.bitmaps[edb], host.docs[edb])
  {
    hide IndexInv, DocInv, SameView, SameContents, View, Warm, Run, Contents, Searched, Queried, Fresh, NoOverwrite;
    hide DocKey, RowsOf, AggregateValue, DocsOk, Ids, ToString;
    ghost var c0, s0, d0 := cm.ctx, host.bitmaps[edb], host.docs[edb];
    reply := Rows([]);
    var finalBm: Bitmap;
    ok, finalBm := EvalBoolExpr(cm, host, edb, req.terms, req.code);
    ghost var c1, s1 := cm.ctx, host.bitmaps[edb];
    QueriedAfterSearch(c0, s0, d0, c1, s1);
    assert host.docs == host.docs[edb := d0];
    if !ok {
      return;
    }
    var docIds := CollectIds(finalBm);
    if req.kind == 0 && |docIds| > cm.ctx.retrievalLimit {
      docIds := docIds[..cm.ctx.retrievalLimit];
    }
    assert docIds == Matches(c0, s0, req);
    assert forall i :: i in docIds ==> i in Ids(finalBm, TOTAL_FILE_NO);
    if req.kind == 0 {
      forall id | id in Names(docIds)
        ensures DocKey(id)
      {
        NamesAreKeys(docIds, id);
      }
      var rows := RetrieveDocs(cm, host, edb, Names(docIds));
      RowsUnchanged(c0, c1, d0, Names(docIds));
      QueriedAfterRetrieve(c0, s0, d0, c1, s1, cm.ctx, host.docs[edb]);
      reply := Rows(rows);
      return;
    }
    var aggValue := ComputeAggregate(req.kind, docIds);
    reply := Aggregate(|docIds|, aggValue);
  }

  lemma NamesAreKeys(ids: seq<int>, id: Text)
    requires (forall i :: i in ids ==> 0 < i <= TOTAL_FILE_NO) && id in Names(ids)
    ensures DocKey(id)
  {
    var k :| 0 <= k < |ids| && Names(ids)[k] == id;
    assert ids[k] in ids;
    DecimalIsKey(ids[k]);
  }

  lemma {:induction false} RowsUnchanged(c: ClientContext, c': ClientContext, d: DocStore, ids: seq<Text>)
    requires c'.docCK == c.docCK && c'.K == c.K
    ensures RowsOf(c', d, ids) == RowsOf(c, d, ids)
  {
    hide StoredSlot;
    if ids != [] {
      RowsUnchanged(c, c', d, ids[..|ids| - 1]);
    }
  }

  /** A SELECT changes no keyword's documents, no slot's contents and no live document. */
  ghost predicate Queried(c: ClientContext, s: Store, d: DocStore, c': ClientContext, s': Store, d': DocStore)
  {
    && c' == c.(CK := c'.CK, KVS := c'.KVS, docCK := c'.docCK, slotVersion := c'.slotVersion)
    && Ready(c', s', d')
    && SameView(c, s, c', s') && SameContents(c, d, c', d')
    && (Warm(c) ==> Warm(c'))
    && |c'.CK| >= |c.CK|
    && (Fresh(c, s) ==> Fresh(c', s') && NoOverwrite(c.K, s, s'))
    && VersionsKept(c, d, c', d', 1)
    && |c'.KVS| >= |c.KVS| && RealKeys(c') == RealKeys(c)
  }

  /** Document meaning depends only on the document fields of the context. */
  lemma SameDocFields(c: ClientContext, c': ClientContext, d: DocStore)
    requires c'.K == c.K && c'.docCK == c.docCK && c'.slotVersion == c.slotVersion
    ensures DocInv(c, d) ==> DocInv(c', d)
    ensures SameContents(c, d, c', d) && (VersionsLag(c, d) ==> VersionsLag(c', d))
  {
    hide StoredSlot, DocLabel, DocKey, Fits;
  }

  lemma QueriedAfterSearch(c: ClientContext, s: Store, d: DocStore, c': ClientContext, s': Store)
    requires Ready(c, s, d) && Searched(c, s, c', s')
    ensures Queried(c, s, d, c', s', d)
    ensures c' == c.(CK := c'.CK, KVS := c'.KVS) && DocInv(c', d)
  {
    hide IndexInv, DocInv, SameView, SameContents, Warm, Fresh, NoOverwrite, VersionsKept;
    SameDocFields(c, c', d);
    VersionsUntouched(c, d, c', 1);
  }

  lemma QueriedAfterRetrieve(c0: ClientContext, s0: Store, d0: DocStore, c1: ClientContext, s1: Store,
                             c2: ClientContext, d2: DocStore)
    requires Queried(c0, s0, d0, c1, s1, d0) && DocsOk(c1, d0, c2, d2) && SameContents(c1, d0, c2, d2)
    requires c1 == c0.(CK := c1.CK, KVS := c1.KVS) && |c2.docCK| <= c2.docCkMax && VersionsKept(c1, d0, c2, d2, 1)
    ensures Queried(c0, s0, d0, c2, s1, d2)
  {
    hide IndexInv, DocInv, Fresh, NoOverwrite, View, Contents, DocKey, VersionsKept;
    VersionsUntouched(c0, d0, c1, 0);
    VersionsKeptTrans(c0, d0, c1, d0, c2, d2, 0, 1);
    SameContentsTrans(c0, d0, c1, d0, c2, d2);
    SameIndexFields(c1, c2, s1);
  }
}
