/** What the cached, versioned keyword index means, and the small steps that keep that meaning. */
module IndexModel {
  import opened Bytes
  import opened BitPack
  import opened Labels
  import opened Context

  type Store = map<Label, Cipher>

  /** load_bitmap_from_storage */
  function Load(K: Text, store: Store, w: Text, version: int): Bitmap
  {
    var tag := BitmapLabel(K, w, version);
    if tag in store then DecryptBitmap(store[tag], BitmapKey(K, w, version)) else {}
  }

  predicate StoredAt(K: Text, store: Store, w: Text, version: int)
  {
    var tag := BitmapLabel(K, w, version);
    && tag in store
    && store[tag].key == BitmapKey(K, w, version)
    && |store[tag].plain| == TOTAL_FILE_NO / 8
  }

  /** The set of documents a keyword stands for: cached, else stored, else empty. */
  function View(c: ClientContext, store: Store, w: Text): Bitmap
  {
    if w in c.CK then c.CK[w]
    else if w in c.KVS then Load(c.K, store, w, c.KVS[w])
    else {}
  }

  predicate KeyOk(w: Text)
  {
    (Real(w) || Dummyish(w)) && 0 < |w| <= MAX_KEYWORD_LEN
  }

  ghost predicate Inv(c: ClientContext, store: Store)
  {
    && (forall w :: w in c.KVS ==> KeyOk(w) && c.KVS[w] >= 0)
    && (forall w :: w in c.CK ==> KeyOk(w) && (w in c.KVS || Dummyish(w)) && Within(c.CK[w], TOTAL_FILE_NO))
    && (forall w :: w in c.KVS && (w !in c.CK || Dummyish(w)) ==> StoredAt(c.K, store, w, c.KVS[w]))
    && (forall w :: w in c.KVS && w !in c.CK && Dummyish(w) ==> Load(c.K, store, w, c.KVS[w]) == {})
    && (forall w :: w in c.CK && Dummyish(w) ==> c.CK[w] == {})
    && (forall w :: w in c.words ==> w in c.KVS)
  }

  ghost predicate SameView(c: ClientContext, s: Store, c': ClientContext, s': Store)
  {
    forall w :: View(c', s', w) == View(c, s, w)
  }

  /** Only the view of one word changes, to the given set. */
  ghost predicate ViewSet(c: ClientContext, s: Store, c': ClientContext, s': Store, word: Text, bits: Bitmap)
  {
    forall w :: View(c', s', w) == if w == word then bits else View(c, s, w)
  }

  /** Every stored label of a real keyword carries a version the keyword has already reached. */
  ghost predicate Fresh(c: ClientContext, store: Store)
  {
    forall w, v: nat :: Real(w) && BitmapLabel(c.K, w, v) in store ==> w in c.KVS && v <= c.KVS[w]
  }

  /** No entry of a real keyword has been lost or overwritten. */
  ghost predicate NoOverwrite(K: Text, s: Store, s': Store)
  {
    forall w, v: nat :: Real(w) && BitmapLabel(K, w, v) in s
      ==> BitmapLabel(K, w, v) in s' && s'[BitmapLabel(K, w, v)] == s[BitmapLabel(K, w, v)]
  }

  function DummyIndices(kvs: map<Text, int>, n: int): set<int>
  {
    set i | 0 <= i < n && DummyName(i) in kvs
  }

  /** Placeholders are numbered below dummy_size, and at least dummy_count of them can still be consumed. */
  ghost predicate Pool(c: ClientContext)
  {
    && 0 <= c.dummySize
    && c.dummyCount <= |DummyIndices(c.KVS, c.dummySize)|
    && (forall i: nat :: i >= c.dummySize ==> DummyName(i) !in c.KVS && DummyName(i) !in c.CK)
  }

  /** The keywords proper, without the placeholders. */
  function RealKeys(c: ClientContext): set<Text>
  {
    set w | w in c.KVS && Real(w)
  }

  function WordSet(words: seq<Text>): set<Text>
  {
    set w | w in words
  }

  predicate NoDup<T(==)>(s: seq<T>)
  {
    forall i, j :: 0 <= i < j < |s| ==> s[i] != s[j]
  }

  lemma DummyView(c: ClientContext, store: Store, w: Text)
    requires Inv(c, store) && Dummyish(w)
    ensures View(c, store, w) == {}
  {
  }

  lemma ViewWithin(c: ClientContext, store: Store, w: Text)
    requires Inv(c, store)
    ensures Within(View(c, store, w), TOTAL_FILE_NO)
  {
  }

  lemma RealNotDummy(w: Text)
    requires Real(w)
    ensures !Dummyish(w) && 0 < |w| <= MAX_KEYWORD_LEN
  {
  }

  // ----- the small steps

  function VersionOf(c: ClientContext, w: Text): int
  {
    if w in c.KVS then c.KVS[w] else 0
  }

  /** CK[w] = bits */
  function Cached(c: ClientContext, w: Text, bits: Bitmap): ClientContext
  {
    c.(CK := c.CK[w := bits])
  }

  /** One round of store_bitmap_batch: the next version takes the cached bitmap's place. */
  function WrittenOut(c: ClientContext, w: Text): ClientContext
  {
    c.(KVS := c.KVS[w := VersionOf(c, w) + 1], CK := c.CK - {w})
  }

  function OutEntry(c: ClientContext, w: Text): (Label, Cipher)
    requires w in c.CK
  {
    var next := VersionOf(c, w) + 1;
    (BitmapLabel(c.K, w, next), EncryptBitmap(c.CK[w], BitmapKey(c.K, w, next)))
  }

  /** A word enters the index with version 1. */
  function Entered(c: ClientContext, w: Text, bits: Bitmap): ClientContext
  {
    c.(CK := c.CK[w := bits], KVS := c.KVS[w := 1], words := c.words + [w])
  }

  /** std::remove and erase */
  function Without(words: seq<Text>, d: Text): (r: seq<Text>)
    ensures forall w :: w in r <==> w in words && w != d
  {
    if words == [] then []
    else if words[0] == d then Without(words[1..], d)
    else [words[0]] + Without(words[1..], d)
  }

  function Consumed(c: ClientContext, d: Text): ClientContext
  {
    c.(KVS := c.KVS - {d}, words := Without(c.words, d), dummyCount := c.dummyCount - 1)
  }

  lemma LoadWithin(K: Text, store: Store, w: Text, version: int)
    requires StoredAt(K, store, w, version)
    ensures Within(Load(K, store, w, version), TOTAL_FILE_NO)
  {
    hide BitmapLabel, BitmapKey;
  }

  /** Caching what storage holds changes no view. */
  lemma FillKeeps(c: ClientContext, s: Store, w: Text)
    requires Inv(c, s) && w in c.KVS && w !in c.CK
    ensures var c' := Cached(c, w, Load(c.K, s, w, c.KVS[w]));
            Inv(c', s) && SameView(c, s, c', s)
  {
    hide Load, StoredAt, Real, Dummyish;
    LoadWithin(c.K, s, w, c.KVS[w]);
  }

  lemma CacheSets(c: ClientContext, s: Store, w: Text, bits: Bitmap)
    requires Inv(c, s) && w in c.KVS && Real(w) && Within(bits, TOTAL_FILE_NO)
    ensures var c' := Cached(c, w, bits);
            Inv(c', s) && ViewSet(c, s, c', s, w, bits)
  {
    hide Load, StoredAt, Real, Dummyish;
    RealNotDummy(w);
  }

  lemma EnterSets(c: ClientContext, s: Store, w: Text, bits: Bitmap)
    requires Inv(c, s) && Real(w) && Within(bits, TOTAL_FILE_NO)
    ensures var c' := Entered(c, w, bits);
            Inv(c', s) && ViewSet(c, s, c', s, w, bits)
  {
    hide Load, StoredAt, Real, Dummyish;
    RealNotDummy(w);
  }

  lemma ConsumeKeeps(c: ClientContext, s: Store, d: Text)
    requires Inv(c, s) && Dummyish(d)
    ensures var c' := Consumed(c, d);
            Inv(c', s) && SameView(c, s, c', s)
  {
    hide Load, StoredAt, Real, Dummyish;
  }

  /** Writing a cached bitmap under its next version changes no view, even where placeholder labels collide. */
  lemma WriteOutKeeps(c: ClientContext, s: Store, w: Text)
    requires Inv(c, s) && w in c.CK
    ensures var c', e := WrittenOut(c, w), OutEntry(c, w);
            Inv(c', s[e.0 := e.1]) && SameView(c, s, c', s[e.0 := e.1])
  {
    hide Inv, SameView, WrittenOut, OutEntry;
    WriteOutInv(c, s, w);
    WriteOutView(c, s, w);
  }

  lemma WriteOutInv(c: ClientContext, s: Store, w: Text)
    requires Inv(c, s) && w in c.CK
    ensures var c', e := WrittenOut(c, w), OutEntry(c, w); Inv(c', s[e.0 := e.1])
  {
    hide Load, StoredAt, Real, Dummyish, BitmapLabel, BitmapKey, EncryptBitmap;
    WrittenLoads(c.K, s, w, VersionOf(c, w) + 1, c.CK[w]);
    forall x | x in c.KVS && x != w && (x !in c.CK || Dummyish(x)) {
      OtherLoads(c, s, w, x);
    }
  }

  lemma WriteOutView(c: ClientContext, s: Store, w: Text)
    requires Inv(c, s) && w in c.CK
    ensures var c', e := WrittenOut(c, w), OutEntry(c, w); SameView(c, s, c', s[e.0 := e.1])
  {
    hide Load, StoredAt, Real, Dummyish, BitmapLabel, BitmapKey, EncryptBitmap;
    WrittenLoads(c.K, s, w, VersionOf(c, w) + 1, c.CK[w]);
    InvFacts(c, s, w);
    forall x | x in c.KVS && x != w && x !in c.CK {
      OtherLoads(c, s, w, x);
    }
    hide Inv;
  }

  lemma WrittenLoads(K: Text, s: Store, w: Text, v: int, bits: Bitmap)
    requires Within(bits, TOTAL_FILE_NO)
    ensures var s' := s[BitmapLabel(K, w, v) := EncryptBitmap(bits, BitmapKey(K, w, v))];
            StoredAt(K, s', w, v) && Load(K, s', w, v) == bits
  {
    DecryptEncrypt(bits, BitmapKey(K, w, v));
    hide BitmapLabel, BitmapKey, DecryptBitmap;
  }

  /** A stored word keeps its bitmap when another one is written: the labels differ, or both bitmaps are empty. */
  lemma OtherLoads(c: ClientContext, s: Store, w: Text, x: Text)
    requires Inv(c, s) && w in c.CK && x in c.KVS && x != w && (x !in c.CK || Dummyish(x))
    ensures var e := OutEntry(c, w);
            && StoredAt(c.K, s[e.0 := e.1], x, c.KVS[x])
            && (x !in c.CK ==> Load(c.K, s[e.0 := e.1], x, c.KVS[x]) == Load(c.K, s, x, c.KVS[x]))
  {
    var next, v := VersionOf(c, w) + 1, c.KVS[x];
    if BitmapLabel(c.K, x, v) == BitmapLabel(c.K, w, next) {
      LabelKeyAgree(c.K, x, v, w, next);
      WrittenLoads(c.K, s, w, next, c.CK[w]);
      if Real(x) {
        RealLabelUnique(c.K, x, v, w, next);
      } else if Real(w) {
        RealLabelUnique(c.K, w, next, x, v);
      } else {
        hide BitmapLabel, BitmapKey, DecryptBitmap, Stem, Real, Unpack;
        assert c.CK[w] == {};
      }
    }
    hide BitmapLabel, BitmapKey, Stem, Real, Unpack;
  }

  // ----- words that share labels

  /** What a write-out does to another stored word: nothing, unless their labels are equal. */
  lemma WriteOutReaches(c: ClientContext, s: Store, w: Text, x: Text)
    requires w in c.CK && Within(c.CK[w], TOTAL_FILE_NO) && VersionOf(c, w) >= 0
    requires x in c.KVS && x !in c.CK && c.KVS[x] >= 0
    ensures var c', e := WrittenOut(c, w), OutEntry(c, w);
            View(c', s[e.0 := e.1], x) == if BitmapLabel(c.K, x, c.KVS[x]) == e.0 then c.CK[w] else View(c, s, x)
  {
    var next, v := VersionOf(c, w) + 1, c.KVS[x];
    WrittenLoads(c.K, s, w, next, c.CK[w]);
    if BitmapLabel(c.K, x, v) == BitmapLabel(c.K, w, next) {
      LabelKeyAgree(c.K, x, v, w, next);
    }
    hide BitmapLabel, BitmapKey, DecryptBitmap, EncryptBitmap;
  }

  /** One word's bitmap stored under one version. */
  function Put(K: Text, s: Store, w: Text, v: nat, bits: Bitmap): Store
  {
    s[BitmapLabel(K, w, v) := EncryptBitmap(bits, BitmapKey(K, w, v))]
  }

  /**
   Whatever the store, storing one word can replace the stored bitmap of another at some versions exactly
   if one word is the other followed by digits that could open a version number.
   */
  lemma OverwriteExactly(K: Text, s: Store, w: Text, x: Text, mine: Bitmap, theirs: Bitmap)
    requires w != x && mine != theirs && Within(mine, TOTAL_FILE_NO) && Within(theirs, TOTAL_FILE_NO)
    ensures (exists v: nat, u: nat ::
               v > 0 && u > 0 && Load(K, Put(K, Put(K, s, x, u, theirs), w, v, mine), x, u) != theirs)
       <==> DigitExtension(w, x) || DigitExtension(x, w)
  {
    LabelCollision(K, w, x);
    forall v: nat, u: nat
      ensures Load(K, Put(K, Put(K, s, x, u, theirs), w, v, mine), x, u)
           == if BitmapLabel(K, w, v) == BitmapLabel(K, x, u) then mine else theirs
    {
      PutTwice(K, s, w, v, mine, x, u, theirs);
    }
    if DigitExtension(w, x) {
      var v := CollidingVersion(K, w, x, 1);
    } else if DigitExtension(x, w) {
      var u := CollidingVersion(K, x, w, 1);
    }
    hide Load, Put, BitmapLabel, DigitExtension;
  }

  /** For example, "a" at version 11 takes the place of "a1" at version 1. */
  lemma SharedLabelExample(K: Text, s: Store)
    ensures var a, a1 := Ascii("a"), Ascii("a1");
            Load(K, Put(K, Put(K, s, a1, 1, {0}), a, 11, {1}), a1, 1) == {1}
  {
    var a, a1 := Ascii("a"), Ascii("a1");
    assert Decimal(11) == Decimal(1) + Decimal(1);
    assert a + Decimal(11) == a1 + Decimal(1);
    PutTwice(K, s, a, 11, {1}, a1, 1, {0});
  }

  lemma PutTwice(K: Text, s: Store, w: Text, v: nat, mine: Bitmap, x: Text, u: nat, theirs: Bitmap)
    requires Within(mine, TOTAL_FILE_NO) && Within(theirs, TOTAL_FILE_NO)
    ensures Load(K, Put(K, Put(K, s, x, u, theirs), w, v, mine), x, u)
         == if BitmapLabel(K, w, v) == BitmapLabel(K, x, u) then mine else theirs
  {
    WrittenLoads(K, s, x, u, theirs);
    WrittenLoads(K, Put(K, s, x, u, theirs), w, v, mine);
    if BitmapLabel(K, w, v) == BitmapLabel(K, x, u) {
      LabelKeyAgree(K, w, v, x, u);
    }
    hide BitmapLabel, BitmapKey, DecryptBitmap, EncryptBitmap;
  }

  /** No two of the index's words, cached or stored, are related in that way. */
  predicate Apart(c: ClientContext)
  {
    forall w, x :: w in c.KVS.Keys + c.CK.Keys && x in c.KVS.Keys + c.CK.Keys && w != x ==> !DigitExtension(w, x)
  }

  /** Then a write-out keeps every view, whatever the words look like. */
  lemma ApartKeeps(c: ClientContext, s: Store, w: Text)
    requires Apart(c) && w in c.CK && Within(c.CK[w], TOTAL_FILE_NO) && VersionOf(c, w) >= 0
    requires forall x :: x in c.KVS ==> c.KVS[x] >= 0
    ensures var c', e := WrittenOut(c, w), OutEntry(c, w); SameView(c, s, c', s[e.0 := e.1])
  {
    var next := VersionOf(c, w) + 1;
    WrittenLoads(c.K, s, w, next, c.CK[w]);
    var c', e := WrittenOut(c, w), OutEntry(c, w);
    hide BitmapKey, EncryptBitmap, Load, DigitExtension;
    forall x
      ensures View(c', s[e.0 := e.1], x) == View(c, s, x)
    {
      if x in c.KVS && x !in c.CK {
        WriteOutReaches(c, s, w, x);
        LabelCollision(c.K, w, x);
        assert BitmapLabel(c.K, w, next) != BitmapLabel(c.K, x, c.KVS[x]);
      }
    }
  }

  lemma WriteOutFresh(c: ClientContext, s: Store, w: Text)
    requires Inv(c, s) && w in c.CK && Fresh(c, s)
    ensures var c', e := WrittenOut(c, w), OutEntry(c, w);
            Fresh(c', s[e.0 := e.1]) && NoOverwrite(c.K, s, s[e.0 := e.1])
  {
    var next := VersionOf(c, w) + 1;
    var c', e := WrittenOut(c, w), OutEntry(c, w);
    forall x, v: nat | Real(x) && BitmapLabel(c.K, x, v) == e.0
      ensures x == w && v == next
    {
      RealLabelUnique(c.K, x, v, w, next);
    }
  }

  lemma KeepsTrans(K: Text, s0: Store, s1: Store, s2: Store)
    requires NoOverwrite(K, s0, s1) && NoOverwrite(K, s1, s2)
    ensures NoOverwrite(K, s0, s2)
  {
    hide Real, BitmapLabel;
  }

  /** If no stored version of a real keyword was ahead of its counter, none is now, and none was overwritten. */
  ghost predicate WriteOnce(c: ClientContext, s: Store, c': ClientContext, s': Store)
  {
    Fresh(c, s) ==> Fresh(c', s') && NoOverwrite(c.K, s, s')
  }

  lemma WriteOnceRefl(c: ClientContext, s: Store)
    ensures WriteOnce(c, s, c, s)
  {
  }

  lemma WriteOnceTrans(c0: ClientContext, s0: Store, c1: ClientContext, s1: Store, c2: ClientContext, s2: Store)
    requires WriteOnce(c0, s0, c1, s1) && WriteOnce(c1, s1, c2, s2) && c1.K == c0.K
    ensures WriteOnce(c0, s0, c2, s2)
  {
    hide Fresh, NoOverwrite;
    if Fresh(c0, s0) {
      KeepsTrans(c0.K, s0, s1, s2);
    }
  }

  // ----- whole batches

  /** Versions after each of the words has been written out once, in order. */
  function Bumped(kvs: map<Text, int>, words: seq<Text>): map<Text, int>
  {
    if words == [] then kvs
    else
      var w, k := words[|words| - 1], Bumped(kvs, words[..|words| - 1]);
      k[w := (if w in k then k[w] else 0) + 1]
  }

  function AllWritten(c: ClientContext, words: seq<Text>): ClientContext
  {
    c.(CK := c.CK - WordSet(words), KVS := Bumped(c.KVS, words))
  }

  predicate Batchable(c: ClientContext, words: seq<Text>)
  {
    NoDup(words) && forall w :: w in words ==> w in c.CK
  }

  function OutEntries(c: ClientContext, words: seq<Text>): (outs: seq<(Label, Cipher)>)
    requires Batchable(c, words)
    ensures |outs| == |words|
  {
    if words == [] then []
    else
      var n := |words| - 1;
      OutEntries(c, words[..n]) + [OutEntry(AllWritten(c, words[..n]), words[n])]
  }

  lemma BatchStart(c: ClientContext)
    ensures AllWritten(c, []) == c && Batchable(c, []) && OutEntries(c, []) == []
  {
    assert c.CK - {} == c.CK;
  }

  lemma AllWrittenSnoc(c: ClientContext, words: seq<Text>)
    requires words != []
    ensures AllWritten(c, words) == WrittenOut(AllWritten(c, words[..|words| - 1]), words[|words| - 1])
  {
    var n := |words| - 1;
    assert words == words[..n] + [words[n]];
    assert WordSet(words) == WordSet(words[..n]) + {words[n]};
    assert c.CK - WordSet(words) == c.CK - WordSet(words[..n]) - {words[n]};
  }

  lemma {:induction false} BatchKeeps(c: ClientContext, s: Store, words: seq<Text>)
    requires Inv(c, s) && Batchable(c, words)
    ensures var c', s' := AllWritten(c, words), ApplyStores(s, OutEntries(c, words));
            Inv(c', s') && SameView(c, s, c', s')
    decreases |words|
  {
    hide Load, StoredAt, Real, Dummyish, BitmapLabel, BitmapKey, EncryptBitmap, Inv, KeyOk, View;
    if words == [] {
      assert AllWritten(c, words) == c by { assert c.CK - {} == c.CK; }
    } else {
      var n := |words| - 1;
      BatchKeeps(c, s, words[..n]);
      AllWrittenSnoc(c, words);
      assert OutEntries(c, words)[..n] == OutEntries(c, words[..n]);
      WriteOutKeeps(AllWritten(c, words[..n]), ApplyStores(s, OutEntries(c, words[..n])), words[n]);
    }
  }

  lemma {:induction false} BatchFresh(c: ClientContext, s: Store, words: seq<Text>)
    requires Inv(c, s) && Batchable(c, words) && Fresh(c, s)
    ensures var c', s' := AllWritten(c, words), ApplyStores(s, OutEntries(c, words));
            Fresh(c', s') && NoOverwrite(c.K, s, s')
    decreases |words|
  {
    hide Load, StoredAt, Real, Dummyish, BitmapKey, EncryptBitmap, Inv, KeyOk, View;
    if words == [] {
      assert AllWritten(c, words) == c by { assert c.CK - {} == c.CK; }
    } else {
      var n := |words| - 1;
      BatchFresh(c, s, words[..n]);
      BatchKeeps(c, s, words[..n]);
      AllWrittenSnoc(c, words);
      assert OutEntries(c, words)[..n] == OutEntries(c, words[..n]);
      WriteOutFresh(AllWritten(c, words[..n]), ApplyStores(s, OutEntries(c, words[..n])), words[n]);
    }
  }

  lemma BatchExtend(c: ClientContext, words: seq<Text>, i: nat)
    requires Batchable(c, words) && i < |words|
    ensures Batchable(c, words[..i]) && Batchable(c, words[..i + 1])
    ensures words[i] in AllWritten(c, words[..i]).CK
    ensures AllWritten(c, words[..i + 1]) == WrittenOut(AllWritten(c, words[..i]), words[i])
    ensures OutEntries(c, words[..i + 1])
         == OutEntries(c, words[..i]) + [OutEntry(AllWritten(c, words[..i]), words[i])]
  {
    hide OutEntry;
    assert words[..i + 1][..i] == words[..i];
    AllWrittenSnoc(c, words[..i + 1]);
    assert words[i] !in WordSet(words[..i]);
  }

  lemma InvFacts(c: ClientContext, s: Store, w: Text)
    requires Inv(c, s)
    ensures w in c.words ==> w in c.KVS
    ensures w in c.KVS && (w !in c.CK || Dummyish(w)) ==> StoredAt(c.K, s, w, c.KVS[w])
    ensures w in c.KVS ==> KeyOk(w) && c.KVS[w] >= 0
    ensures w in c.CK ==> w in c.KVS || Dummyish(w)
  {
    hide StoredAt, KeyOk, Dummyish, Load;
  }

  lemma {:induction false} BumpedKeys(kvs: map<Text, int>, words: seq<Text>)
    ensures Bumped(kvs, words).Keys == kvs.Keys + WordSet(words)
    ensures NoDup(words) ==> forall w :: w in Bumped(kvs, words) ==>
      Bumped(kvs, words)[w] == (if w in kvs then kvs[w] else 0) + (if w in words then 1 else 0)
  {
    if words != [] {
      var n := |words| - 1;
      BumpedKeys(kvs, words[..n]);
      assert words == words[..n] + [words[n]];
      assert NoDup(words) ==> words[n] !in words[..n];
    }
  }

  lemma BatchSize(c: ClientContext, words: seq<Text>)
    requires Batchable(c, words) && |WordSet(words)| == |words|
    ensures var c' := AllWritten(c, words);
            && |c'.CK| == |c.CK| - |words|
            && c'.KVS.Keys >= c.KVS.Keys
            && c' == c.(CK := c'.CK, KVS := c'.KVS)
  {
    BumpedKeys(c.KVS, words);
    var c' := AllWritten(c, words);
    assert c'.CK.Keys == c.CK.Keys - WordSet(words);
    assert WordSet(words) <= c.CK.Keys;
  }

  /** Only a placeholder can be cached without a version, so writing entries out adds no keyword proper. */
  lemma BatchRealKeys(c: ClientContext, s: Store, words: seq<Text>)
    requires Inv(c, s) && Batchable(c, words)
    ensures RealKeys(AllWritten(c, words)) == RealKeys(c)
  {
    BumpedKeys(c.KVS, words);
    forall w | w in words && Real(w)
      ensures w in c.KVS
    {
      InvFacts(c, s, w);
      RealNotDummy(w);
    }
    hide Inv, Real;
    assert forall w :: w in AllWritten(c, words).KVS <==> w in c.KVS || w in words;
  }

  /** Writing entries out keeps the placeholder pool: keys are only added, and only from the cache. */
  lemma BatchPool(c: ClientContext, words: seq<Text>)
    requires Pool(c) && Batchable(c, words)
    ensures Pool(AllWritten(c, words))
  {
    hide DummyName;
    BumpedKeys(c.KVS, words);
    var c' := AllWritten(c, words);
    SubsetSize(DummyIndices(c.KVS, c.dummySize), DummyIndices(c'.KVS, c'.dummySize));
  }

  lemma {:induction false} SubsetSize<T>(a: set<T>, b: set<T>)
    requires a <= b
    ensures |a| <= |b|
  {
    assert b == a + (b - a);
  }
}
