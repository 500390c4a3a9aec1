/** The sealed context metadata: serialize_context_metadata and deserialize_context_metadata. */
module Snapshot {
  import opened Bytes
  import opened BitPack
  import opened Labels
  import opened Context
  import opened Scalars
  import opened Cursor
  import opened IndexModel

  const KEY_LEN: nat := 16

  // ----- writing

  predicate Storable(key: Text)
  {
    0 < |key| <= MAX_KEYWORD_LEN
  }

  function Entry(key: Text, version: int): Text
  {
    U32(|key|) + key + U32(version)
  }

  /** The entry of one key; a key of a bad length is left out. */
  function EntryOf(kvs: map<Text, int>, w: Text): Text
    requires w in kvs
  {
    if Storable(w) then Entry(w, kvs[w]) else []
  }

  /** The keyword entries in iteration order. */
  function Entries(kvs: map<Text, int>, order: seq<Text>): Text
    requires forall w :: w in order ==> w in kvs
  {
    if order == [] then []
    else
      var w := order[|order| - 1];
      assert w in order;
      Entries(kvs, order[..|order| - 1]) + EntryOf(kvs, w)
  }

  function Versions(v: seq<int>): Text
  {
    if v == [] then [] else Versions(v[..|v| - 1]) + U32(v[|v| - 1])
  }

  function Identity(c: ClientContext): Text
  {
    U32(c.clientId) + (c.K + (U32(|c.encKey|) + c.encKey))
  }

  function Limits(c: ClientContext): Text
  {
    U32(c.ckMax) + (U32(c.docCkMax) + (U32(c.dummyCount) + (U32(c.dummySize)
      + (U32(c.endofDocId) + U32(|c.KVS|)))))
  }

  /** Everything before the keyword entries. */
  function Head(c: ClientContext): Text
  {
    Identity(c) + Limits(c)
  }

  /** The optional fields at the end; an older snapshot stops after the first n of them. */
  function Tail(c: ClientContext, n: nat): Text
  {
    if n == 0 then []
    else U32(c.replenishCounter) + (if n == 1 then []
      else U32(c.retrievalLimit) + (if n == 2 then []
      else U32(c.retrievalThreshold) + (if n == 3 then []
      else U32(c.retrievalBatch) + (if n == 4 then [] else Versions(c.slotVersion)))))
  }

  function SnapshotOf(c: ClientContext, order: seq<Text>, n: nat): Text
    requires forall w :: w in order ==> w in c.KVS
  {
    Head(c) + (Entries(c.KVS, order) + (Pack(c.allDocs, TOTAL_FILE_NO) + Tail(c, n)))
  }

  /** An iteration order of the key map. */
  predicate OrderOf(kvs: map<Text, int>, order: seq<Text>)
  {
    NoDup(order) && WordSet(order) == kvs.Keys
  }

  /** Iterates an unordered map: some order of its keys. */
  method SomeOrder(keys: set<Text>) returns (order: seq<Text>)
    ensures NoDup(order) && WordSet(order) == keys && |order| == |keys|
  {
    order := [];
    var rest := keys;
    while rest != {}
      invariant NoDup(order) && rest == keys - WordSet(order) && WordSet(order) <= keys
      invariant |order| + |rest| == |keys|
      decreases rest
    {
      var w :| w in rest;
      assert WordSet(order + [w]) == WordSet(order) + {w};
      rest, order := rest - {w}, order + [w];
    }
  }

  method SerializeHead(c: ClientContext) returns (buf: Text)
    ensures buf == Head(c)
  {
    hide U32;
    buf := U32(c.clientId);
    buf := buf + c.K;
    buf := buf + U32(|c.encKey|);
    if |c.encKey| > 0 {
      buf := buf + c.encKey;
    }
    assert buf == Identity(c);
    ghost var limits := U32(c.ckMax);
    buf := buf + U32(c.ckMax);
    assert buf == Identity(c) + limits;
    buf, limits := buf + U32(c.docCkMax), limits + U32(c.docCkMax);
    assert buf == Identity(c) + limits;
    buf, limits := buf + U32(c.dummyCount), limits + U32(c.dummyCount);
    assert buf == Identity(c) + limits;
    buf, limits := buf + U32(c.dummySize), limits + U32(c.dummySize);
    assert buf == Identity(c) + limits;
    buf, limits := buf + U32(c.endofDocId), limits + U32(c.endofDocId);
    assert buf == Identity(c) + limits;
    buf, limits := buf + U32(|c.KVS|), limits + U32(|c.KVS|);
    assert buf == Identity(c) + limits;
    assert limits == Limits(c);
  }

  lemma EntriesStep(kvs: map<Text, int>, keys: seq<Text>, i: nat)
    requires i < |keys| && forall w :: w in keys ==> w in kvs
    ensures forall w :: w in keys[..i + 1] ==> w in kvs
    ensures Entries(kvs, keys[..i + 1]) == Entries(kvs, keys[..i]) + EntryOf(kvs, keys[i])
  {
    hide EntryOf;
    assert keys[..i + 1][..i] == keys[..i];
  }

  method SerializeEntries(kvs: map<Text, int>) returns (buf: Text, ghost order: seq<Text>)
    ensures OrderOf(kvs, order) && (forall w :: w in order ==> w in kvs) && buf == Entries(kvs, order)
  {
    hide U32, Entries;
    buf := [];
    var keys := SomeOrder(kvs.Keys);
    order := keys;
    OrderedKeys(kvs, keys);
    hide OrderOf;
    NoEntries(kvs, keys[..0]);
    for i := 0 to |keys|
      invariant buf == Entries(kvs, keys[..i])
    {
      var key := keys[i];
      EntriesStep(kvs, keys, i);
      if !(|key| == 0 || |key| > MAX_KEYWORD_LEN) {
        buf := buf + (U32(|key|) + key + U32(kvs[key]));
      }
    }
    assert keys[..|keys|] == keys;
  }

  lemma NoEntries(kvs: map<Text, int>, keys: seq<Text>)
    requires keys == []
    ensures Entries(kvs, keys) == []
  {
  }

  lemma OrderedKeys(kvs: map<Text, int>, keys: seq<Text>)
    requires OrderOf(kvs, keys)
    ensures forall w :: w in keys ==> w in kvs
  {
    assert forall w :: w in keys ==> w in WordSet(keys);
  }

  method SerializeTail(c: ClientContext) returns (buf: Text)
    ensures buf == Tail(c, 5)
  {
    hide U32;
    var versions: Text := [];
    for i := 0 to |c.slotVersion|
      invariant versions == Versions(c.slotVersion[..i])
    {
      assert c.slotVersion[..i + 1][..i] == c.slotVersion[..i];
      versions := versions + U32(c.slotVersion[i]);
    }
    assert c.slotVersion[..|c.slotVersion|] == c.slotVersion;
    buf := U32(c.replenishCounter) + (U32(c.retrievalLimit) + (U32(c.retrievalThreshold)
      + (U32(c.retrievalBatch) + versions)));
  }

  /** The complete snapshot of c with its keys in this order. */
  predicate IsSnapshot(c: ClientContext, order: seq<Text>, buf: Text)
  {
    OrderOf(c.KVS, order) && (forall w :: w in order ==> w in c.KVS) && buf == SnapshotOf(c, order, 5)
  }

  /** serialize_context_metadata */
  method SerializeContextMetadata(c: ClientContext) returns (buf: Text)
    ensures exists order :: IsSnapshot(c, order, buf)
  {
    hide Head, Entries, Tail, Pack, OrderOf;
    var head := SerializeHead(c);
    var entries, order := SerializeEntries(c.KVS);
    var allDocsVec := BitsetToUint8Array(c.allDocs, TOTAL_FILE_NO);
    var tail := SerializeTail(c);
    buf := head + (entries + (allDocsVec + tail));
    assert IsSnapshot(c, order, buf);
  }

  // ----- reading

  /** count more keyword entries; emplace keeps the first of two equal keys. */
  function TakeKeys(s: Text, count: nat, kvs: map<Text, int>): Take<map<Text, int>>
  {
    if count == 0 then Got(kvs, s)
    else
      var len := TakeI32(s);
      if len.Short? || len.value <= 0 || len.value > MAX_KEYWORD_LEN then Short
      else
        var key := TakeBytes(len.rest, len.value);
        if key.Short? then Short
        else
          var version := TakeI32(key.rest);
          if version.Short? then Short
          else TakeKeys(version.rest, count - 1,
                        if key.value in kvs then kvs else kvs[key.value := version.value])
  }

  function TakeVersions(s: Text, n: nat): (v: seq<int>)
    requires |s| == 4 * n
    ensures |v| == n
  {
    seq(n, i requires 0 <= i < n => ReadU32(s, 4 * i))
  }

  datatype Restored = Rejected | Restored(ctx: ClientContext)

  /** The fields up to the key count. */
  function ParseHead(s: Text, blank: ClientContext): Take<(ClientContext, nat)>
  {
    var clientId := TakeI32(s);
    if clientId.Short? then Short else
    var K := TakeBytes(clientId.rest, KEY_LEN);
    if K.Short? then Short else
    var encLen := TakeI32(K.rest);
    if encLen.Short? || encLen.value < 0 then Short else
    var encKey := TakeBytes(encLen.rest, encLen.value);
    if encKey.Short? then Short else
    ParseLimits(encKey.rest, blank.(clientId := clientId.value, K := K.value, encKey := encKey.value))
  }

  function ParseLimits(s: Text, c: ClientContext): Take<(ClientContext, nat)>
  {
    var ckMax := TakeI32(s);
    if ckMax.Short? then Short else
    var docCkMax := TakeI32(ckMax.rest);
    if docCkMax.Short? then Short else
    var dummyCount := TakeI32(docCkMax.rest);
    if dummyCount.Short? then Short else
    var dummySize := TakeI32(dummyCount.rest);
    if dummySize.Short? then Short else
    var endofDocId := TakeI32(dummySize.rest);
    if endofDocId.Short? then Short else
    var count := TakeI32(endofDocId.rest);
    if count.Short? || count.value < 0 then Short else
    Got((c.(ckMax := ckMax.value, docCkMax := docCkMax.value, dummyCount := dummyCount.value,
            dummySize := dummySize.value, endofDocId := endofDocId.value), count.value), count.rest)
  }

  /** A field that is read only if it is there. */
  function Optional(s: Text, default: int): (int, Text)
  {
    var t := TakeI32(s);
    if t.Short? then (default, s) else (t.value, t.rest)
  }

  function ParseTail(s: Text, c: ClientContext): ClientContext
  {
    var replenish := Optional(s, c.replenishCounter);
    var limit := Optional(replenish.1, c.retrievalLimit);
    var threshold := Optional(limit.1, c.retrievalThreshold);
    var batch := Optional(threshold.1, c.retrievalBatch);
    c.(replenishCounter := replenish.0, retrievalLimit := limit.0, retrievalThreshold := threshold.0,
       retrievalBatch := batch.0, slotVersion := OptionalVersions(batch.1, c.slotVersion))
  }

  function OptionalVersions(s: Text, default: seq<int>): seq<int>
  {
    if 4 * TOTAL_FILE_NO <= |s| then TakeVersions(s[..4 * TOTAL_FILE_NO], TOTAL_FILE_NO) else default
  }

  function WithKeys(c: ClientContext, kvs: map<Text, int>, live: Text): ClientContext
  {
    c.(KVS := kvs, allDocs := Unpack(live))
  }

  /** The keyword entries, the live bitmap and the optional fields. */
  function ParseBody(s: Text, c: ClientContext, count: nat): Restored
  {
    var keys := TakeKeys(s, count, map[]);
    if keys.Short? then Rejected else
    var live := TakeBytes(keys.rest, TOTAL_FILE_NO / 8);
    if live.Short? then Rejected else
    Restored(ParseTail(live.rest, WithKeys(c, keys.value, live.value)))
  }

  /** deserialize_context_metadata, apart from the list of words. */
  function ParseSnapshot(s: Text): Restored
  {
    var head := ParseHead(s, DefaultContext());
    if head.Short? then Rejected else ParseBody(head.rest, head.value.0, head.value.1)
  }

  /** The entries loop of deserialize_context_metadata. */
  method ReadKeys(r: Reader, count: nat) returns (ok: bool, kvs: map<Text, int>)
    requires r.p <= |r.buf|
    modifies r
    ensures r.p <= |r.buf|
    ensures TakeKeys(r.buf[old(r.p)..], count, map[]) == if ok then Got(kvs, r.buf[r.p..]) else Short
  {
    hide TakeI32, TakeBytes;
    kvs := map[];
    var i := 0;
    while i < count
      invariant 0 <= i <= count && r.p <= |r.buf|
      invariant TakeKeys(r.buf[r.p..], count - i, kvs) == TakeKeys(r.buf[old(r.p)..], count, map[])
    {
      var keyLen: int;
      ok, keyLen := r.ReadScalar();
      if !ok {
        return;
      }
      if keyLen <= 0 || keyLen > MAX_KEYWORD_LEN {
        return false, kvs;
      }
      var key: Text;
      ok, key := r.ReadBytes(keyLen);
      if !ok {
        return;
      }
      var version: int;
      ok, version := r.ReadScalar();
      if !ok {
        return;
      }
      kvs := if key in kvs then kvs else kvs[key := version];
      i := i + 1;
    }
    ok := true;
  }

  /** A field that older snapshots lack. */
  method ReadOptional(r: Reader, default: int) returns (v: int)
    requires r.p <= |r.buf|
    modifies r
    ensures r.p <= |r.buf|
    ensures Optional(r.buf[old(r.p)..], default) == (v, r.buf[r.p..])
  {
    var ok, value := r.ReadScalar();
    v := if ok then value else default;
  }

  /** deserialize_context_metadata */
  method DeserializeContextMetadata(buf: Text) returns (ok: bool, restored: ClientContext)
    ensures ok <==> ParseSnapshot(buf).Restored?
    ensures ok ==> restored == ParseSnapshot(buf).ctx.(words := restored.words) && OrderOf(restored.KVS, restored.words)
  {
    hide TakeI32, TakeBytes, TakeKeys, Optional, Unpack;
    restored := DefaultContext();
    var r := new Reader(buf);
    assert buf[0..] == buf;
    var count: nat;
    ok, restored, count := ReadHead(r);
    if !ok {
      return;
    }
    var kvs: map<Text, int>;
    ok, kvs := ReadKeys(r, count);
    if !ok {
      return;
    }
    var allDocsVec: Text;
    ok, allDocsVec := r.ReadBytes(TOTAL_FILE_NO / 8);
    if !ok {
      return;
    }
    var live := Uint8ArrayToBitset(allDocsVec, TOTAL_FILE_NO);
    restored := restored.(KVS := kvs, allDocs := live);
    restored := ReadTail(r, restored);
    var words := SomeOrder(restored.KVS.Keys);
    restored := restored.(words := words);
  }

  method ReadHead(r: Reader) returns (ok: bool, c: ClientContext, count: nat)
    requires r.p == 0
    modifies r
    ensures r.p <= |r.buf|
    ensures ParseHead(r.buf, DefaultContext()) == if ok then Got((c, count), r.buf[r.p..]) else Short
  {
    hide TakeI32, TakeBytes;
    c, count := DefaultContext(), 0;
    assert r.buf[0..] == r.buf;
    var v: int;
    var b: Text;
    ok, v := r.ReadScalar();
    if !ok { return; }
    c := c.(clientId := v);
    ok, b := r.ReadBytes(KEY_LEN);
    if !ok { return; }
    c := c.(K := b);
    ok, v := r.ReadScalar();
    if !ok { return; }
    if v < 0 { return false, c, 0; }
    ok, b := r.ReadBytes(v);
    if !ok { return; }
    c := c.(encKey := b);
    ok, c, count := ReadLimits(r, c);
  }

  method ReadLimits(r: Reader, c0: ClientContext) returns (ok: bool, c: ClientContext, count: nat)
    requires r.p <= |r.buf|
    modifies r
    ensures r.p <= |r.buf|
    ensures ParseLimits(r.buf[old(r.p)..], c0) == if ok then Got((c, count), r.buf[r.p..]) else Short
  {
    hide TakeI32;
    c, count := c0, 0;
    var v: int;
    ok, v := r.ReadScalar();
    if !ok { return; }
    c := c.(ckMax := v);
    ok, v := r.ReadScalar();
    if !ok { return; }
    c := c.(docCkMax := v);
    ok, v := r.ReadScalar();
    if !ok { return; }
    c := c.(dummyCount := v);
    ok, v := r.ReadScalar();
    if !ok { return; }
    c := c.(dummySize := v);
    ok, v := r.ReadScalar();
    if !ok { return; }
    c := c.(endofDocId := v);
    ok, v := r.ReadScalar();
    if !ok { return; }
    if v < 0 { return false, c, 0; }
    count := v;
  }

  method ReadTail(r: Reader, c0: ClientContext) returns (c: ClientContext)
    requires r.p <= |r.buf|
    modifies r
    ensures c == ParseTail(r.buf[old(r.p)..], c0)
  {
    hide Optional;
    var replenish := ReadOptional(r, c0.replenishCounter);
    var limit := ReadOptional(r, c0.retrievalLimit);
    var threshold := ReadOptional(r, c0.retrievalThreshold);
    var batch := ReadOptional(r, c0.retrievalBatch);
    c := c0.(replenishCounter := replenish, retrievalLimit := limit, retrievalThreshold := threshold,
             retrievalBatch := batch);
    if r.p + 4 * TOTAL_FILE_NO <= |r.buf| {
      assert r.buf[r.p..][..4 * TOTAL_FILE_NO] == r.buf[r.p..r.p + 4 * TOTAL_FILE_NO];
      c := c.(slotVersion := TakeVersions(r.buf[r.p..r.p + 4 * TOTAL_FILE_NO], TOTAL_FILE_NO));
    }
  }

  // ----- round trip

  /** A context whose fields all fit the fixed-width format; nothing is asked of its keys. */
  predicate SnapshotFits(c: ClientContext)
  {
    && IsI32(c.clientId) && |c.K| == KEY_LEN && |c.encKey| <= I32_MAX
    && IsI32(c.ckMax) && IsI32(c.docCkMax) && IsI32(c.dummyCount) && IsI32(c.dummySize) && IsI32(c.endofDocId)
    && |c.KVS| <= I32_MAX && (forall w :: w in c.KVS ==> IsI32(c.KVS[w]))
    && Within(c.allDocs, TOTAL_FILE_NO)
    && IsI32(c.replenishCounter) && IsI32(c.retrievalLimit) && IsI32(c.retrievalThreshold) && IsI32(c.retrievalBatch)
    && |c.slotVersion| == TOTAL_FILE_NO && (forall i :: 0 <= i < TOTAL_FILE_NO ==> IsU32(c.slotVersion[i]))
  }

  /** What a snapshot with only the first n optional fields restores: empty caches, missing fields at their defaults. */
  function Cutoff(c: ClientContext, n: nat, blank: ClientContext): ClientContext
  {
    c.(CK := blank.CK, docCK := blank.docCK, words := blank.words,
       replenishCounter := if n >= 1 then c.replenishCounter else blank.replenishCounter,
       retrievalLimit := if n >= 2 then c.retrievalLimit else blank.retrievalLimit,
       retrievalThreshold := if n >= 3 then c.retrievalThreshold else blank.retrievalThreshold,
       retrievalBatch := if n >= 4 then c.retrievalBatch else blank.retrievalBatch,
       slotVersion := if n >= 5 then c.slotVersion else blank.slotVersion)
  }

  lemma Assoc(a: Text, b: Text, c: Text)
    ensures (a + b) + c == a + (b + c)
  {
  }

  lemma LimitsBack(c: ClientContext, rest: Text, blank: ClientContext)
    requires SnapshotFits(c)
    ensures ParseLimits(Limits(c) + rest, blank)
         == Got((blank.(ckMax := c.ckMax, docCkMax := c.docCkMax, dummyCount := c.dummyCount,
                        dummySize := c.dummySize, endofDocId := c.endofDocId), |c.KVS|), rest)
  {
    hide U32, TakeI32;
    var r5 := U32(|c.KVS|) + rest;
    var r4 := U32(c.endofDocId) + r5;
    var r3 := U32(c.dummySize) + r4;
    var r2 := U32(c.dummyCount) + r3;
    var r1 := U32(c.docCkMax) + r2;
    assert Limits(c) + rest == U32(c.ckMax) + r1;
    TakeI32Back(c.ckMax, r1);
    TakeI32Back(c.docCkMax, r2);
    TakeI32Back(c.dummyCount, r3);
    TakeI32Back(c.dummySize, r4);
    TakeI32Back(c.endofDocId, r5);
    TakeI32Back(|c.KVS|, rest);
  }

  lemma HeadBack(c: ClientContext, rest: Text, blank: ClientContext)
    requires SnapshotFits(c)
    ensures ParseHead(Head(c) + rest, blank)
         == Got((blank.(clientId := c.clientId, K := c.K, encKey := c.encKey, ckMax := c.ckMax,
                        docCkMax := c.docCkMax, dummyCount := c.dummyCount, dummySize := c.dummySize,
                        endofDocId := c.endofDocId), |c.KVS|), rest)
  {
    hide U32, TakeI32, Limits, ParseLimits, TakeBytes;
    var r3 := Limits(c) + rest;
    var r2 := U32(|c.encKey|) + (c.encKey + r3);
    var r1 := c.K + r2;
    assert Head(c) + rest == U32(c.clientId) + r1;
    TakeI32Back(c.clientId, r1);
    TakeBytesBack(c.K, r2);
    TakeI32Back(|c.encKey|, c.encKey + r3);
    TakeBytesBack(c.encKey, r3);
    LimitsBack(c, rest, blank.(clientId := c.clientId, K := c.K, encKey := c.encKey));
  }

  lemma {:induction false} EntriesCons(kvs: map<Text, int>, w: Text, order: seq<Text>)
    requires w in kvs && forall x :: x in order ==> x in kvs
    ensures forall x :: x in [w] + order ==> x in kvs
    ensures Entries(kvs, [w] + order) == EntryOf(kvs, w) + Entries(kvs, order)
  {
    hide EntryOf;
    if order == [] {
      assert [w] + order == [w];
      assert [w][..0] == [];
      assert Entries(kvs, [w]) == [] + EntryOf(kvs, w);
    } else {
      var n := |order| - 1;
      var init := order[..n];
      assert ([w] + order)[..|order|] == [w] + init;
      assert ([w] + order)[|order|] == order[n];
      assert order[n] in order;
      EntriesCons(kvs, w, init);
      Assoc(EntryOf(kvs, w), Entries(kvs, init), EntryOf(kvs, order[n]));
    }
  }

  lemma EntryBack(key: Text, version: int, rest: Text, count: nat, m: map<Text, int>)
    requires Storable(key) && IsI32(version) && key !in m && count > 0
    ensures TakeKeys(Entry(key, version) + rest, count, m) == TakeKeys(rest, count - 1, m[key := version])
  {
    hide U32, TakeI32, TakeBytes;
    var tail := U32(version) + rest;
    assert Entry(key, version) + rest == U32(|key|) + (key + tail);
    TakeI32Back(|key|, key + tail);
    TakeBytesBack(key, tail);
    TakeI32Back(version, rest);
  }

  /** t holds m and the entries of order, and nothing else. */
  predicate KeysRead(t: Take<map<Text, int>>, kvs: map<Text, int>, order: seq<Text>, rest: Text, m: map<Text, int>)
    requires forall w :: w in order ==> w in kvs
  {
    && t.Got? && t.rest == rest
    && t.value.Keys == m.Keys + WordSet(order)
    && (forall w :: w in order ==> t.value[w] == kvs[w])
    && (forall w :: w in m ==> t.value[w] == m[w])
  }

  predicate Fetchable(kvs: map<Text, int>, order: seq<Text>, m: map<Text, int>)
  {
    NoDup(order) && forall w :: w in order ==> w in kvs && w !in m && Storable(w) && IsI32(kvs[w])
  }

  lemma FetchableTail(kvs: map<Text, int>, w: Text, others: seq<Text>, m: map<Text, int>)
    requires Fetchable(kvs, [w] + others, m)
    ensures w in kvs && w !in m && Storable(w) && IsI32(kvs[w]) && Fetchable(kvs, others, m[w := kvs[w]])
  {
    hide Storable, IsI32;
    var all := [w] + others;
    assert w in all && forall x :: x in others ==> x in all;
    forall i, j | 0 <= i < j < |others|
      ensures others[i] != others[j]
    {
      assert all[i + 1] != all[j + 1];
    }
    forall i | 0 <= i < |others|
      ensures others[i] != w
    {
      assert all[0] != all[i + 1];
    }
  }

  lemma KeysReadCons(t: Take<map<Text, int>>, kvs: map<Text, int>, w: Text, others: seq<Text>, rest: Text,
                     m: map<Text, int>)
    requires w in kvs && w !in others && w !in m && forall x :: x in others ==> x in kvs
    requires KeysRead(t, kvs, others, rest, m[w := kvs[w]])
    ensures forall x :: x in [w] + others ==> x in kvs
    ensures KeysRead(t, kvs, [w] + others, rest, m)
  {
    assert WordSet([w] + others) == {w} + WordSet(others);
  }

  lemma {:induction false} KeysBack(kvs: map<Text, int>, order: seq<Text>, rest: Text, m: map<Text, int>)
    requires Fetchable(kvs, order, m)
    ensures KeysRead(TakeKeys(Entries(kvs, order) + rest, |order|, m), kvs, order, rest, m)
    decreases |order|
  {
    hide U32, TakeI32, TakeBytes, Entry, Storable, IsI32, Fetchable, KeysRead, Entries, TakeKeys;
    if order == [] {
      NoKeysBack(kvs, rest, m);
    } else {
      var w, others := order[0], order[1..];
      assert order == [w] + others;
      FetchableTail(kvs, w, others, m);
      FetchableFacts(kvs, others, m[w := kvs[w]]);
      EntriesCons(kvs, w, others);
      EntryBack(w, kvs[w], Entries(kvs, others) + rest, |order|, m);
      Assoc(Entry(w, kvs[w]), Entries(kvs, others), rest);
      KeysBack(kvs, others, rest, m[w := kvs[w]]);
      KeysReadCons(TakeKeys(Entries(kvs, order) + rest, |order|, m), kvs, w, others, rest, m);
    }
  }

  lemma NoKeysBack(kvs: map<Text, int>, rest: Text, m: map<Text, int>)
    ensures KeysRead(TakeKeys(Entries(kvs, []) + rest, 0, m), kvs, [], rest, m)
  {
    assert [] + rest == rest;
  }

  lemma FetchableFacts(kvs: map<Text, int>, order: seq<Text>, m: map<Text, int>)
    requires Fetchable(kvs, order, m)
    ensures forall w :: w in order ==> w in kvs && w !in m
  {
  }

  lemma {:induction false} VersionsLength(v: seq<int>)
    ensures |Versions(v)| == 4 * |v|
  {
    if v != [] {
      VersionsLength(v[..|v| - 1]);
    }
  }

  lemma {:induction false} VersionAt(v: seq<int>, i: nat, rest: Text)
    requires i < |v| && forall j :: 0 <= j < |v| ==> IsU32(v[j])
    ensures |Versions(v)| == 4 * |v| && ReadU32(Versions(v) + rest, 4 * i) == v[i]
    decreases |v|
  {
    hide U32, ReadU32;
    VersionsLength(v);
    var n := |v| - 1;
    VersionsLength(v[..n]);
    Assoc(Versions(v[..n]), U32(v[n]), rest);
    if i < n {
      VersionAt(v[..n], i, U32(v[n]) + rest);
    } else {
      ReadU32Back(Versions(v[..n]), v[n], rest);
    }
  }

  lemma VersionsBack(v: seq<int>, default: seq<int>)
    requires |v| == TOTAL_FILE_NO && forall j :: 0 <= j < |v| ==> IsU32(v[j])
    ensures OptionalVersions(Versions(v), default) == v
  {
    VersionsLength(v);
    var s := Versions(v)[..4 * TOTAL_FILE_NO];
    assert s == Versions(v) + [];
    forall i | 0 <= i < |v|
      ensures TakeVersions(s, TOTAL_FILE_NO)[i] == v[i]
    {
      VersionAt(v, i, []);
    }
  }

  lemma OptionalBack(n: int, rest: Text, default: int)
    requires IsI32(n)
    ensures Optional(U32(n) + rest, default) == (n, rest)
    ensures Optional([], default) == (default, [])
  {
    TakeI32Back(n, rest);
  }

  lemma TailBack(c: ClientContext, n: nat, c0: ClientContext)
    requires SnapshotFits(c) && n <= 5
    ensures ParseTail(Tail(c, n), c0) == c0.(
      replenishCounter := if n >= 1 then c.replenishCounter else c0.replenishCounter,
      retrievalLimit := if n >= 2 then c.retrievalLimit else c0.retrievalLimit,
      retrievalThreshold := if n >= 3 then c.retrievalThreshold else c0.retrievalThreshold,
      retrievalBatch := if n >= 4 then c.retrievalBatch else c0.retrievalBatch,
      slotVersion := if n >= 5 then c.slotVersion else c0.slotVersion)
  {
    hide U32, Optional, OptionalVersions;
    var t4 := if n <= 4 then [] else Versions(c.slotVersion);
    var t3 := if n <= 3 then [] else U32(c.retrievalBatch) + t4;
    var t2 := if n <= 2 then [] else U32(c.retrievalThreshold) + t3;
    var t1 := if n <= 1 then [] else U32(c.retrievalLimit) + t2;
    OptionalBack(c.replenishCounter, t1, c0.replenishCounter);
    OptionalBack(c.retrievalLimit, t2, c0.retrievalLimit);
    OptionalBack(c.retrievalThreshold, t3, c0.retrievalThreshold);
    OptionalBack(c.retrievalBatch, t4, c0.retrievalBatch);
    VersionsBack(c.slotVersion, c0.slotVersion);
    NoVersions(c0.slotVersion);
  }

  lemma NoVersions(default: seq<int>)
    ensures OptionalVersions([], default) == default
  {
  }

  lemma SnapshotBack(c: ClientContext, order: seq<Text>, n: nat)
    requires SnapshotFits(c) && OrderOf(c.KVS, order) && n <= 5 && forall w :: w in order ==> w in c.KVS
    requires forall w :: w in c.KVS ==> Storable(w)
    ensures ParseSnapshot(SnapshotOf(c, order, n)) == Restored(Cutoff(c, n, DefaultContext()))
  {
    hide Head, ParseHead, Tail, ParseTail, Entries, TakeKeys, TakeBytes, Pack, Unpack, Storable;
    var blank := DefaultContext();
    var live, tail := Pack(c.allDocs, TOTAL_FILE_NO), Tail(c, n);
    HeadBack(c, Entries(c.KVS, order) + (live + tail), blank);
    OrderSize(c.KVS, order);
    KeysBack(c.KVS, order, live + tail, map[]);
    var t := TakeKeys(Entries(c.KVS, order) + (live + tail), |order|, map[]);
    forall w | w in c.KVS
      ensures w in order
    {
      assert w in WordSet(order);
    }
    assert t.value == c.KVS;
    TakeBytesBack(live, tail);
    UnpackPack(c.allDocs, TOTAL_FILE_NO);
    var c0 := blank.(clientId := c.clientId, K := c.K, encKey := c.encKey, ckMax := c.ckMax,
                     docCkMax := c.docCkMax, dummyCount := c.dummyCount, dummySize := c.dummySize,
                     endofDocId := c.endofDocId);
    TailBack(c, n, WithKeys(c0, c.KVS, live));
  }

  /** Whatever bytes are read, a restored key has a storable length. */
  lemma {:induction false} ReadKeysStorable(s: Text, count: nat, m: map<Text, int>)
    requires forall w :: w in m ==> Storable(w)
    ensures var t := TakeKeys(s, count, m); t.Got? ==> forall w :: w in t.value ==> Storable(w)
    decreases count
  {
    hide TakeI32;
    if count > 0 {
      var len := TakeI32(s);
      if len.Got? && 0 < len.value <= MAX_KEYWORD_LEN {
        var key := TakeBytes(len.rest, len.value);
        if key.Got? {
          var version := TakeI32(key.rest);
          if version.Got? {
            ReadKeysStorable(version.rest, count - 1, if key.value in m then m else m[key.value := version.value]);
          }
        }
      }
    }
  }

  lemma RestoredKeysStorable(s: Text)
    ensures var r := ParseSnapshot(s); r.Restored? ==> forall w :: w in r.ctx.KVS ==> Storable(w)
  {
    hide ParseHead, TakeKeys, TakeBytes, Storable, Unpack, Optional;
    var head := ParseHead(s, DefaultContext());
    if head.Got? {
      ReadKeysStorable(head.rest, head.value.1, map[]);
    }
  }

  /**
   Reading back a snapshot restores every field it holds, in any iteration order of the key map, and
   one cut after any of the optional fields restores the rest by default: exactly when every key has
   between 1 and 32 characters, since the others are counted but not written.
   */
  lemma SnapshotRoundTrip(c: ClientContext, order: seq<Text>, n: nat)
    requires SnapshotFits(c) && OrderOf(c.KVS, order) && n <= 5 && forall w :: w in order ==> w in c.KVS
    ensures ParseSnapshot(SnapshotOf(c, order, n)) == Restored(Cutoff(c, n, DefaultContext()))
       <==> forall w :: w in c.KVS ==> Storable(w)
  {
    hide SnapshotFits, OrderOf, ParseSnapshot, SnapshotOf, Storable;
    if forall w :: w in c.KVS ==> Storable(w) {
      SnapshotBack(c, order, n);
    } else {
      RestoredKeysStorable(SnapshotOf(c, order, n));
    }
  }

  lemma {:induction false} OrderSize(kvs: map<Text, int>, order: seq<Text>)
    requires OrderOf(kvs, order)
    ensures |order| == |kvs|
  {
    DistinctSize(order);
  }

  lemma {:induction false} DistinctSize(order: seq<Text>)
    requires NoDup(order)
    ensures |WordSet(order)| == |order|
  {
    if order != [] {
      var n := |order| - 1;
      DistinctSize(order[..n]);
      assert WordSet(order) == WordSet(order[..n]) + {order[n]};
      assert order[n] !in order[..n];
    }
  }
}
