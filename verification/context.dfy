/** The enclave's global context manager and the untrusted host it talks to. */
module Context {
  import opened Bytes
  import opened BitPack
  import opened Labels

  const MAX_FILE_SIZE: nat := 4096
  const MAX_RESULT_DOCS: nat := 100
  const PER_ROUND_SIZE: nat := 100
  const INACTIVE_CONTEXT_CACHE_MAX: nat := 4

  datatype Slot = Slot(index: Text, body: Text)

  const EMPTY_SLOT := Slot([], [])

  datatype ClientContext = ClientContext(
    clientId: int,
    K: Text,
    encKey: Text,
    CK: map<Text, Bitmap>,
    docCK: map<Text, Slot>,
    KVS: map<Text, int>,
    words: seq<Text>,
    ckMax: int,
    docCkMax: int,
    dummyCount: int,
    dummySize: int,
    replenishCounter: int,
    retrievalLimit: int,
    retrievalThreshold: int,
    retrievalBatch: int,
    allDocs: Bitmap,
    endofDocId: int,
    slotVersion: seq<int>)

  const ZERO_KEY: Text := seq(16, _ => 0 as byte)

  /** ClientContext{} */
  function DefaultContext(): ClientContext
  {
    ClientContext(
      0, ZERO_KEY, [], map[], map[], map[], [],
      10, 10, 0, 1000, 0, 100, 5, 5,
      {}, 1, seq(TOTAL_FILE_NO, _ => 0))
  }

  datatype CachedContext = CachedContext(ctx: ClientContext, edbId: int)

  /**
   misses: random picks that came back without a word; barren: those of them for which the cache was at
   least as large as the word list. rewinds: keyword rounds that started a known word over from an empty
   cache; losses: those of them that dropped the bit of another document.
   */
  datatype Tally = Tally(misses: nat, barren: nat, rewinds: nat, losses: nat)

  /** Nothing is ever taken off the tally. */
  predicate Grew(t: Tally, t': Tally)
  {
    t'.misses >= t.misses && t'.barren >= t.barren && t'.rewinds >= t.rewinds && t'.losses >= t.losses
  }

  class ContextManager {
    var ctx: ClientContext
    var currentEdb: int
    var inactive: map<int, CachedContext>
    /** What has gone wrong so far. */
    ghost var tally: Tally

    constructor ()
      ensures ctx == DefaultContext() && currentEdb == 0 && inactive == map[] && tally == Tally(0, 0, 0, 0)
    {
      ctx := DefaultContext();
      currentEdb := 0;
      inactive := map[];
      tally := Tally(0, 0, 0, 0);
    }
  }

  /** What the host sees: which kind of call, and how many entries it carries. */
  datatype Access = LoadBitmap | StoreBitmaps(n: nat) | LoadDocs(n: nat) | StoreDocs(n: nat)

  /** The effect of a batch of stores, in order. */
  function ApplyStores(store: map<Label, Cipher>, outs: seq<(Label, Cipher)>): map<Label, Cipher>
  {
    if outs == [] then store
    else
      var last := outs[|outs| - 1];
      ApplyStores(store, outs[..|outs| - 1])[last.0 := last.1]
  }

  class Host {
    var bitmaps: map<int, map<Label, Cipher>>
    var docs: map<int, map<Label, Cipher>>
    var snapshots: map<int, Text>
    ghost var trace: seq<Access>

    predicate Registered(edb: int)
      reads this
    {
      edb in bitmaps && edb in docs
    }

    /** ocall_store_bitmaps */
    method StoreBitmapEntries(edb: int, outs: seq<(Label, Cipher)>)
      requires edb in bitmaps
      modifies this`bitmaps, this`trace
      ensures bitmaps == old(bitmaps)[edb := ApplyStores(old(bitmaps)[edb], outs)]
      ensures trace == old(trace) + [StoreBitmaps(|outs|)]
    {
      var i := 0;
      while i < |outs|
        invariant 0 <= i <= |outs| && edb in bitmaps
        invariant trace == old(trace)
        invariant bitmaps == old(bitmaps)[edb := ApplyStores(old(bitmaps)[edb], outs[..i])]
      {
        assert outs[..i + 1][..i] == outs[..i];
        bitmaps := bitmaps[edb := bitmaps[edb][outs[i].0 := outs[i].1]];
        i := i + 1;
      }
      assert outs[..i] == outs;
      trace := trace + [StoreBitmaps(|outs|)];
    }

    /** ocall_load_bitmap; a missing label has no cipher to decrypt. */
    method LoadBitmapEntry(edb: int, tag: Label) returns (c: Cipher)
      requires edb in bitmaps && tag in bitmaps[edb]
      modifies this`trace
      ensures c == bitmaps[edb][tag]
      ensures trace == old(trace) + [LoadBitmap]
    {
      c := bitmaps[edb][tag];
      trace := trace + [LoadBitmap];
    }

    /** ocall_store_docs */
    method StoreDocEntries(edb: int, outs: seq<(Label, Cipher)>)
      requires edb in docs
      modifies this`docs, this`trace
      ensures docs == old(docs)[edb := ApplyStores(old(docs)[edb], outs)]
      ensures trace == old(trace) + [StoreDocs(|outs|)]
    {
      var i := 0;
      while i < |outs|
        invariant 0 <= i <= |outs| && edb in docs
        invariant trace == old(trace)
        invariant docs == old(docs)[edb := ApplyStores(old(docs)[edb], outs[..i])]
      {
        assert outs[..i + 1][..i] == outs[..i];
        docs := docs[edb := docs[edb][outs[i].0 := outs[i].1]];
        i := i + 1;
      }
      assert outs[..i] == outs;
      trace := trace + [StoreDocs(|outs|)];
    }

    /** ocall_load_docs: None where the label is not stored. */
    method LoadDocEntries(edb: int, labels: seq<Label>) returns (ciphers: seq<StoredDoc>)
      requires edb in docs
      modifies this`trace
      ensures |ciphers| == |labels|
      ensures forall i :: 0 <= i < |labels| ==>
        ciphers[i] == if labels[i] in docs[edb] then Found(docs[edb][labels[i]]) else Missing
      ensures trace == old(trace) + [LoadDocs(|labels|)]
    {
      ciphers := [];
      for i := 0 to |labels|
        invariant |ciphers| == i
        invariant forall j :: 0 <= j < i ==>
          ciphers[j] == if labels[j] in docs[edb] then Found(docs[edb][labels[j]]) else Missing
      {
        ciphers := ciphers + [if labels[i] in docs[edb] then Found(docs[edb][labels[i]]) else Missing];
      }
      trace := trace + [LoadDocs(|labels|)];
    }

    /** ocall_store_context_snapshot: the file is truncated first. */
    method StoreContextSnapshot(edb: int, buf: Text)
      modifies this`snapshots
      ensures snapshots == old(snapshots)[edb := buf]
    {
      snapshots := snapshots[edb := buf];
    }

    /** ocall_load_context_snapshot: nothing if there is no file, or one longer than the buffer. */
    method LoadContextSnapshot(edb: int, maxLen: nat) returns (buf: Text)
      ensures buf == if edb in snapshots && |snapshots[edb]| <= maxLen then snapshots[edb] else []
    {
      buf := [];
      if edb !in snapshots {
        return;
      }
      if |snapshots[edb]| > maxLen {
        return;
      }
      buf := snapshots[edb];
    }
  }

  datatype StoredDoc = Missing | Found(cipher: Cipher)
}
