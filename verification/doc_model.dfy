/** What the cached, versioned document slots mean, and the small steps that keep that meaning. */
module DocModel {
  import opened Bytes
  import opened Labels
  import opened Context
  import opened Scalars
  import opened Bundle

  type DocStore = map<Label, Cipher>

  /** The decimal text of a slot number. */
  predicate DocKey(id: Text)
  {
    0 < Atoi(id) <= TOTAL_FILE_NO && id == Decimal(Atoi(id))
  }

  /** A slot that a bundle can hold and that reads back unchanged. */
  predicate Fits(slot: Slot)
  {
    13 + |slot.index| + |slot.body| <= MAX_FILE_SIZE && Trimmed(slot.index) && Trimmed(slot.body)
  }

  /** dec_aes_gcm under the master key; a wrong key leaves the zeroed output buffer. */
  function Plaintext(K: Text, c: Cipher): Text
  {
    if c.key == Master(K) then c.plain else seq(|c.plain|, _ => 0 as byte)
  }

  datatype SlotRead = Unreadable | SlotRead(slot: Slot, version: int)

  /** decrypt_cipher_into_slot */
  function ReadSlot(K: Text, stored: StoredDoc): SlotRead
  {
    match stored
    case Missing => Unreadable
    case Found(c) =>
      var plain := Plaintext(K, c);
      if plain == [] then Unreadable
      else
        var shown := if |plain| > MAX_FILE_SIZE then plain[..MAX_FILE_SIZE] else plain;
        var p := ParseBundle(shown);
        SlotRead(Slot(TrimNul(p.index), TrimNul(if p.ok then p.body else shown)), p.version)
  }

  function Lookup(K: Text, docs: DocStore, id: Text): StoredDoc
  {
    var tag := DocLabel(K, id);
    if tag in docs then Found(docs[tag]) else Missing
  }

  function StoredSlot(K: Text, docs: DocStore, id: Text): SlotRead
  {
    ReadSlot(K, Lookup(K, docs, id))
  }

  /** The contents of a slot: cached, else stored. */
  function Contents(c: ClientContext, docs: DocStore, id: Text): Slot
  {
    if id in c.docCK then c.docCK[id]
    else match StoredSlot(c.K, docs, id)
         case Unreadable => EMPTY_SLOT
         case SlotRead(slot, _) => slot
  }

  ghost predicate DocInv(c: ClientContext, docs: DocStore)
  {
    && |c.slotVersion| == TOTAL_FILE_NO
    && (forall i :: 0 <= i < TOTAL_FILE_NO ==> IsU32(c.slotVersion[i]))
    && (forall id :: id in c.docCK ==> DocKey(id) && Fits(c.docCK[id]))
    && (forall id :: DocKey(id) ==> StoredSlot(c.K, docs, id).SlotRead? && Fits(StoredSlot(c.K, docs, id).slot))
    && (forall id :: !DocKey(id) ==> DocLabel(c.K, id) !in docs)
  }

  ghost predicate SameContents(c: ClientContext, d: DocStore, c': ClientContext, d': DocStore)
  {
    forall id :: DocKey(id) ==> Contents(c', d', id) == Contents(c, d, id)
  }

  ghost predicate ContentsSet(c: ClientContext, d: DocStore, c': ClientContext, d': DocStore, target: Text, slot: Slot)
  {
    forall id :: DocKey(id) ==> Contents(c', d', id) == if id == target then slot else Contents(c, d, id)
  }

  /** A stored bundle is at most one version ahead of the context's counter. */
  ghost predicate VersionsLag(c: ClientContext, docs: DocStore)
  {
    && |c.slotVersion| == TOTAL_FILE_NO
    && forall id :: DocKey(id) && StoredSlot(c.K, docs, id).SlotRead? ==>
      StoredSlot(c.K, docs, id).version <= c.slotVersion[Atoi(id) - 1] + 1
  }

  ghost predicate NoRegress(K: Text, d: DocStore, d': DocStore)
  {
    forall id :: DocKey(id) && StoredSlot(K, d, id).SlotRead? ==>
      StoredSlot(K, d', id).SlotRead? && StoredSlot(K, d, id).version <= StoredSlot(K, d', id).version
  }

  /** Every counter can be incremented n times without wrapping around 2^32. */
  ghost predicate NoWrap(c: ClientContext, n: int)
  {
    forall i :: 0 <= i < |c.slotVersion| ==> c.slotVersion[i] + n < U32_RANGE
  }

  /** No counter has grown by more than k. */
  ghost predicate CountersWithin(c: ClientContext, c': ClientContext, k: nat)
  {
    && |c'.slotVersion| == |c.slotVersion|
    && forall i :: 0 <= i < |c.slotVersion| ==> c'.slotVersion[i] <= c.slotVersion[i] + k
  }

  /**
   The version bookkeeping of any operation: counters that lag by at most one still do, they grow by at
   most k, and with that much headroom no stored version falls.
   */
  ghost predicate VersionsKept(c: ClientContext, d: DocStore, c': ClientContext, d': DocStore, k: nat)
  {
    VersionsLag(c, d) ==>
      VersionsLag(c', d') && CountersWithin(c, c', k) && (NoWrap(c, k) ==> NoRegress(c.K, d, d'))
  }

  lemma VersionsKeptTrans(c0: ClientContext, d0: DocStore, c1: ClientContext, d1: DocStore,
                          c2: ClientContext, d2: DocStore, k1: nat, k2: nat)
    requires VersionsKept(c0, d0, c1, d1, k1) && VersionsKept(c1, d1, c2, d2, k2) && c1.K == c0.K
    ensures VersionsKept(c0, d0, c2, d2, k1 + k2)
  {
    hide StoredSlot, VersionsLag, NoRegress;
    if VersionsLag(c0, d0) && NoWrap(c0, k1 + k2) {
      assert NoWrap(c1, k2);
      NoRegressTrans(c0.K, d0, d1, d2);
    }
  }

  /** An operation that touches neither counters nor stored slots. */
  lemma VersionsUntouched(c: ClientContext, d: DocStore, c': ClientContext, k: nat)
    requires c'.K == c.K && c'.slotVersion == c.slotVersion
    ensures VersionsKept(c, d, c', d, k)
  {
    hide StoredSlot;
  }

  lemma VersionsKeptMore(c: ClientContext, d: DocStore, c': ClientContext, d': DocStore, k: nat, m: nat)
    requires VersionsKept(c, d, c', d', k) && k <= m
    ensures VersionsKept(c, d, c', d', m)
  {
    hide StoredSlot, VersionsLag, NoRegress;
  }

  /** All that document operations may change in the context. */
  predicate DocFrame(c: ClientContext, c': ClientContext)
  {
    c' == c.(docCK := c'.docCK, slotVersion := c'.slotVersion)
  }

  // ----- the small steps

  /** doc_CK[id] = stored slot, with the version counter raised to the stored one. */
  function Fetched(c: ClientContext, id: Text, r: SlotRead): ClientContext
    requires DocKey(id) && r.SlotRead? && |c.slotVersion| == TOTAL_FILE_NO
  {
    var i := Atoi(id) - 1;
    c.(docCK := c.docCK[id := r.slot],
       slotVersion := if r.version > c.slotVersion[i] then c.slotVersion[i := r.version] else c.slotVersion)
  }

  lemma StoredVersionU32(K: Text, docs: DocStore, id: Text)
    requires StoredSlot(K, docs, id).SlotRead?
    ensures IsU32(StoredSlot(K, docs, id).version)
  {
    hide DocLabel, ParseBundle;
    forall plain
      ensures IsU32(ParseBundle(plain).version)
    {
      ParsedVersionU32(plain);
    }
  }

  lemma ParsedVersionU32(plain: Text)
    ensures IsU32(ParseBundle(plain).version)
  {
    hide ReadU32;
  }

  /** Caching a stored slot without looking at its version, as a query does. */
  lemma CacheKeeps(c: ClientContext, docs: DocStore, id: Text)
    requires DocInv(c, docs) && DocKey(id) && id !in c.docCK
    ensures var c' := c.(docCK := c.docCK[id := StoredSlot(c.K, docs, id).slot]);
            && DocInv(c', docs) && SameContents(c, docs, c', docs)
            && (VersionsLag(c, docs) ==> VersionsLag(c', docs))
  {
    hide StoredSlot, Fits, DocLabel, Atoi, Decimal;
  }

  lemma FetchKeeps(c: ClientContext, docs: DocStore, id: Text)
    requires DocInv(c, docs) && DocKey(id) && id !in c.docCK
    ensures var c' := Fetched(c, id, StoredSlot(c.K, docs, id));
            && DocInv(c', docs) && SameContents(c, docs, c', docs)
            && (VersionsLag(c, docs) ==> VersionsLag(c', docs))
            && (forall n :: VersionsLag(c, docs) && NoWrap(c, n + 1) ==> NoWrap(c', n))
            && VersionsKept(c, docs, c', docs, 1)
            && StoredSlot(c.K, docs, id).version <= c'.slotVersion[Atoi(id) - 1]
  {
    hide StoredSlot, Fits, DocLabel, Atoi, Decimal, Contents, VersionsKept;
    CacheKeeps(c, docs, id);
    StoredVersionU32(c.K, docs, id);
    RaiseKeeps(c.(docCK := c.docCK[id := StoredSlot(c.K, docs, id).slot]), docs, id, StoredSlot(c.K, docs, id).version);
    FetchVersions(c, docs, id);
  }

  /** The counter is raised to a stored version that was at most one ahead. */
  lemma FetchVersions(c: ClientContext, docs: DocStore, id: Text)
    requires |c.slotVersion| == TOTAL_FILE_NO && DocKey(id) && StoredSlot(c.K, docs, id).SlotRead?
    ensures VersionsKept(c, docs, Fetched(c, id, StoredSlot(c.K, docs, id)), docs, 1)
  {
    hide StoredSlot, Atoi, Decimal;
    NothingRegressed(c.K, docs);
    hide NoRegress;
  }

  lemma NothingRegressed(K: Text, docs: DocStore)
    ensures NoRegress(K, docs, docs)
  {
    hide StoredSlot, DocKey;
  }

  lemma RaiseKeeps(c: ClientContext, docs: DocStore, id: Text, version: int)
    requires DocInv(c, docs) && DocKey(id) && IsU32(version)
    ensures var i := Atoi(id) - 1;
            var c' := c.(slotVersion := if version > c.slotVersion[i] then c.slotVersion[i := version]
                         else c.slotVersion);
            && DocInv(c', docs) && SameContents(c, docs, c', docs)
            && (VersionsLag(c, docs) ==> VersionsLag(c', docs))
            && version <= c'.slotVersion[i]
  {
    hide StoredSlot, Fits, DocLabel, Atoi, Decimal;
  }

  lemma MutateSets(c: ClientContext, docs: DocStore, id: Text, slot: Slot)
    requires DocInv(c, docs) && id in c.docCK && Fits(slot)
    ensures var c' := c.(docCK := c.docCK[id := slot]);
            && DocInv(c', docs) && ContentsSet(c, docs, c', docs, id, slot)
            && (VersionsLag(c, docs) ==> VersionsLag(c', docs))
  {
    hide StoredSlot, Fits, DocLabel, Atoi, Decimal;
  }

  function NextVersion(c: ClientContext, id: Text): int
    requires DocKey(id) && |c.slotVersion| == TOTAL_FILE_NO
  {
    (c.slotVersion[Atoi(id) - 1] + 1) % U32_RANGE
  }

  function Persisted(c: ClientContext, id: Text): ClientContext
    requires DocKey(id) && |c.slotVersion| == TOTAL_FILE_NO
  {
    c.(slotVersion := c.slotVersion[Atoi(id) - 1 := NextVersion(c, id)], docCK := c.docCK - {id})
  }

  function WithBundle(K: Text, docs: DocStore, id: Text, packed: Text): DocStore
  {
    docs[DocLabel(K, id) := Cipher(Master(K), packed)]
  }

  lemma BundleReads(K: Text, docs: DocStore, id: Text, slot: Slot, version: int, packed: Text)
    requires Fits(slot) && IsU32(version)
    requires |packed| == MAX_FILE_SIZE && SectionsV2(slot.index, slot.body, version) <= packed
    ensures StoredSlot(K, WithBundle(K, docs, id, packed), id) == SlotRead(slot, version)
    ensures forall other :: other != id ==>
      StoredSlot(K, WithBundle(K, docs, id, packed), other) == StoredSlot(K, docs, other)
  {
    ParsePackedV2(slot.index, slot.body, version, packed);
    TrimTrimmed(slot.index);
    TrimTrimmed(slot.body);
    forall other | other != id
      ensures DocLabel(K, other) != DocLabel(K, id)
    {
      if DocLabel(K, other) == DocLabel(K, id) {
        DocLabelInjective(K, other, id);
      }
    }
    hide ParseBundle, DocLabel, SectionsV2;
  }

  /** Writing a cached slot back under its next version changes no contents. */
  lemma PersistKeeps(c: ClientContext, docs: DocStore, id: Text, packed: Text)
    requires DocInv(c, docs) && id in c.docCK
    requires |packed| == MAX_FILE_SIZE
    requires SectionsV2(c.docCK[id].index, c.docCK[id].body, NextVersion(c, id)) <= packed
    ensures var c', d' := Persisted(c, id), WithBundle(c.K, docs, id, packed);
            && DocInv(c', d') && SameContents(c, docs, c', d')
            && (VersionsLag(c, docs) && NoWrap(c, 1) ==> VersionsLag(c', d') && NoRegress(c.K, docs, d'))
            && VersionsKept(c, docs, c', d', 1)
            && StoredSlot(c.K, d', id).SlotRead? && StoredSlot(c.K, d', id).version == c'.slotVersion[Atoi(id) - 1]
  {
    hide StoredSlot, DocLabel, SectionsV2, WithBundle, Fits, Atoi, Decimal, VersionsKept;
    BundleReads(c.K, docs, id, c.docCK[id], NextVersion(c, id), packed);
    PersistLabels(c, docs, id, packed);
    PersistVersions(c, docs, WithBundle(c.K, docs, id, packed), id);
    hide VersionsLag, NoRegress, NoWrap, CountersWithin;
    VersionsGiven(c, docs, Persisted(c, id), WithBundle(c.K, docs, id, packed), 1);
  }

  /** The slot is stored under its counter's next value, the other slots as before. */
  lemma PersistVersions(c: ClientContext, d: DocStore, d': DocStore, id: Text)
    requires |c.slotVersion| == TOTAL_FILE_NO && DocKey(id) && c.slotVersion[Atoi(id) - 1] >= 0
    requires StoredSlot(c.K, d', id).SlotRead? && StoredSlot(c.K, d', id).version == NextVersion(c, id)
    requires forall other :: other != id ==> StoredSlot(c.K, d', other) == StoredSlot(c.K, d, other)
    ensures VersionsKept(c, d, Persisted(c, id), d', 1)
  {
    hide StoredSlot, Atoi, Decimal;
    if VersionsLag(c, d) && NoWrap(c, 1) {
      VersionFits(c, id);
    }
  }

  lemma VersionsGiven(c: ClientContext, d: DocStore, c': ClientContext, d': DocStore, k: nat)
    requires VersionsKept(c, d, c', d', k)
    ensures VersionsLag(c, d) && NoWrap(c, k) ==> VersionsLag(c', d') && NoRegress(c.K, d, d')
  {
    hide VersionsLag, NoRegress, NoWrap, CountersWithin;
  }

  lemma VersionFits(c: ClientContext, id: Text)
    requires DocKey(id) && |c.slotVersion| == TOTAL_FILE_NO && NoWrap(c, 1) && c.slotVersion[Atoi(id) - 1] >= 0
    ensures NextVersion(c, id) == c.slotVersion[Atoi(id) - 1] + 1
  {
  }

  /** A slot that was fetched is written back under a version above the stored one, however far the counter lagged. */
  lemma FetchedPersistGrows(c: ClientContext, docs: DocStore, id: Text)
    requires DocInv(c, docs) && DocKey(id) && id !in c.docCK && NoWrap(Fetched(c, id, StoredSlot(c.K, docs, id)), 1)
    ensures var c' := Fetched(c, id, StoredSlot(c.K, docs, id));
            |c'.slotVersion| == TOTAL_FILE_NO && NextVersion(c', id) > StoredSlot(c.K, docs, id).version
  {
    hide StoredSlot, Fits, DocLabel, Atoi, Decimal, Contents;
    FetchKeeps(c, docs, id);
    VersionFits(Fetched(c, id, StoredSlot(c.K, docs, id)), id);
  }

  lemma PersistLabels(c: ClientContext, docs: DocStore, id: Text, packed: Text)
    requires DocInv(c, docs) && DocKey(id)
    ensures forall other :: !DocKey(other) ==> DocLabel(c.K, other) !in WithBundle(c.K, docs, id, packed)
  {
    hide StoredSlot;
    forall other | !DocKey(other)
      ensures DocLabel(c.K, other) !in WithBundle(c.K, docs, id, packed)
    {
      if DocLabel(c.K, other) == DocLabel(c.K, id) {
        DocLabelInjective(c.K, other, id);
      }
    }
  }

  lemma DecimalIsKey(n: nat)
    requires 0 < n <= TOTAL_FILE_NO
    ensures DocKey(Decimal(n)) && Atoi(Decimal(n)) == n
  {
    AtoiToString(n);
  }

  lemma PersistHeadroom(c: ClientContext, docs: DocStore, id: Text, n: nat)
    requires DocInv(c, docs) && DocKey(id) && NoWrap(c, n + 1)
    ensures NoWrap(Persisted(c, id), n)
  {
    hide StoredSlot, Atoi, Decimal, DocLabel;
  }

  lemma SameContentsRefl(c: ClientContext, d: DocStore)
    ensures SameContents(c, d, c, d) && NoRegress(c.K, d, d)
  {
    hide StoredSlot;
  }

  lemma SameContentsTrans(c0: ClientContext, d0: DocStore, c1: ClientContext, d1: DocStore,
                          c2: ClientContext, d2: DocStore)
    requires SameContents(c0, d0, c1, d1) && SameContents(c1, d1, c2, d2)
    ensures SameContents(c0, d0, c2, d2)
  {
    hide Contents, DocKey;
  }

  lemma NoRegressTrans(K: Text, d0: DocStore, d1: DocStore, d2: DocStore)
    requires NoRegress(K, d0, d1) && NoRegress(K, d1, d2)
    ensures NoRegress(K, d0, d2)
  {
    hide StoredSlot, DocKey;
  }

  lemma ContentsFit(c: ClientContext, docs: DocStore, id: Text)
    requires DocInv(c, docs) && DocKey(id)
    ensures Fits(Contents(c, docs, id))
  {
    hide StoredSlot, Fits, DocKey;
  }
}
