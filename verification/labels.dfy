/** Storage labels and ciphers, with CMAC and AES-GCM as ideal functions of key and message. */
module Labels {
  import opened Bytes
  import opened BitPack

  const TOTAL_FILE_NO: nat := 10000
  const MAX_KEYWORD_LEN: nat := 32

  /** "dummy_" */
  const DUMMY_PREFIX: Text := Ascii("dummy_")

  /** A CMAC tag: equal exactly when the key and the message are. */
  datatype Label = Label(K: Text, msg: Text)

  /** AES-GCM keys: the master key itself for documents, a CMAC tag for bitmaps. */
  datatype CipherKey = Master(K: Text) | Derived(tag: Label)

  datatype Cipher = Cipher(key: CipherKey, plain: Text)

  function VersionedWord(word: Text, version: int): Text
  {
    word + ToString(version)
  }

  /** fill_bitmap_label */
  function BitmapLabel(K: Text, word: Text, version: int): Label
  {
    Label(K, VersionedWord(word, version) + Decimal(0))
  }

  /** derive_bitmap_key */
  function BitmapKey(K: Text, word: Text, version: int): CipherKey
  {
    Derived(Label(K, VersionedWord(word, version) + Decimal(1)))
  }

  /** encrypt_bitmap_cipher */
  function EncryptBitmap(bits: Bitmap, key: CipherKey): Cipher
  {
    Cipher(key, Pack(bits, TOTAL_FILE_NO))
  }

  /** decrypt_bitmap_cipher; a wrong key leaves the zeroed output buffer. */
  function DecryptBitmap(c: Cipher, key: CipherKey): Bitmap
  {
    if c.key == key then Unpack(c.plain) else {}
  }

  lemma DecryptEncrypt(bits: Bitmap, key: CipherKey)
    requires Within(bits, TOTAL_FILE_NO)
    ensures DecryptBitmap(EncryptBitmap(bits, key), key) == bits
  {
    UnpackPack(bits, TOTAL_FILE_NO);
  }

  function DummyName(i: nat): Text
  {
    DUMMY_PREFIX + Decimal(i)
  }

  /** Words that share their stem with the placeholders. */
  predicate Dummyish(w: Text)
  {
    Stem(w) == DUMMY_PREFIX
  }

  /** A keyword whose last byte is not a digit and that is not the bare placeholder prefix. */
  predicate Real(w: Text)
  {
    0 < |w| <= MAX_KEYWORD_LEN && Stem(w) == w && w != DUMMY_PREFIX
  }

  lemma DummyNameStem(i: nat)
    ensures Dummyish(DummyName(i)) && |DummyName(i)| > 0
    ensures i < 10000000000 ==> |DummyName(i)| <= MAX_KEYWORD_LEN
  {
    assert DUMMY_PREFIX[5] == 95;
    assert Stem(DUMMY_PREFIX) == DUMMY_PREFIX;
    StemAppendDigits(DUMMY_PREFIX, Decimal(i));
    if i < 10000000000 {
      DecimalLength(i);
    }
  }

  lemma DummyNameInjective(i: nat, j: nat)
    requires DummyName(i) == DummyName(j)
    ensures i == j
  {
    assert Decimal(i) == DummyName(i)[|DUMMY_PREFIX|..];
    assert Decimal(j) == DummyName(j)[|DUMMY_PREFIX|..];
    DecimalInjective(i, j);
  }

  /** A label determines the versioned word, hence also the key its cipher was made with. */
  lemma LabelKeyAgree(K: Text, w1: Text, v1: nat, w2: Text, v2: nat)
    requires BitmapLabel(K, w1, v1) == BitmapLabel(K, w2, v2)
    ensures VersionedWord(w1, v1) == VersionedWord(w2, v2)
    ensures BitmapKey(K, w1, v1) == BitmapKey(K, w2, v2)
    ensures Stem(w1) == Stem(w2)
  {
    var m1, m2 := BitmapLabel(K, w1, v1).msg, BitmapLabel(K, w2, v2).msg;
    assert VersionedWord(w1, v1) == m1[..|m1| - 1] == m2[..|m2| - 1] == VersionedWord(w2, v2);
    StemAppendDigits(w1, Decimal(v1));
    StemAppendDigits(w2, Decimal(v2));
  }

  /** The versions of one word have distinct labels. */
  lemma SameWordLabels(K: Text, w: Text, v1: nat, v2: nat)
    requires BitmapLabel(K, w, v1) == BitmapLabel(K, w, v2)
    ensures v1 == v2
  {
    LabelKeyAgree(K, w, v1, w, v2);
    assert Decimal(v1) == VersionedWord(w, v1)[|w|..];
    assert Decimal(v2) == VersionedWord(w, v2)[|w|..];
    DecimalInjective(v1, v2);
  }

  /** A keyword that does not end in a digit shares no label with any other keyword or placeholder. */
  lemma RealLabelUnique(K: Text, w1: Text, v1: nat, w2: Text, v2: nat)
    requires Real(w1) && (Real(w2) || Dummyish(w2))
    requires BitmapLabel(K, w1, v1) == BitmapLabel(K, w2, v2)
    ensures w1 == w2 && v1 == v2
  {
    LabelKeyAgree(K, w1, v1, w2, v2);
    SameWordLabels(K, w1, v1, v2);
  }

  /** w2 is w1 followed by digits that could open a version number. */
  predicate DigitExtension(w1: Text, w2: Text)
  {
    |w1| < |w2| && w1 == w2[..|w1|] && AllDigits(w2[|w1|..]) && w2[|w1|] != 48
  }

  /**
   Exactly which words can be confused by word + version: those where one is the other followed by
   digits without a leading zero.
   */
  lemma LabelCollision(K: Text, w1: Text, w2: Text)
    requires w1 != w2
    ensures (exists v1: nat, v2: nat :: BitmapLabel(K, w1, v1) == BitmapLabel(K, w2, v2))
       <==> DigitExtension(w1, w2) || DigitExtension(w2, w1)
  {
    if DigitExtension(w1, w2) {
      ExtensionCollides(K, w1, w2);
    } else if DigitExtension(w2, w1) {
      ExtensionCollides(K, w2, w1);
    } else if exists v1: nat, v2: nat :: BitmapLabel(K, w1, v1) == BitmapLabel(K, w2, v2) {
      var v1: nat, v2: nat :| BitmapLabel(K, w1, v1) == BitmapLabel(K, w2, v2);
      LabelKeyAgree(K, w1, v1, w2, v2);
      if |w1| <= |w2| {
        CollisionExtends(w1, v1, w2, v2);
      } else {
        CollisionExtends(w2, v2, w1, v1);
      }
    }
  }

  lemma ExtensionCollides(K: Text, w1: Text, w2: Text)
    requires DigitExtension(w1, w2)
    ensures exists v1: nat, v2: nat :: BitmapLabel(K, w1, v1) == BitmapLabel(K, w2, v2)
  {
    var v1 := CollidingVersion(K, w1, w2, 1);
  }

  /** Every version of the longer word is, in its label, some version of the shorter one. */
  lemma CollidingVersion(K: Text, w1: Text, w2: Text, v2: nat) returns (v1: nat)
    requires DigitExtension(w1, w2)
    ensures v1 > 0 && BitmapLabel(K, w1, v1) == BitmapLabel(K, w2, v2)
  {
    var d := w2[|w1|..] + Decimal(v2);
    v1 := DecimalOfDigits(d);
    assert VersionedWord(w1, v1) == w1 + d == VersionedWord(w2, v2);
  }

  lemma CollisionExtends(w1: Text, v1: nat, w2: Text, v2: nat)
    requires w1 != w2 && |w1| <= |w2| && VersionedWord(w1, v1) == VersionedWord(w2, v2)
    ensures DigitExtension(w1, w2)
  {
    var s, d1 := VersionedWord(w1, v1), Decimal(v1);
    assert w1 == s[..|w1|] && w2 == s[..|w2|];
    assert w1 == w2[..|w1|];
    if |w1| == |w2| {
      assert false;
    }
    var ext := w2[|w1|..];
    assert ext == s[|w1|..|w2|];
    assert d1 == s[|w1|..];
    assert forall i :: 0 <= i < |ext| ==> ext[i] == d1[i];
    assert |d1| == |ext| + |Decimal(v2)|;
    DecimalLeadingZero(v1);
    assert v1 != 0;
  }

  /** Placeholder labels do collide: dummy_1 at version 10 is dummy_11 at version 0. */
  lemma DummyLabelsCollide(K: Text)
    ensures BitmapLabel(K, DummyName(1), 10) == BitmapLabel(K, DummyName(11), 0)
  {
    assert Decimal(10) == Decimal(1) + Decimal(0);
    assert Decimal(11) == Decimal(1) + Decimal(1);
    assert DummyName(1) + Decimal(10) == DummyName(11) + Decimal(0);
  }

  /** fill_doc_label */
  function DocLabel(K: Text, docId: Text): Label
  {
    Label(K, docId + Decimal(0))
  }

  lemma DocLabelInjective(K: Text, a: Text, b: Text)
    requires DocLabel(K, a) == DocLabel(K, b)
    ensures a == b
  {
    assert a == DocLabel(K, a).msg[..|a|];
    assert b == DocLabel(K, b).msg[..|b|];
  }
}
