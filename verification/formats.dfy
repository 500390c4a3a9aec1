/**
 What the enclave, the host and their clients have agreed on, byte by byte: numbers, labels, bundles and
 messages as they are stored and sent.
 */
module Formats {
  import opened Bytes
  import opened BitPack
  import opened Labels
  import opened Scalars
  import opened Bundle
  import opened Select
  import opened Update
  import T = Tokens
  import W = Wire
  import R = Responses

  // ----- numbers

  /** Decimal digits, most significant first. */
  lemma DecimalDigits(n: nat, d: nat)
    requires d < 10
    ensures Decimal(d) == [(48 + d) as byte]
    ensures n > 0 ==> Decimal(10 * n + d) == Decimal(n) + [(48 + d) as byte]
    ensures ToString(-1 - n) == [45] + Decimal(n + 1)
  {
    assert (10 * n + d) / 10 == n && (10 * n + d) % 10 == d;
  }

  /** Four bytes, least significant first, in both directions; the sign is the highest bit. */
  lemma LittleEndian(a: byte, b: byte, c: byte, d: byte)
    ensures var n := a as int + 0x100 * (b as int) + 0x1_0000 * (c as int) + 0x100_0000 * (d as int);
            && U32(n) == [a, b, c, d] && ReadU32([a, b, c, d], 0) == n
            && ReadI32([a, b, c, d], 0) == (if d < 128 then n else n - 0x1_0000_0000)
            && U32(n - 0x1_0000_0000) == [a, b, c, d]
  {
    var n := a as int + 0x100 * (b as int) + 0x1_0000 * (c as int) + 0x100_0000 * (d as int);
    WrittenLow(a, b, c, d, n);
    hide U32;
    assert ReadU32([a, b, c, d], 0) == n;
  }

  lemma WrittenLow(a: byte, b: byte, c: byte, d: byte, n: int)
    requires n == a as int + 0x100 * (b as int) + 0x1_0000 * (c as int) + 0x100_0000 * (d as int)
    ensures U32(n) == U32(n - 0x1_0000_0000) == [a, b, c, d]
  {
    assert n % U32_RANGE == n == (n - 0x1_0000_0000) % U32_RANGE;
    assert n / 256 == b as int + 0x100 * (c as int) + 0x1_0000 * (d as int);
    assert n / 65536 == c as int + 0x100 * (d as int);
    assert n / 16777216 == d as int;
  }

  /** Bit 0 of a packed bitmap is the highest bit of the first byte. */
  lemma PackedBits(bits: Bitmap)
    ensures Pack(bits, 8) == [PackedByte(bits, 0)]
    ensures PackedByte({0}, 0) == 128 && PackedByte({7}, 0) == 1 && PackedByte({8, 14}, 8) == 130
  {
  }

  // ----- labels

  /** A bitmap is stored under the tag of word, version and 0, and encrypted under that of word, version and 1. */
  lemma LabelBytes(K: Text, word: Text, version: nat, id: Text)
    ensures BitmapLabel(K, word, version) == Label(K, word + Decimal(version) + [48])
    ensures BitmapKey(K, word, version) == Derived(Label(K, word + Decimal(version) + [49]))
    ensures DocLabel(K, id) == Label(K, id + [48])
    ensures DummyName(version) == [100, 117, 109, 109, 121, 95] + Decimal(version)
  {
  }

  /** The keywords that the theorems are about: up to 32 bytes, no digit at the end, not just the placeholder prefix. */
  lemma RealWords(w: Text)
    ensures Real(w) <==>
      && 1 <= |w| <= 32 && !(48 <= w[|w| - 1] <= 57)
      && w != [100, 117, 109, 109, 121, 95]
  {
    assert DUMMY_PREFIX == [100, 117, 109, 109, 121, 95];
  }

  // ----- bundles

  /** The second form: 2, version, index length, index, body length, body. */
  lemma BundleBytes(index: Text, body: Text, version: int)
    ensures SectionsV2(index, body, version) == [2] + U32(version) + U32(|index|) + index + U32(|body|) + body
    ensures SectionsV1(index, body) == [1] + U32(|index|) + index + U32(|body|) + body
  {
  }

  /** What the first byte of a stored bundle makes of it. */
  lemma BundleKinds(plain: Text)
    ensures plain != [] && plain[0] == 0 ==> ParseBundle(plain) == Parsed(true, T.UpToNul(plain[1..]), [], 0)
    ensures plain != [] && plain[0] > 2 ==> ParseBundle(plain) == Parsed(false, [], plain, 0)
    ensures plain != [] && plain[0] == 2 && |plain| < 13 ==> !ParseBundle(plain).ok
    ensures plain != [] && plain[0] == 1 && |plain| < 9 ==> !ParseBundle(plain).ok
  {
  }

  // ----- requests

  /** Client, request type, length of the rest, and the rest. */
  lemma RequestHeader(m: W.Message)
    requires W.InStruct(m.body)
    ensures var s, body := W.MessageBytes(m), W.BodyBytes(m.body);
            var kind: byte := match m.body
              case Init(_, _, _) => 0
              case Ask(_) => 1
              case Change(_) => 2
              case Shutdown(_) => 3
              case Invalid => 4;
            s == [m.client] + [kind, 0, 0, 0] + U32(|body|) + body
  {
  }

  /** What fits the request structures. */
  lemma RequestBounds(b: W.Body)
    ensures b.Init? ==> (W.InStruct(b) <==> |b.key| == 16 && 0 <= b.edb < 0x1_0000_0000)
    ensures b.Ask? ==>
      (W.InStruct(b) <==>
         && |b.select.terms| <= 16 && (forall t :: t in b.select.terms ==> |t| <= 32)
         && |b.select.code| <= 128 && 0 <= b.select.kind < 256)
    ensures b.Change? ==>
      (W.InStruct(b) <==>
         && 0 <= b.update.op < 256 && -0x8000_0000 <= b.update.docId < 0x8000_0000
         && |b.update.doc| <= 4096 && |b.update.index| <= 4096
         && (b.update.flags == 1 || (b.update.flags == 0 && b.update.index == [])))
    ensures b.Shutdown? || b.Invalid? ==> W.InStruct(b)
  {
  }

  /** The bodies, field by field. */
  lemma RequestBodies(b: W.Body)
    requires W.InStruct(b)
    ensures b.Init? ==> W.BodyBytes(b) == b.key + [b.mode] + U32(b.edb)
    ensures b.Ask? ==>
      var q := b.select;
      W.BodyBytes(b) == U32(|q.terms|) + W.TermBytes(q.terms) + U32(|q.code|) + q.code + [q.kind as byte]
    ensures b.Change? && b.update.flags == 1 ==>
      var u := b.update;
      W.BodyBytes(b) == [u.op as byte] + U32(u.docId) + [1, 1] + U32(|u.index|) + u.index + U32(|u.doc|) + u.doc
    ensures b.Change? && b.update.flags == 0 ==>
      var u := b.update;
      W.BodyBytes(b) == [u.op as byte] + U32(u.docId) + [2] + U32(|u.doc|) + u.doc
    ensures b.Shutdown? ==> W.BodyBytes(b) == [b.reserved]
    ensures b.Invalid? ==> W.BodyBytes(b) == []
  {
    hide U32;
    if b.Ask? {
      AskBody(b.select);
    }
    if b.Change? {
      ChangeBody(b.update);
    }
  }

  lemma AskBody(q: SelectRequest)
    requires W.InStruct(W.Ask(q))
    ensures W.SelectBytes(q) == U32(|q.terms|) + W.TermBytes(q.terms) + U32(|q.code|) + q.code + [q.kind as byte]
  {
    hide U32;
  }

  lemma ChangeBody(u: UpdateRequest)
    requires W.InStruct(W.Change(u))
    ensures u.flags == 1 ==>
      W.UpdateBytes(u) == [u.op as byte] + U32(u.docId) + [1, 1] + U32(|u.index|) + u.index + U32(|u.doc|) + u.doc
    ensures u.flags == 0 ==>
      W.UpdateBytes(u) == [u.op as byte] + U32(u.docId) + [2] + U32(|u.doc|) + u.doc
  {
    hide U32;
  }

  /** Each term with its length in front. */
  lemma TermBytes(t: Text, others: seq<Text>)
    requires |t| < 256 && forall x :: x in others ==> |x| < 256
    ensures W.TermBytes([]) == [] && W.TermBytes([t] + others) == [|t| as byte] + t + W.TermBytes(others)
  {
    assert ([t] + others)[1..] == others;
  }

  // ----- responses

  /** Status, response type, length of the rest, and the rest. */
  lemma ResponseHeader(r: R.Response)
    requires R.Sendable(r)
    ensures var s, body := R.ResponseBytes(r), R.BodyBytes(r.body);
            && (r.body.InitResult? ==> s == U32(r.status) + [0, 0, 0, 0] + U32(|body|) + body)
            && (r.body.SelectResult? ==> s == U32(r.status) + [1, 0, 0, 0] + U32(|body|) + body)
            && (r.body.UpdateResult? ==> s == U32(r.status) + [2, 0, 0, 0] + U32(|body|) + body)
            && (r.body.ShutdownResult? ==> s == U32(r.status) + [3, 0, 0, 0] + U32(|body|) + body)
  {
    LittleEndian(0, 0, 0, 0);
    LittleEndian(1, 0, 0, 0);
    LittleEndian(2, 0, 0, 0);
    LittleEndian(3, 0, 0, 0);
    hide U32;
  }

  lemma ResponseBodies(edb: int, count: int, ids: seq<int>, contents: seq<Text>, success: int, docId: int, done: byte)
    ensures R.BodyBytes(R.InitResult(edb)) == [(edb % 256) as byte]
    ensures R.BodyBytes(R.SelectResult(count, ids, contents)) == U32(count) + R.IdBytes(ids) + R.Joined(contents)
    ensures R.BodyBytes(R.UpdateResult(success, docId)) == U32(success) + U32(docId)
    ensures R.BodyBytes(R.ShutdownResult(done)) == [done]
  {
  }

  /** Numbers first, then the contents, each kind in order. */
  lemma RowBytes(ids: seq<int>, id: int, contents: seq<Text>, content: Text)
    ensures R.IdBytes([]) == [] && R.IdBytes(ids + [id]) == R.IdBytes(ids) + U32(id)
    ensures R.Joined([]) == [] && R.Joined(contents + [content]) == R.Joined(contents) + content
  {
    assert (ids + [id])[..|ids|] == ids && (contents + [content])[..|contents|] == contents;
  }
}
