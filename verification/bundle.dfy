/** The fixed-size document bundle: header, index, body and padding. */
module Bundle {
  import opened Bytes
  import opened Context
  import opened Scalars
  import opened Tokens

  const DOC_BUNDLE_MAGIC_LEGACY: byte := 0
  const DOC_BUNDLE_MAGIC_V1: byte := 1
  const DOC_BUNDLE_MAGIC_V2: byte := 2

  /** The out-parameters of parse_doc_bundle_ex, also when it fails. */
  datatype Parsed = Parsed(ok: bool, index: Text, body: Text, version: int)

  function SectionsV1(index: Text, body: Text): Text
  {
    [DOC_BUNDLE_MAGIC_V1] + U32(|index|) + index + U32(|body|) + body
  }

  function SectionsV2(index: Text, body: Text, version: int): Text
  {
    [DOC_BUNDLE_MAGIC_V2] + U32(version) + U32(|index|) + index + U32(|body|) + body
  }

  /** memcpy into a buffer */
  method Memcpy(dst: array<byte>, off: nat, src: Text)
    requires off + |src| <= dst.Length
    modifies dst
    ensures dst[..] == old(dst[..off]) + src + old(dst[off + |src|..])
  {
    var i := 0;
    while i < |src|
      invariant 0 <= i <= |src|
      invariant forall k :: 0 <= k < dst.Length && !(off <= k < off + i) ==> dst[k] == old(dst[k])
      invariant forall k :: 0 <= k < i ==> dst[off + k] == src[k]
    {
      dst[off + i] := src[i];
      i := i + 1;
    }
    assert dst[..] == old(dst[..off]) + src + old(dst[off + |src|..]);
  }

  /** fill_doc_bundle_padding: any bytes may follow the data, sixteen at a time. */
  method FillDocBundlePadding(out: array<byte>, dataEnd: nat)
    requires dataEnd <= out.Length
    modifies out
    ensures out[..dataEnd] == old(out[..dataEnd])
  {
    var off := dataEnd;
    while off < out.Length
      invariant dataEnd <= off <= out.Length
      invariant out[..dataEnd] == old(out[..dataEnd])
    {
      var n := if out.Length - off < 16 then out.Length - off else 16;
      for k := 0 to n
        invariant out[..dataEnd] == old(out[..dataEnd])
      {
        var b: byte := *;
        out[off + k] := b;
      }
      off := off + n;
    }
  }

  /** pack_doc_bundle_v2 */
  method PackDocBundleV2(index: Text, body: Text, version: int) returns (packed: Text)
    requires 13 + |index| + |body| <= MAX_FILE_SIZE
    ensures |packed| == MAX_FILE_SIZE && SectionsV2(index, body, version) <= packed
  {
    var out := new byte[MAX_FILE_SIZE](_ => 0);
    out[0] := DOC_BUNDLE_MAGIC_V2;
    var off := 1;
    ghost var done := [DOC_BUNDLE_MAGIC_V2];
    assert out[..off] == done;
    Memcpy(out, off, U32(version));
    off, done := off + 4, done + U32(version);
    assert out[..off] == done;
    Memcpy(out, off, U32(|index|));
    off, done := off + 4, done + U32(|index|);
    assert out[..off] == done;
    Memcpy(out, off, index);
    off, done := off + |index|, done + index;
    assert out[..off] == done;
    Memcpy(out, off, U32(|body|));
    off, done := off + 4, done + U32(|body|);
    assert out[..off] == done;
    Memcpy(out, off, body);
    off, done := off + |body|, done + body;
    assert out[..off] == done;
    FillDocBundlePadding(out, off);
    packed := out[..];
    assert packed[..off] == done;
  }

  /** pack_doc_bundle_v1 */
  method PackDocBundleV1(index: Text, body: Text) returns (packed: Text)
    requires 9 + |index| + |body| <= MAX_FILE_SIZE
    ensures |packed| == MAX_FILE_SIZE && SectionsV1(index, body) <= packed
  {
    var out := new byte[MAX_FILE_SIZE](_ => 0);
    out[0] := DOC_BUNDLE_MAGIC_V1;
    var off := 1;
    ghost var done := [DOC_BUNDLE_MAGIC_V1];
    assert out[..off] == done;
    Memcpy(out, off, U32(|index|));
    off, done := off + 4, done + U32(|index|);
    assert out[..off] == done;
    Memcpy(out, off, index);
    off, done := off + |index|, done + index;
    assert out[..off] == done;
    Memcpy(out, off, U32(|body|));
    off, done := off + 4, done + U32(|body|);
    assert out[..off] == done;
    Memcpy(out, off, body);
    off, done := off + |body|, done + body;
    assert out[..off] == done;
    packed := out[..];
    assert packed[..off] == done;
  }

  /** pack_doc_bundle_legacy */
  method PackDocBundleLegacy(content: Text) returns (packed: Text)
    ensures |packed| == MAX_FILE_SIZE
    ensures var kept := if |content| < MAX_FILE_SIZE then |content| else MAX_FILE_SIZE - 1;
            packed == [DOC_BUNDLE_MAGIC_LEGACY] + content[..kept] + seq(MAX_FILE_SIZE - 1 - kept, _ => 0 as byte)
  {
    var out := new byte[MAX_FILE_SIZE](_ => 0);
    out[0] := DOC_BUNDLE_MAGIC_LEGACY;
    var copyLen := if |content| < MAX_FILE_SIZE - 1 then |content| else MAX_FILE_SIZE - 1;
    Memcpy(out, 1, content[..copyLen]);
    packed := out[..];
  }

  /** parse_doc_bundle_ex */
  function ParseBundle(plain: Text): Parsed
  {
    if plain == [] then Parsed(false, [], [], 0)
    else if plain[0] == DOC_BUNDLE_MAGIC_LEGACY then Parsed(true, UpToNul(plain[1..]), [], 0)
    else if plain[0] == DOC_BUNDLE_MAGIC_V2 then
      if |plain| < 13 then Parsed(false, [], [], 0) else ParseSections(plain, 5, ReadU32(plain, 1))
    else if plain[0] == DOC_BUNDLE_MAGIC_V1 then ParseSections(plain, 1, 0)
    else Parsed(false, [], plain, 0)
  }

  function ParseSections(plain: Text, off: nat, version: int): Parsed
    requires off <= |plain|
  {
    if |plain| < off + 8 then Parsed(false, [], [], version)
    else
      var indexLen := ReadU32(plain, off);
      var bodyOff := off + 4 + indexLen;
      if bodyOff > |plain| then Parsed(false, [], [], version)
      else
        var index := plain[off + 4..bodyOff];
        if bodyOff + 4 > |plain| then Parsed(false, index, [], version)
        else
          var bodyLen := ReadU32(plain, bodyOff);
          if bodyOff + 4 + bodyLen > |plain| then Parsed(false, index, [], version)
          else Parsed(true, index, plain[bodyOff + 4..bodyOff + 4 + bodyLen], version)
  }

  method ParseDocBundleEx(plain: Text) returns (ok: bool, indexOut: Text, bodyOut: Text, slotVersionOut: int)
    ensures Parsed(ok, indexOut, bodyOut, slotVersionOut) == ParseBundle(plain)
  {
    ok, indexOut, bodyOut, slotVersionOut := false, [], [], 0;
    if |plain| == 0 {
      return;
    }
    var magic := plain[0];
    if magic == DOC_BUNDLE_MAGIC_LEGACY {
      ok := true;
      if |plain| > 1 {
        indexOut := UpToNul(plain[1..]);
      }
      return;
    }
    var off := 1;
    if magic == DOC_BUNDLE_MAGIC_V2 {
      if |plain| < off + 4 + 8 {
        return;
      }
      slotVersionOut := ReadU32(plain, off);
      off := off + 4;
    } else if magic != DOC_BUNDLE_MAGIC_V1 {
      bodyOut := plain;
      return;
    }
    if |plain| < off + 8 {
      return;
    }
    var indexLen := ReadU32(plain, off);
    off := off + 4;
    if off + indexLen > |plain| {
      return;
    }
    indexOut := plain[off..off + indexLen];
    off := off + indexLen;
    if off + 4 > |plain| {
      return;
    }
    var bodyLen := ReadU32(plain, off);
    off := off + 4;
    if off + bodyLen > |plain| {
      return;
    }
    bodyOut := plain[off..off + bodyLen];
    ok := true;
  }

  lemma SectionsParse(pre: Text, index: Text, body: Text, rest: Text, version: int)
    requires |index| < U32_RANGE && |body| < U32_RANGE
    ensures ParseSections(pre + U32(|index|) + index + U32(|body|) + body + rest, |pre|, version)
         == Parsed(true, index, body, version)
  {
    var plain := pre + U32(|index|) + index + U32(|body|) + body + rest;
    var tail := index + U32(|body|) + body + rest;
    assert plain == pre + U32(|index|) + tail;
    ReadU32Back(pre, |index|, tail);
    var pre2 := pre + U32(|index|) + index;
    assert plain == pre2 + U32(|body|) + (body + rest);
    ReadU32Back(pre2, |body|, body + rest);
    assert plain[|pre| + 4..|pre2|] == index;
    assert plain[|pre2| + 4..|pre2| + 4 + |body|] == body;
  }

  /** A packed bundle parses to exactly what was packed, whatever the padding is. */
  lemma ParsePackedV2(index: Text, body: Text, version: int, packed: Text)
    requires SectionsV2(index, body, version) <= packed && |packed| == MAX_FILE_SIZE
    requires IsU32(version)
    ensures ParseBundle(packed) == Parsed(true, index, body, version)
  {
    var sections := SectionsV2(index, body, version);
    var rest := packed[|sections|..];
    var pre := [DOC_BUNDLE_MAGIC_V2] + U32(version);
    assert packed == sections + rest;
    assert packed == pre + U32(|index|) + index + U32(|body|) + body + rest;
    assert packed == [DOC_BUNDLE_MAGIC_V2] + U32(version) + (U32(|index|) + index + U32(|body|) + body + rest);
    ReadU32Back([DOC_BUNDLE_MAGIC_V2], version, U32(|index|) + index + U32(|body|) + body + rest);
    SectionsParse(pre, index, body, rest, version);
  }

  lemma ParsePackedV1(index: Text, body: Text, packed: Text)
    requires SectionsV1(index, body) <= packed && |packed| == MAX_FILE_SIZE
    ensures ParseBundle(packed) == Parsed(true, index, body, 0)
  {
    var sections := SectionsV1(index, body);
    var rest := packed[|sections|..];
    assert packed == sections + rest;
    SectionsParse([DOC_BUNDLE_MAGIC_V1], index, body, rest, 0);
  }

  /** A legacy bundle gives back its content up to the first NUL as the index, and no body. */
  lemma ParsePackedLegacy(content: Text, zeros: nat)
    ensures ParseBundle([DOC_BUNDLE_MAGIC_LEGACY] + content + seq(zeros, _ => 0 as byte))
         == Parsed(true, UpToNul(content), [], 0)
  {
    var tail := content + seq(zeros, _ => 0 as byte);
    var packed := [DOC_BUNDLE_MAGIC_LEGACY] + content + seq(zeros, _ => 0 as byte);
    assert packed[1..] == tail;
    UpToNulPrefix(tail, |content|);
    assert tail[..|content|] == content;
  }
}
