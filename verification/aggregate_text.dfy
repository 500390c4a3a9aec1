/** The text form of an aggregate: printed by the server, picked apart by the gateway. */
module AggregateText {
  import opened Bytes
  import opened BitPack
  import opened Labels
  import opened Context
  import opened Select

  const AGG_PREFIX: Text := Ascii("ENCDB_AGG|op=")
  const AGG_MATCHES: Text := Ascii("|match_count=")
  const AGG_VALUE: Text := Ascii("|value=")

  /** The fixed parts of the gateway's pattern, byte by byte. */
  const PATTERN_OP: Text := [69, 78, 67, 68, 66, 95, 65, 71, 71, 124, 111, 112, 61]
  const PATTERN_MATCHES: Text := [124, 109, 97, 116, 99, 104, 95, 99, 111, 117, 110, 116, 61]
  const PATTERN_VALUE: Text := [124, 118, 97, 108, 117, 101, 61]

  /** The operation names of SELECT types 1 to 4. */
  function OpName(kind: int): Text
    requires 1 <= kind <= 4
  {
    if kind == 1 then Ascii("MAX")
    else if kind == 2 then Ascii("MIN")
    else if kind == 3 then Ascii("SUM")
    else Ascii("AVG")
  }

  /** snprintf with the aggregate format */
  function MetaText(op: Text, matchCount: int, value: int): Text
  {
    AGG_PREFIX + (op + (AGG_MATCHES + (ToString(matchCount) + (AGG_VALUE + ToString(value)))))
  }

  /** The zeroed content field with the text printed into it. */
  function ContentField(text: Text): (field: Text)
    requires |text| < MAX_FILE_SIZE
    ensures |field| == MAX_FILE_SIZE
  {
    text + seq(MAX_FILE_SIZE - |text|, _ => 0)
  }

  // ----- the gateway

  /** decode_cstr_bytes */
  function DecodeCstr(chunk: Text): Text
  {
    if chunk == [] || chunk[0] == 0 then [] else [chunk[0]] + DecodeCstr(chunk[1..])
  }

  /** Control characters other than tab, line feed and carriage return, and delete. */
  predicate Unprintable(b: byte)
  {
    (b < 32 && b != 9 && b != 10 && b != 13) || b == 127
  }

  predicate IsSpace(b: byte)
  {
    9 <= b <= 13 || 28 <= b <= 32 || b == 133 || b == 160
  }

  function Printable(s: Text): Text
  {
    if s == [] then [] else (if Unprintable(s[0]) then [] else [s[0]]) + Printable(s[1..])
  }

  function StripLeft(s: Text): Text
  {
    if s != [] && IsSpace(s[0]) then StripLeft(s[1..]) else s
  }

  function StripRight(s: Text): Text
  {
    if s != [] && IsSpace(s[|s| - 1]) then StripRight(s[..|s| - 1]) else s
  }

  /** sanitize_for_json */
  function Sanitize(s: Text): Text
  {
    StripRight(StripLeft(Printable(s)))
  }

  datatype Meta = NoMeta | Meta(op: Text, matchCount: int, value: int)

  predicate IsUpper(b: byte)
  {
    65 <= b <= 90
  }

  /** The longest run of bytes of a class at the start. */
  function Span(s: Text, upper: bool): (n: nat)
    ensures n <= |s|
  {
    if s != [] && (if upper then IsUpper(s[0]) else IsDigit(s[0])) then 1 + Span(s[1..], upper) else 0
  }

  /**
   The aggregate pattern at the start of s, group by group; each group is delimited, so the longest run
   is the only one that matches.
   */
  function MatchHere(s: Text): Meta
  {
    if PATTERN_OP <= s then MatchOp(s[|PATTERN_OP|..]) else NoMeta
  }

  function MatchOp(s: Text): Meta
  {
    var n := Span(s, true);
    if n == 0 || !(PATTERN_MATCHES <= s[n..]) then NoMeta else MatchCount(s[..n], s[n..][|PATTERN_MATCHES|..])
  }

  function MatchCount(op: Text, s: Text): Meta
  {
    var n := Span(s, false);
    if n == 0 || !(PATTERN_VALUE <= s[n..]) then NoMeta
    else MatchValue(op, DigitsValue(s[..n], 0), s[n..][|PATTERN_VALUE|..])
  }

  function MatchValue(op: Text, matchCount: int, s: Text): Meta
  {
    var sign := if s != [] && s[0] == 45 then 1 else 0;
    var digits := Span(s[sign..], false);
    if digits == 0 then NoMeta else Meta(op, matchCount, Atoi(s[..sign + digits]))
  }

  /** re.search: the leftmost position where the pattern matches. */
  function SearchMeta(s: Text): Meta
  {
    if MatchHere(s).Meta? then MatchHere(s) else if s == [] then NoMeta else SearchMeta(s[1..])
  }

  /** parse_aggregate_meta on a content field */
  function ReadMeta(field: Text): Meta
  {
    SearchMeta(Sanitize(DecodeCstr(field)))
  }

  // ----- round trip

  /** Bytes that survive decoding and sanitizing. */
  predicate Plain(s: Text)
  {
    forall i :: 0 <= i < |s| ==> s[i] != 0 && !Unprintable(s[i])
  }

  lemma {:induction false} DecodePlain(s: Text, zeros: Text)
    requires Plain(s) && zeros != [] && zeros[0] == 0
    ensures DecodeCstr(s + zeros) == s
  {
    if s == [] {
      assert s + zeros == zeros;
    } else {
      assert (s + zeros)[1..] == s[1..] + zeros;
      DecodePlain(s[1..], zeros);
    }
  }

  lemma {:induction false} PrintablePlain(s: Text)
    requires Plain(s)
    ensures Printable(s) == s
  {
    if s != [] {
      PrintablePlain(s[1..]);
    }
  }

  lemma {:induction false} SpanEnds(run: Text, rest: Text, upper: bool)
    requires forall i :: 0 <= i < |run| ==> if upper then IsUpper(run[i]) else IsDigit(run[i])
    requires rest != [] ==> if upper then !IsUpper(rest[0]) else !IsDigit(rest[0])
    ensures Span(run + rest, upper) == |run| && (run + rest)[..|run|] == run && (run + rest)[|run|..] == rest
  {
    if run == [] {
      assert run + rest == rest;
    } else {
      assert (run + rest)[1..] == run[1..] + rest;
      SpanEnds(run[1..], rest, upper);
    }
  }

  /** Server and gateway agree on the fixed parts. */
  lemma SamePattern()
    ensures AGG_PREFIX == PATTERN_OP && AGG_MATCHES == PATTERN_MATCHES && AGG_VALUE == PATTERN_VALUE
  {
  }

  lemma DropPrefix(a: Text, b: Text)
    ensures a <= a + b && (a + b)[|a|..] == b
  {
  }

  lemma ToStringShape(n: int)
    ensures var s := ToString(n);
            if n < 0 then |s| > 1 && s[0] == 45 && AllDigits(s[1..]) else |s| > 0 && s[0] != 45 && AllDigits(s)
    ensures Plain(ToString(n)) && IsDigit(ToString(n)[|ToString(n)| - 1])
  {
    if n < 0 {
      assert ToString(n)[1..] == Decimal(-n);
    }
  }

  lemma MatchMeta(op: Text, matchCount: nat, value: int)
    requires op != [] && forall i :: 0 <= i < |op| ==> IsUpper(op[i])
    ensures MatchHere(MetaText(op, matchCount, value)) == Meta(op, matchCount, value)
  {
    SamePattern();
    hide Span, MatchCount, ToString;
    var count := ToString(matchCount) + (AGG_VALUE + ToString(value));
    var middle := AGG_MATCHES + count;
    DropPrefix(AGG_PREFIX, op + middle);
    assert !IsUpper(AGG_MATCHES[0]) && middle[0] == AGG_MATCHES[0];
    SpanEnds(op, middle, true);
    DropPrefix(AGG_MATCHES, count);
    CountBack(op, matchCount, value);
  }

  lemma CountBack(op: Text, matchCount: nat, value: int)
    ensures MatchCount(op, ToString(matchCount) + (AGG_VALUE + ToString(value))) == Meta(op, matchCount, value)
  {
    SamePattern();
    hide Span, Decimal, ToString, MatchValue;
    var tail := AGG_VALUE + ToString(value);
    assert !IsDigit(AGG_VALUE[0]) && tail[0] == AGG_VALUE[0];
    ToStringShape(matchCount);
    SpanEnds(ToString(matchCount), tail, false);
    DropPrefix(AGG_VALUE, ToString(value));
    PlainValue(matchCount);
    ValueBack(op, matchCount, value);
  }

  lemma PlainValue(n: nat)
    ensures DigitsValue(ToString(n), 0) == n
  {
    DecimalValue(n);
  }

  lemma ValueBack(op: Text, matchCount: int, value: int)
    ensures MatchValue(op, matchCount, ToString(value)) == Meta(op, matchCount, value)
  {
    hide Span, Decimal, ToString, Atoi;
    NumberSpan(value);
    AtoiToString(value);
  }

  lemma NumberSpan(value: int)
    ensures var s := ToString(value);
            var sign := if s != [] && s[0] == 45 then 1 else 0;
            Span(s[sign..], false) > 0 && s[..sign + Span(s[sign..], false)] == s
  {
    ToStringShape(value);
    var s := ToString(value);
    var sign := if s != [] && s[0] == 45 then 1 else 0;
    SpanEnds(s[sign..], [], false);
    assert s[sign..] + [] == s[sign..];
  }

  lemma PlainJoin(a: Text, b: Text)
    requires Plain(a) && Plain(b)
    ensures Plain(a + b)
  {
  }

  lemma PlainAscii(s: string)
    requires forall i :: 0 <= i < |s| ==> 32 < s[i] as int < 127
    ensures Plain(Ascii(s)) && |Ascii(s)| == |s| && (s != "" ==> !IsSpace(Ascii(s)[0]))
  {
  }

  lemma PlainConstants()
    ensures Plain(AGG_PREFIX) && Plain(AGG_MATCHES) && Plain(AGG_VALUE) && |AGG_PREFIX| > 0 && !IsSpace(AGG_PREFIX[0])
  {
    hide Plain, Ascii;
    PlainAscii("ENCDB_AGG|op=");
    PlainAscii("|match_count=");
    PlainAscii("|value=");
  }

  lemma MetaPlain(op: Text, matchCount: nat, value: int)
    requires op != [] && forall i :: 0 <= i < |op| ==> IsUpper(op[i])
    ensures var s := MetaText(op, matchCount, value);
            Plain(s) && s != [] && !IsSpace(s[0]) && !IsSpace(s[|s| - 1])
  {
    ToStringShape(matchCount);
    ToStringShape(value);
    assert Plain(op);
    PlainConstants();
    hide Plain, Decimal, ToString, Ascii;
    var v := ToString(value);
    var tail := AGG_VALUE + v;
    PlainJoin(AGG_VALUE, v);
    PlainJoin(ToString(matchCount), tail);
    PlainJoin(AGG_MATCHES, ToString(matchCount) + tail);
    PlainJoin(op, AGG_MATCHES + (ToString(matchCount) + tail));
    PlainJoin(AGG_PREFIX, op + (AGG_MATCHES + (ToString(matchCount) + tail)));
    var s := MetaText(op, matchCount, value);
    assert s[|s| - 1] == v[|v| - 1];
    assert s[0] == AGG_PREFIX[0];
  }

  /**
   The gateway reads back exactly the operation, match count and value that the server printed, for
   any kind of aggregate and any numbers.
   */
  lemma MetaRoundTrip(op: Text, matchCount: nat, value: int)
    requires op != [] && forall i :: 0 <= i < |op| ==> IsUpper(op[i])
    requires |MetaText(op, matchCount, value)| < MAX_FILE_SIZE
    ensures ReadMeta(ContentField(MetaText(op, matchCount, value))) == Meta(op, matchCount, value)
  {
    hide MetaText, Printable, MatchHere, Plain;
    var s := MetaText(op, matchCount, value);
    MetaPlain(op, matchCount, value);
    DecodePlain(s, seq(MAX_FILE_SIZE - |s|, _ => 0));
    PrintablePlain(s);
    MatchMeta(op, matchCount, value);
  }

  /**
   From the match bitmap to the gateway: each kind of aggregate is shown under its own name, with the
   number of matching slots, and with what that name says about them.
   */
  lemma AggregateShown(kind: int, bits: Bitmap)
    requires 1 <= kind <= 4
    ensures var ids := Ids(bits, TOTAL_FILE_NO);
            var text := MetaText(OpName(kind), |ids|, AggregateValue(kind, ids));
            && |text| < MAX_FILE_SIZE
            && var m := ReadMeta(ContentField(text));
               && m.Meta? && m.matchCount == |Matching(bits)| && AggregateIs(kind, m.value, bits)
               && (kind == 1 ==> m.op == [77, 65, 88]) && (kind == 2 ==> m.op == [77, 73, 78])
               && (kind == 3 ==> m.op == [83, 85, 77]) && (kind == 4 ==> m.op == [65, 86, 71])
  {
    hide ReadMeta, Ids, AggregateValue, Decimal, ContentField, OpName, Ascii, AggregateIs, Matching;
    AggregateMeans(kind, bits);
    OpNames(kind);
    ConstantSizes();
    var ids := Ids(bits, TOTAL_FILE_NO);
    IdsSound(bits, TOTAL_FILE_NO);
    AggregateFits(kind, bits);
    DecimalLength(|ids|);
    DecimalLength(AggregateValue(kind, ids));
    MetaRoundTrip(OpName(kind), |ids|, AggregateValue(kind, ids));
  }

  lemma OpNames(kind: int)
    requires 1 <= kind <= 4
    ensures |OpName(kind)| == 3 && forall i :: 0 <= i < 3 ==> IsUpper(OpName(kind)[i])
    ensures OpName(kind) ==
      if kind == 1 then [77, 65, 88] else if kind == 2 then [77, 73, 78] else if kind == 3 then [83, 85, 77]
      else [65, 86, 71]
  {
  }

  lemma ConstantSizes()
    ensures |AGG_PREFIX| == 13 && |AGG_MATCHES| == 13 && |AGG_VALUE| == 7
  {
  }

  lemma AggregateFits(kind: int, bits: Bitmap)
    requires 1 <= kind <= 4
    ensures 0 <= AggregateValue(kind, Ids(bits, TOTAL_FILE_NO)) <= 50005000
  {
    var ids := Ids(bits, TOTAL_FILE_NO);
    IdsSound(bits, TOTAL_FILE_NO);
    AggregatesMean(bits);
    assert forall i :: i in ids ==> 0 < i <= TOTAL_FILE_NO;
  }
}
