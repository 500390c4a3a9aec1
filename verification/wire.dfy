/** The request wire format: the C++ writer and reader, and the Python writer that must agree with them. */
module Wire {
  import opened Bytes
  import opened Labels
  import opened Context
  import opened Scalars
  import opened Cursor
  import opened QueryCode
  import opened Select
  import opened Update

  const ENC_KEY_SIZE: nat := 16
  const UPDATE_LEGACY: int := 0
  const WIRE_V1: byte := 1
  const WIRE_LEGACY_SINGLE: byte := 2

  datatype Body =
    | Init(key: Text, mode: byte, edb: int)
    | Ask(select: SelectRequest)
    | Change(update: UpdateRequest)
    | Shutdown(reserved: byte)
    | Invalid

  datatype Message = Message(client: byte, body: Body)

  /** The RequestType enumeration. */
  function TypeOf(b: Body): int
  {
    match b
    case Init(_, _, _) => 0
    case Ask(_) => 1
    case Change(_) => 2
    case Shutdown(_) => 3
    case Invalid => 4
  }

  predicate IsByte(n: int)
  {
    0 <= n < 256
  }

  /** A request that the fixed-size request structures can hold. */
  predicate InStruct(b: Body)
  {
    match b
    case Init(key, mode, edb) => |key| == ENC_KEY_SIZE && IsU32(edb)
    case Ask(s) =>
      && |s.terms| <= MAX_TERMS && (forall t :: t in s.terms ==> |t| <= MAX_KEYWORD_LEN)
      && |s.code| <= MAX_CODE && IsByte(s.kind)
    case Change(u) =>
      && IsByte(u.op) && IsI32(u.docId) && |u.doc| <= MAX_FILE_SIZE && |u.index| <= MAX_FILE_SIZE
      && (u.flags == UPDATE_SPLIT || (u.flags == UPDATE_LEGACY && u.index == []))
    case Shutdown(_) => true
    case Invalid => true
  }

  // ----- what goes on the wire

  function Block(s: Text): Text
  {
    U32(|s|) + s
  }

  function TermBytes(terms: seq<Text>): Text
    requires forall t :: t in terms ==> |t| < 256
  {
    if terms == [] then []
    else
      assert terms[0] in terms;
      [|terms[0]| as byte] + (terms[0] + TermBytes(terms[1..]))
  }

  function SelectBytes(s: SelectRequest): Text
    requires InStruct(Ask(s))
  {
    U32(|s.terms|) + (TermBytes(s.terms) + (Block(s.code) + [s.kind as byte]))
  }

  function UpdateBytes(u: UpdateRequest): Text
    requires InStruct(Change(u))
  {
    [u.op as byte] + (U32(u.docId)
      + (if u.flags == UPDATE_SPLIT then [WIRE_V1] + ([u.flags as byte] + (Block(u.index) + Block(u.doc)))
         else [WIRE_LEGACY_SINGLE] + Block(u.doc)))
  }

  function BodyBytes(b: Body): Text
    requires InStruct(b)
  {
    match b
    case Init(key, mode, edb) => key + ([mode] + U32(edb))
    case Ask(s) => SelectBytes(s)
    case Change(u) => UpdateBytes(u)
    case Shutdown(reserved) => [reserved]
    case Invalid => []
  }

  /** Header and body; the length field is the length of the body. */
  function MessageBytes(m: Message): Text
    requires InStruct(m.body)
  {
    var body := BodyBytes(m.body);
    [m.client] + (U32(TypeOf(m.body)) + (U32(|body|) + body))
  }

  /** What the Python client loses: its writer sends a zero for the reserved byte. */
  function PythonSends(m: Message): Message
  {
    if m.body.Shutdown? then m.(body := Shutdown(0)) else m
  }

  // ----- writing

  lemma {:induction false} TermsSnoc(terms: seq<Text>, t: Text)
    requires (forall x :: x in terms ==> |x| < 256) && |t| < 256
    ensures TermBytes(terms + [t]) == TermBytes(terms) + ([|t| as byte] + t)
  {
    if terms == [] {
      assert (terms + [t])[1..] == [];
    } else {
      assert (terms + [t])[1..] == terms[1..] + [t];
      TermsSnoc(terms[1..], t);
    }
  }

  lemma OneMoreTerm(terms: seq<Text>, i: nat)
    requires i < |terms| && forall x :: x in terms ==> |x| < 256
    ensures |terms[i]| < 256 && (forall x :: x in terms[..i + 1] ==> |x| < 256)
    ensures (forall x :: x in terms[..i] ==> |x| < 256)
    ensures TermBytes(terms[..i + 1]) == TermBytes(terms[..i]) + ([|terms[i]| as byte] + terms[i])
  {
    assert terms[i] in terms;
    assert terms[..i + 1] == terms[..i] + [terms[i]];
    TermsSnoc(terms[..i], terms[i]);
  }

  /** The terms loop of write_request_body. */
  method WriteTerms(terms: seq<Text>) returns (buf: Text)
    requires forall t :: t in terms ==> |t| < 256
    ensures buf == TermBytes(terms)
  {
    hide TermBytes;
    buf := [];
    NoTerms();
    for i := 0 to |terms|
      invariant (forall t :: t in terms[..i] ==> |t| < 256) && buf == TermBytes(terms[..i])
    {
      OneMoreTerm(terms, i);
      buf := buf + ([|terms[i]| as byte] + terms[i]);
    }
    assert terms[..|terms|] == terms;
  }

  lemma NoTerms()
    ensures TermBytes([]) == []
  {
  }

  method WriteSelect(select: SelectRequest) returns (buf: Text)
    requires InStruct(Ask(select))
    ensures buf == SelectBytes(select)
  {
    hide U32, TermBytes;
    var terms := WriteTerms(select.terms);
    buf := U32(|select.terms|) + terms;
    buf := buf + U32(|select.code|);
    buf := buf + select.code;
    buf := buf + [select.kind as byte];
  }

  method WriteUpdate(update: UpdateRequest) returns (buf: Text)
    requires InStruct(Change(update))
    ensures buf == UpdateBytes(update)
  {
    hide U32;
    buf := [update.op as byte];
    buf := buf + U32(update.docId);
    if update.flags == UPDATE_SPLIT {
      buf := buf + [WIRE_V1];
      buf := buf + [update.flags as byte];
      buf := buf + U32(|update.index|) + update.index;
      buf := buf + U32(|update.doc|) + update.doc;
    } else {
      buf := buf + [WIRE_LEGACY_SINGLE];
      buf := buf + U32(|update.doc|) + update.doc;
    }
  }

  /** write_request_body */
  method WriteRequestBody(b: Body) returns (buf: Text)
    requires InStruct(b)
    ensures buf == BodyBytes(b)
  {
    match b {
      case Init(key, mode, edb) =>
        buf := key + [mode];
        buf := buf + U32(edb);
      case Ask(select) =>
        buf := WriteSelect(select);
      case Change(update) =>
        buf := WriteUpdate(update);
      case Shutdown(reserved) =>
        buf := [reserved];
      case Invalid =>
        buf := [];
    }
  }

  /** serialize_encdb_request: the length field is written as zero and patched afterwards. */
  method SerializeEncdbRequest(m: Message) returns (buf: Text)
    requires InStruct(m.body)
    ensures buf == MessageBytes(m)
  {
    hide BodyBytes;
    buf := [m.client];
    buf := buf + U32(TypeOf(m.body));
    var bodyLenPos := |buf|;
    buf := buf + U32(0);
    var bodyStart := |buf|;
    var body := WriteRequestBody(m.body);
    buf := buf + body;
    var bodyLen := |buf| - bodyStart;
    buf := buf[..bodyLenPos] + U32(bodyLen) + buf[bodyLenPos + 4..];
  }

  /** bytes[:n] of the Python writer */
  function Truncated(s: Text, n: nat): (t: Text)
    ensures |s| <= n ==> t == s
  {
    if |s| <= n then s else s[..n]
  }

  /** bytes.ljust(n, zero byte)[:n] */
  function Padded(s: Text, n: nat): (t: Text)
    ensures |t| == n && (|s| == n ==> t == s)
  {
    if |s| >= n then s[..n] else s + seq(n - |s|, _ => 0)
  }

  /** serialize_request of the gateway. */
  method PythonSerializeRequest(m: Message) returns (buf: Text)
    requires InStruct(m.body)
    ensures buf == MessageBytes(PythonSends(m))
  {
    hide U32, SelectBytes, UpdateBytes, InStruct;
    buf := [m.client];
    buf := buf + U32(TypeOf(m.body));
    var header := buf;
    var body := PythonBody(m.body);
    buf := header + (U32(|body|) + body);
  }

  /** The branches of serialize_request. */
  method PythonBody(b: Body) returns (body: Text)
    requires InStruct(b)
    ensures body == if b.Shutdown? then [0] else BodyBytes(b)
  {
    hide U32, SelectBytes, UpdateBytes;
    body := [];
    match b {
      case Init(key, mode, edb) =>
        body := Padded(key, ENC_KEY_SIZE);
        body := body + [mode];
        body := body + U32(edb);
      case Shutdown(_) =>
        body := [0];
      case Ask(s) =>
        body := PythonSelect(s);
      case Change(u) =>
        body := PythonUpdate(u);
      case Invalid =>
    }
  }

  method PythonUpdate(u: UpdateRequest) returns (body: Text)
    requires InStruct(Change(u))
    ensures body == UpdateBytes(u)
  {
    hide U32;
    body := [u.op as byte];
    body := body + U32(u.docId);
    if u.flags == UPDATE_SPLIT {
      body := body + [WIRE_V1];
      body := body + [u.flags as byte];
      var index := Truncated(u.index, MAX_FILE_SIZE);
      body := body + U32(|index|) + index;
    } else {
      body := body + [WIRE_LEGACY_SINGLE];
    }
    var doc := Truncated(u.doc, MAX_FILE_SIZE);
    body := body + U32(|doc|) + doc;
  }

  method PythonSelect(s: SelectRequest) returns (body: Text)
    requires InStruct(Ask(s))
    ensures body == SelectBytes(s)
  {
    hide U32, TermBytes;
    var terms: Text := [];
    NoTerms();
    for i := 0 to |s.terms|
      invariant (forall t :: t in s.terms[..i] ==> |t| < 256) && terms == TermBytes(s.terms[..i])
    {
      OneMoreTerm(s.terms, i);
      var t := s.terms[i];
      terms := terms + ([|t| as byte] + t[..|t|]);
    }
    assert s.terms[..|s.terms|] == s.terms;
    body := U32(|s.terms|) + terms;
    body := body + U32(|s.code|);
    body := body + s.code;
    body := body + [s.kind as byte];
  }

  // ----- reading

  /** The reader stops where the input does, throws on a length over its limit, or fills in a request. */
  datatype Outcome = OutOfInput | Overflow | Decoded(body: Body, rest: Text)

  /** key, then mode and target database if the body is long enough. */
  function ParseInit(s: Text, bodyLen: int): Outcome
  {
    var key := TakeBytes(s, ENC_KEY_SIZE);
    if key.Short? then OutOfInput
    else if bodyLen <= ENC_KEY_SIZE then Decoded(Init(key.value, 0, 0), key.rest)
    else
      var mode := TakeU8(key.rest);
      if mode.Short? then OutOfInput
      else if bodyLen < ENC_KEY_SIZE + 5 then Decoded(Init(key.value, mode.value, 0), mode.rest)
      else
        var edb := TakeU32(mode.rest);
        if edb.Short? then OutOfInput else Decoded(Init(key.value, mode.value, edb.value), edb.rest)
  }

  function ParseTerms(s: Text, count: int): Take<seq<Text>>
    decreases count
  {
    if count <= 0 then Got([], s)
    else
      var len := TakeU8(s);
      if len.Short? then Short else
      var data := TakeBytes(len.rest, len.value as int);
      if data.Short? then Short else
      var more := ParseTerms(data.rest, count - 1);
      if more.Short? then Short else Got([data.value] + more.value, more.rest)
  }

  function ParseSelect(s: Text): Outcome
  {
    var count := TakeI32(s);
    if count.Short? then OutOfInput
    else if count.value > MAX_TERMS then Overflow
    else
      var terms := ParseTerms(count.rest, count.value);
      if terms.Short? then OutOfInput else ParseCode(terms.rest, terms.value)
  }

  function ParseCode(s: Text, terms: seq<Text>): Outcome
  {
    var len := TakeI32(s);
    if len.Short? || len.value < 0 then OutOfInput else
    var code := TakeBytes(len.rest, len.value);
    if code.Short? then OutOfInput else
    var kind := TakeU8(code.rest);
    if kind.Short? then OutOfInput
    else Decoded(Ask(SelectRequest(terms, code.value, kind.value as int)), kind.rest)
  }

  /** A length over the limit throws; a negative one copies past the end. */
  datatype Field = NoInput | TooLong | Field(value: Text, rest: Text)

  function ParseField(s: Text): Field
  {
    var len := TakeI32(s);
    if len.Short? then NoInput
    else if len.value > MAX_FILE_SIZE then TooLong
    else if len.value < 0 then NoInput
    else
      var data := TakeBytes(len.rest, len.value);
      if data.Short? then NoInput else Field(data.value, data.rest)
  }

  /** The document of an update whose other fields are known. */
  function ParseDoc(s: Text, op: byte, docId: int, flags: int, index: Text): Outcome
  {
    match ParseField(s)
    case NoInput => OutOfInput
    case TooLong => Overflow
    case Field(doc, rest) => Decoded(Change(UpdateRequest(op as int, flags, docId, index, doc)), rest)
  }

  function ParseSplit(s: Text, op: byte, docId: int): Outcome
  {
    var flags := TakeU8(s);
    if flags.Short? then OutOfInput
    else
      match ParseField(flags.rest)
      case NoInput => OutOfInput
      case TooLong => Overflow
      case Field(index, rest) => ParseDoc(rest, op, docId, flags.value as int, index)
  }

  function ParseUpdate(s: Text): Outcome
  {
    var op := TakeU8(s);
    if op.Short? then OutOfInput else
    var docId := TakeI32(op.rest);
    if docId.Short? then OutOfInput else
    var tag := TakeU8(docId.rest);
    if tag.Short? then OutOfInput
    else if tag.value == WIRE_V1 then ParseSplit(tag.rest, op.value, docId.value)
    else if tag.value == WIRE_LEGACY_SINGLE then ParseDoc(tag.rest, op.value, docId.value, UPDATE_LEGACY, [])
    else ParseDoc(docId.rest, op.value, docId.value, UPDATE_LEGACY, [])
  }

  function ParseBody(t: int, s: Text, bodyLen: int): Outcome
  {
    if t == 0 then ParseInit(s, bodyLen)
    else if t == 1 then ParseSelect(s)
    else if t == 2 then ParseUpdate(s)
    else if t == 3 then
      if bodyLen <= 0 then Decoded(Shutdown(0), s)
      else
        var reserved := TakeU8(s);
        if reserved.Short? then OutOfInput else Decoded(Shutdown(reserved.value), reserved.rest)
    else Decoded(Invalid, s)
  }

  datatype Delivery = Undelivered | Thrown | Delivered(message: Message, rest: Text)

  function ParseMessage(s: Text): Delivery
  {
    var client := TakeU8(s);
    if client.Short? then Undelivered else
    var t := TakeU32(client.rest);
    if t.Short? then Undelivered else
    var bodyLen := TakeU32(t.rest);
    if bodyLen.Short? then Undelivered else
    match ParseBody(t.value, bodyLen.rest, bodyLen.value)
    case OutOfInput => Undelivered
    case Overflow => Thrown
    case Decoded(body, rest) => Delivered(Message(client.value, body), rest)
  }

  // ----- the C++ reader

  datatype Status = Fine | Ended | Threw

  predicate Agrees(o: Outcome, status: Status, body: Body, rest: Text)
  {
    o == match status
         case Fine => Decoded(body, rest)
         case Ended => OutOfInput
         case Threw => Overflow
  }

  method ReadInit(r: Reader, bodyLen: int) returns (status: Status, body: Body)
    requires r.p <= |r.buf|
    modifies r
    ensures r.p <= |r.buf| && Agrees(ParseInit(r.buf[old(r.p)..], bodyLen), status, body, r.buf[r.p..])
  {
    hide TakeU8, TakeU32, TakeBytes;
    var bodyEnd := r.p + bodyLen;
    status, body := Ended, Invalid;
    var ok, key := r.ReadBytes(ENC_KEY_SIZE);
    if !ok { return; }
    var mode: byte, edb := 0, 0;
    if r.p < bodyEnd {
      ok, mode := r.ReadByte();
      if !ok { return; }
      if r.p + 4 <= bodyEnd {
        ok, edb := r.ReadUnsigned();
        if !ok { return; }
      }
    }
    status, body := Fine, Init(key, mode, edb);
  }

  method ReadTerms(r: Reader, count: int) returns (ok: bool, terms: seq<Text>)
    requires r.p <= |r.buf|
    modifies r
    ensures r.p <= |r.buf|
    ensures ParseTerms(r.buf[old(r.p)..], count) == if ok then Got(terms, r.buf[r.p..]) else Short
  {
    hide TakeU8, TakeBytes;
    ok, terms := true, [];
    var i := 0;
    PrependNothing(ParseTerms(r.buf[r.p..], count));
    while i < count
      invariant 0 <= i && (i <= count || i == 0) && r.p <= |r.buf| && ok
      invariant Prepend(terms, ParseTerms(r.buf[r.p..], count - i)) == ParseTerms(r.buf[old(r.p)..], count)
    {
      var len: byte;
      ok, len := r.ReadByte();
      if !ok { return; }
      var data: Text;
      ok, data := r.ReadBytes(len as int);
      if !ok { return; }
      PrependMore(terms, data, ParseTerms(r.buf[r.p..], count - i - 1));
      terms := terms + [data];
      i := i + 1;
    }
    assert terms + [] == terms;
  }

  function Prepend(terms: seq<Text>, t: Take<seq<Text>>): Take<seq<Text>>
  {
    if t.Short? then Short else Got(terms + t.value, t.rest)
  }

  lemma PrependNothing(t: Take<seq<Text>>)
    ensures Prepend([], t) == t
  {
    if t.Got? {
      assert [] + t.value == t.value;
    }
  }

  lemma PrependMore(terms: seq<Text>, data: Text, t: Take<seq<Text>>)
    ensures Prepend(terms + [data], t)
         == Prepend(terms, if t.Short? then Short else Got([data] + t.value, t.rest))
  {
    if t.Got? {
      assert terms + [data] + t.value == terms + ([data] + t.value);
    }
  }

  method ReadSelect(r: Reader) returns (status: Status, body: Body)
    requires r.p <= |r.buf|
    modifies r
    ensures r.p <= |r.buf| && Agrees(ParseSelect(r.buf[old(r.p)..]), status, body, r.buf[r.p..])
  {
    hide TakeU8, TakeI32, TakeBytes, ParseTerms;
    status, body := Ended, Invalid;
    var ok, count := r.ReadScalar();
    if !ok { return; }
    if count > MAX_TERMS {
      return Threw, body;
    }
    var terms: seq<Text>;
    ok, terms := ReadTerms(r, count);
    if !ok { return; }
    var len: int;
    ok, len := r.ReadScalar();
    if !ok || len < 0 { return; }
    var code: Text;
    ok, code := r.ReadBytes(len);
    if !ok { return; }
    var kind: byte;
    ok, kind := r.ReadByte();
    if !ok { return; }
    status, body := Fine, Ask(SelectRequest(terms, code, kind as int));
  }

  /** A length and that many bytes. */
  method ReadField(r: Reader) returns (status: Status, data: Text)
    requires r.p <= |r.buf|
    modifies r
    ensures r.p <= |r.buf|
    ensures ParseField(r.buf[old(r.p)..])
         == match status case Fine => Field(data, r.buf[r.p..]) case Ended => NoInput case Threw => TooLong
  {
    hide TakeI32, TakeBytes;
    status, data := Ended, [];
    var ok, len := r.ReadScalar();
    if !ok { return; }
    if len > MAX_FILE_SIZE {
      return Threw, data;
    }
    if len < 0 { return; }
    ok, data := r.ReadBytes(len);
    if !ok { return; }
    status := Fine;
  }

  method ReadUpdate(r: Reader) returns (status: Status, body: Body)
    requires r.p <= |r.buf|
    modifies r
    ensures r.p <= |r.buf| && Agrees(ParseUpdate(r.buf[old(r.p)..]), status, body, r.buf[r.p..])
  {
    hide TakeU8, TakeI32, TakeBytes, ParseField;
    status, body := Ended, Invalid;
    var ok, op := r.ReadByte();
    if !ok { return; }
    var docId: int;
    ok, docId := r.ReadScalar();
    if !ok { return; }
    var tagPtr := r.p;
    var wireTag: byte;
    ok, wireTag := r.ReadByte();
    if !ok { return; }
    var flags, index := UPDATE_LEGACY, [];
    if wireTag == WIRE_V1 {
      var f: byte;
      ok, f := r.ReadByte();
      if !ok { return; }
      flags := f as int;
      status, index := ReadField(r);
      if status != Fine { return; }
    } else if wireTag != WIRE_LEGACY_SINGLE {
      r.p := tagPtr;
    }
    var doc: Text;
    status, doc := ReadField(r);
    if status == Fine {
      body := Change(UpdateRequest(op as int, flags, docId, index, doc));
    }
  }

  /** read_request_body */
  method ReadRequestBody(r: Reader, t: int, bodyLen: int) returns (status: Status, body: Body)
    requires r.p <= |r.buf|
    modifies r
    ensures r.p <= |r.buf| && Agrees(ParseBody(t, r.buf[old(r.p)..], bodyLen), status, body, r.buf[r.p..])
  {
    hide TakeU8, ParseInit, ParseSelect, ParseUpdate;
    if t == 0 {
      status, body := ReadInit(r, bodyLen);
    } else if t == 1 {
      status, body := ReadSelect(r);
    } else if t == 2 {
      status, body := ReadUpdate(r);
    } else if t == 3 {
      var reserved: byte := 0;
      var bodyEnd := r.p + bodyLen;
      if r.p < bodyEnd {
        var ok: bool;
        ok, reserved := r.ReadByte();
        if !ok {
          return Ended, Invalid;
        }
      }
      status, body := Fine, Shutdown(reserved);
    } else {
      status, body := Fine, Invalid;
    }
  }

  /** deserialize_encdb_request; used tells how many bytes were consumed. */
  method DeserializeEncdbRequest(payload: Text) returns (status: Status, m: Message, used: nat)
    ensures used <= |payload|
    ensures ParseMessage(payload)
         == match status case Fine => Delivered(m, payload[used..]) case Ended => Undelivered case Threw => Thrown
  {
    hide TakeU8, TakeU32, ParseBody;
    var r := new Reader(payload);
    assert payload[0..] == payload;
    status, m, used := Ended, Message(0, Invalid), 0;
    var ok, client := r.ReadByte();
    if !ok { return; }
    var t: int;
    ok, t := r.ReadUnsigned();
    if !ok { return; }
    var bodyLen: int;
    ok, bodyLen := r.ReadUnsigned();
    if !ok { return; }
    var body: Body;
    status, body := ReadRequestBody(r, t, bodyLen);
    m, used := Message(client, body), r.p;
  }

  // ----- round trips

  lemma {:induction false} TermsBack(terms: seq<Text>, rest: Text)
    requires forall t :: t in terms ==> |t| < 256
    ensures ParseTerms(TermBytes(terms) + rest, |terms|) == Got(terms, rest)
    decreases |terms|
  {
    hide TakeU8, TakeBytes;
    if terms == [] {
      assert TermBytes(terms) + rest == rest;
    } else {
      var t, others := terms[0], terms[1..];
      assert t in terms && forall x :: x in others ==> x in terms;
      var tail := TermBytes(others) + rest;
      assert TermBytes(terms) + rest == [|t| as byte] + (t + tail);
      TakeU8Back(|t| as byte, t + tail);
      TakeBytesBack(t, tail);
      TermsBack(others, rest);
      assert [t] + others == terms;
    }
  }

  lemma SelectBack(s: SelectRequest, rest: Text)
    requires InStruct(Ask(s))
    ensures ParseSelect(SelectBytes(s) + rest) == Decoded(Ask(s), rest)
  {
    hide U32, TakeI32, TakeU8, TakeBytes, TermBytes, ParseTerms;
    var r3 := [s.kind as byte] + rest;
    var r2 := U32(|s.code|) + (s.code + r3);
    var r1 := TermBytes(s.terms) + r2;
    assert SelectBytes(s) + rest == U32(|s.terms|) + r1;
    TakeI32Back(|s.terms|, r1);
    TermsBack(s.terms, r2);
    TakeI32Back(|s.code|, s.code + r3);
    TakeBytesBack(s.code, r3);
    TakeU8Back(s.kind as byte, rest);
  }

  lemma FieldBack(data: Text, rest: Text)
    requires |data| <= MAX_FILE_SIZE
    ensures ParseField(Block(data) + rest) == Field(data, rest)
  {
    hide U32, TakeI32, TakeBytes;
    assert Block(data) + rest == U32(|data|) + (data + rest);
    TakeI32Back(|data|, data + rest);
    TakeBytesBack(data, rest);
  }

  lemma UpdateBack(u: UpdateRequest, rest: Text)
    requires InStruct(Change(u))
    ensures ParseUpdate(UpdateBytes(u) + rest) == Decoded(Change(u), rest)
  {
    hide U32, TakeI32, TakeU8, Block, ParseField;
    var last := Block(u.doc) + rest;
    FieldBack(u.doc, rest);
    if u.flags == UPDATE_SPLIT {
      var r3 := Block(u.index) + last;
      var r2 := [u.flags as byte] + r3;
      var r1 := [WIRE_V1] + r2;
      assert UpdateBytes(u) + rest == [u.op as byte] + (U32(u.docId) + r1);
      TakeU8Back(u.op as byte, U32(u.docId) + r1);
      TakeI32Back(u.docId, r1);
      TakeU8Back(WIRE_V1, r2);
      TakeU8Back(u.flags as byte, r3);
      FieldBack(u.index, last);
    } else {
      var r1 := [WIRE_LEGACY_SINGLE] + last;
      assert UpdateBytes(u) + rest == [u.op as byte] + (U32(u.docId) + r1);
      TakeU8Back(u.op as byte, U32(u.docId) + r1);
      TakeI32Back(u.docId, r1);
      TakeU8Back(WIRE_LEGACY_SINGLE, last);
    }
  }

  lemma InitBack(key: Text, mode: byte, edb: int, rest: Text)
    requires InStruct(Init(key, mode, edb))
    ensures ParseInit(BodyBytes(Init(key, mode, edb)) + rest, ENC_KEY_SIZE + 5) == Decoded(Init(key, mode, edb), rest)
  {
    hide U32, TakeU32, TakeU8, TakeBytes;
    var r2 := U32(edb) + rest;
    var r1 := [mode] + r2;
    assert BodyBytes(Init(key, mode, edb)) + rest == key + r1;
    TakeBytesBack(key, r1);
    TakeU8Back(mode, r2);
    TakeU32Back(edb, rest);
  }

  lemma BodyBack(b: Body, rest: Text)
    requires InStruct(b)
    ensures ParseBody(TypeOf(b), BodyBytes(b) + rest, |BodyBytes(b)|) == Decoded(b, rest)
  {
    hide U32, ParseInit, ParseSelect, ParseUpdate, SelectBytes, UpdateBytes, TakeU8;
    match b
    case Init(key, mode, edb) => InitBack(key, mode, edb, rest);
    case Ask(s) => SelectBack(s, rest);
    case Change(u) => UpdateBack(u, rest);
    case Shutdown(reserved) => TakeU8Back(reserved, rest);
    case Invalid => assert [] + rest == rest;
  }

  lemma {:induction false} TermBytesSize(terms: seq<Text>)
    requires forall t :: t in terms ==> |t| <= MAX_KEYWORD_LEN
    ensures |TermBytes(terms)| <= 33 * |terms|
  {
    if terms != [] {
      assert terms[0] in terms && forall x :: x in terms[1..] ==> x in terms;
      TermBytesSize(terms[1..]);
    }
  }

  lemma BodySize(b: Body)
    requires InStruct(b)
    ensures IsU32(|BodyBytes(b)|)
  {
    hide U32, TermBytes;
    if b.Ask? {
      TermBytesSize(b.select.terms);
    }
  }

  /**
   The C++ reader recovers every in-bounds request from what either writer sends, and consumes exactly
   the message; only the reserved byte of SHUTDOWN is lost on the way from Python.
   */
  lemma RequestRoundTrip(m: Message)
    requires InStruct(m.body)
    ensures ParseMessage(MessageBytes(m)) == Delivered(m, [])
    ensures ParseMessage(MessageBytes(PythonSends(m))) == Delivered(PythonSends(m), [])
  {
    MessageBack(m);
    MessageBack(PythonSends(m));
  }

  lemma MessageBack(m: Message)
    requires InStruct(m.body)
    ensures ParseMessage(MessageBytes(m)) == Delivered(m, [])
  {
    hide U32, ParseBody, BodyBytes, TakeU8, TakeU32;
    var body := BodyBytes(m.body);
    assert body + [] == body;
    BodySize(m.body);
    TakeU8Back(m.client, U32(TypeOf(m.body)) + (U32(|body|) + body));
    TakeU32Back(TypeOf(m.body), U32(|body|) + body);
    TakeU32Back(|body|, body);
    BodyBack(m.body, []);
  }

  /** The oldest UPDATE form, without a tag byte. */
  function UntaggedBytes(op: byte, docId: int, doc: Text): Text
  {
    [op] + (U32(docId) + Block(doc))
  }

  lemma UntaggedRead(op: byte, docId: int, doc: Text)
    requires IsI32(docId) && |doc| <= MAX_FILE_SIZE
    ensures ParseUpdate(UntaggedBytes(op, docId, doc)) ==
      var tail := Block(doc)[1..];
      if |doc| % 256 == 1 then ParseSplit(tail, op, docId)
      else if |doc| % 256 == 2 then ParseDoc(tail, op, docId, UPDATE_LEGACY, [])
      else ParseDoc(Block(doc), op, docId, UPDATE_LEGACY, [])
  {
    hide TakeI32, ParseField;
    var tag := U32(|doc|)[0];
    assert tag as int == |doc| % 256;
    TakeU8Back(op, U32(docId) + Block(doc));
    TakeI32Back(docId, Block(doc));
    assert TakeU8(Block(doc)) == Got(tag, Block(doc)[1..]);
  }

  /** A short document length is taken for the tag of the newer forms: exactly these untagged updates are misread. */
  lemma UntaggedLegacy(op: byte, docId: int, doc: Text)
    requires IsI32(docId) && |doc| <= MAX_FILE_SIZE
    ensures ParseUpdate(UntaggedBytes(op, docId, doc))
         == Decoded(Change(UpdateRequest(op as int, UPDATE_LEGACY, docId, [], doc)), [])
       <==> |doc| % 256 != 1 && |doc| % 256 != 2
  {
    UntaggedRead(op, docId, doc);
    hide ParseUpdate;
    var tail := Block(doc)[1..];
    if |doc| % 256 == 1 {
      MisreadSplit(op, docId, doc, tail);
    } else if |doc| % 256 == 2 {
      MisreadSingle(op, docId, doc, tail);
    } else {
      assert Block(doc) + [] == Block(doc);
      FieldBack(doc, []);
    }
  }

  lemma LengthBytes(doc: Text)
    requires |doc| <= MAX_FILE_SIZE
    ensures var b := Block(doc);
            b[0] as int == |doc| % 256 && b[1] as int == |doc| / 256 && b[2] == 0 && b[3] == 0 && b[4..] == doc
  {
  }

  /** The flags byte is then the second length byte: nonzero, or there is not enough input left. */
  lemma MisreadSplit(op: byte, docId: int, doc: Text, tail: Text)
    requires |doc| <= MAX_FILE_SIZE && |doc| % 256 == 1 && tail == Block(doc)[1..]
    ensures ParseSplit(tail, op, docId) != Decoded(Change(UpdateRequest(op as int, UPDATE_LEGACY, docId, [], doc)), [])
  {
    LengthBytes(doc);
    assert tail[0] == Block(doc)[1];
    if tail[0] == 0 {
      assert |doc| == 1;
      assert |tail[1..]| == 3;
    } else {
      hide ParseField, Block;
      assert TakeU8(tail) == Got(tail[0], tail[1..]);
    }
  }

  /** The document length is then read one byte late. */
  lemma MisreadSingle(op: byte, docId: int, doc: Text, tail: Text)
    requires |doc| <= MAX_FILE_SIZE && |doc| % 256 == 2 && tail == Block(doc)[1..]
    ensures ParseDoc(tail, op, docId, UPDATE_LEGACY, [])
         != Decoded(Change(UpdateRequest(op as int, UPDATE_LEGACY, docId, [], doc)), [])
  {
    LengthBytes(doc);
    assert tail[0] == Block(doc)[1] && tail[1] == 0 && tail[2] == 0 && tail[3] == doc[0];
    var n := ReadU32(tail, 0);
    assert n == |doc| / 256 + 16777216 * (doc[0] as int);
    if doc[0] == 0 {
      assert n < |doc|;
    } else {
      assert n > MAX_FILE_SIZE;
    }
  }
}
