/** The response wire format: the C++ writer, the C++ reader and the gateway's Python reader. */
module Responses {
  import opened Bytes
  import opened Context
  import opened Scalars
  import opened Cursor

  /** The count is the sender's; ids and contents are what goes with it. */
  datatype ResponseBody =
    | InitResult(edb: int)
    | SelectResult(count: int, ids: seq<int>, contents: seq<Text>)
    | UpdateResult(success: int, docId: int)
    | ShutdownResult(done: byte)
    | OtherResult(kind: int)

  datatype Response = Response(status: int, body: ResponseBody)

  /** The ResponseType enumeration; anything from 4 on has no body. */
  function TypeOf(b: ResponseBody): int
  {
    match b
    case InitResult(_) => 0
    case SelectResult(_, _, _) => 1
    case UpdateResult(_, _) => 2
    case ShutdownResult(_) => 3
    case OtherResult(kind) => kind
  }

  /** A response that the server's structures can hold; the database number is still the server's own int. */
  predicate Sendable(r: Response)
  {
    && IsU32(r.status)
    && match r.body
       case InitResult(_) => true
       case SelectResult(count, ids, contents) =>
         && |ids| == |contents| == count && count <= MAX_RESULT_DOCS
         && (forall i :: i in ids ==> IsI32(i)) && (forall t :: t in contents ==> |t| == MAX_FILE_SIZE)
       case UpdateResult(success, docId) => IsI32(success) && IsI32(docId)
       case ShutdownResult(_) => true
       case OtherResult(kind) => kind >= 4 && IsU32(kind)
  }

  // ----- what goes on the wire

  function IdBytes(ids: seq<int>): Text
  {
    if ids == [] then [] else IdBytes(ids[..|ids| - 1]) + U32(ids[|ids| - 1])
  }

  function Joined(contents: seq<Text>): Text
  {
    if contents == [] then [] else Joined(contents[..|contents| - 1]) + contents[|contents| - 1]
  }

  function BodyBytes(b: ResponseBody): Text
  {
    match b
    case InitResult(edb) => [(edb % 256) as byte]
    case SelectResult(count, ids, contents) => U32(count) + (IdBytes(ids) + Joined(contents))
    case UpdateResult(success, docId) => U32(success) + U32(docId)
    case ShutdownResult(success) => [success]
    case OtherResult(_) => []
  }

  function ResponseBytes(r: Response): Text
  {
    var body := BodyBytes(r.body);
    U32(r.status) + (U32(TypeOf(r.body)) + (U32(|body|) + body))
  }

  /** write_response_body */
  method WriteResponseBody(r: Response) returns (buf: Text)
    requires Sendable(r)
    ensures buf == BodyBytes(r.body)
  {
    hide U32;
    match r.body {
      case InitResult(edb) =>
        buf := [(edb % 256) as byte];
      case SelectResult(count, ids, contents) =>
        var idBytes: Text := [];
        for i := 0 to count
          invariant idBytes == IdBytes(ids[..i])
        {
          assert ids[..i + 1][..i] == ids[..i];
          idBytes := idBytes + U32(ids[i]);
        }
        var blocks: Text := [];
        for i := 0 to count
          invariant blocks == Joined(contents[..i])
        {
          assert contents[..i + 1][..i] == contents[..i];
          blocks := blocks + contents[i];
        }
        assert ids[..count] == ids && contents[..count] == contents;
        buf := U32(count) + (idBytes + blocks);
      case UpdateResult(success, docId) =>
        buf := U32(success);
        buf := buf + U32(docId);
      case ShutdownResult(success) =>
        buf := [success];
      case OtherResult(_) =>
        buf := [];
    }
  }

  /** serialize_encdb_response: the length field is written as zero and patched afterwards. */
  method SerializeEncdbResponse(r: Response) returns (buf: Text)
    requires Sendable(r)
    ensures buf == ResponseBytes(r)
  {
    hide BodyBytes;
    buf := U32(r.status);
    buf := buf + U32(TypeOf(r.body));
    var bodyLenPos := |buf|;
    buf := buf + U32(0);
    var bodyStart := |buf|;
    var body := WriteResponseBody(r);
    buf := buf + body;
    var bodyLen := |buf| - bodyStart;
    buf := buf[..bodyLenPos] + U32(bodyLen) + buf[bodyLenPos + 4..];
  }

  // ----- the C++ reader

  datatype Outcome = OutOfInput | Overflow | Decoded(body: ResponseBody, rest: Text)

  /** count numbers in a row. */
  function TakeIds(s: Text, count: int): Take<seq<int>>
    decreases count
  {
    if count <= 0 then Got([], s)
    else
      var before := TakeIds(s, count - 1);
      if before.Short? then Short else
      var id := TakeI32(before.rest);
      if id.Short? then Short else Got(before.value + [id.value], id.rest)
  }

  /** count blocks in a row. */
  function TakeBlocks(s: Text, count: int): Take<seq<Text>>
    decreases count
  {
    if count <= 0 then Got([], s)
    else
      var before := TakeBlocks(s, count - 1);
      if before.Short? then Short else
      var block := TakeBytes(before.rest, MAX_FILE_SIZE);
      if block.Short? then Short else Got(before.value + [block.value], block.rest)
  }

  function ParseSelect(s: Text): Outcome
  {
    var count := TakeI32(s);
    if count.Short? then OutOfInput
    else if count.value > MAX_RESULT_DOCS then Overflow
    else
      var ids := TakeIds(count.rest, count.value);
      if ids.Short? then OutOfInput else
      var contents := TakeBlocks(ids.rest, count.value);
      if contents.Short? then OutOfInput
      else Decoded(SelectResult(count.value, ids.value, contents.value), contents.rest)
  }

  function ParseUpdate(s: Text): Outcome
  {
    var success := TakeI32(s);
    if success.Short? then OutOfInput else
    var docId := TakeI32(success.rest);
    if docId.Short? then OutOfInput else Decoded(UpdateResult(success.value, docId.value), docId.rest)
  }

  function ParseBody(kind: int, s: Text): Outcome
  {
    if kind == 0 then var edb := TakeU8(s);
      if edb.Short? then OutOfInput else Decoded(InitResult(edb.value as int), edb.rest)
    else if kind == 1 then ParseSelect(s)
    else if kind == 2 then ParseUpdate(s)
    else if kind == 3 then var success := TakeU8(s);
      if success.Short? then OutOfInput else Decoded(ShutdownResult(success.value), success.rest)
    else Decoded(OtherResult(kind), s)
  }

  datatype Delivery = Undelivered | Thrown | Delivered(response: Response, rest: Text)

  function ParseResponse(s: Text): Delivery
  {
    var status := TakeU32(s);
    if status.Short? then Undelivered else
    var kind := TakeU32(status.rest);
    if kind.Short? then Undelivered else
    var bodyLen := TakeU32(kind.rest);
    if bodyLen.Short? then Undelivered else
    match ParseBody(kind.value, bodyLen.rest)
    case OutOfInput => Undelivered
    case Overflow => Thrown
    case Decoded(body, rest) => Delivered(Response(status.value, body), rest)
  }

  datatype Status = Fine | Ended | Threw

  predicate Agrees(o: Outcome, status: Status, body: ResponseBody, rest: Text)
  {
    o == match status
         case Fine => Decoded(body, rest)
         case Ended => OutOfInput
         case Threw => Overflow
  }

  lemma {:induction false} ShortStaysShort(s: Text, n: int, count: int)
    requires n <= count
    ensures TakeIds(s, n).Short? ==> TakeIds(s, count).Short?
    ensures TakeBlocks(s, n).Short? ==> TakeBlocks(s, count).Short?
    decreases count - n
  {
    hide TakeI32, TakeBytes;
    if n < count {
      ShortStaysShort(s, n, count - 1);
    }
  }

  /** The SELECT branch of read_response_body. */
  method ReadSelect(r: Reader) returns (status: Status, body: ResponseBody)
    requires r.p <= |r.buf|
    modifies r
    ensures r.p <= |r.buf| && Agrees(ParseSelect(r.buf[old(r.p)..]), status, body, r.buf[r.p..])
  {
    hide TakeI32, TakeBytes;
    status, body := Ended, OtherResult(4);
    var ok, count := r.ReadScalar();
    if !ok { return; }
    if count > MAX_RESULT_DOCS {
      return Threw, body;
    }
    ghost var s1 := r.buf[r.p..];
    var ids: seq<int> := [];
    var i := 0;
    while i < count
      invariant 0 <= i && (i <= count || i == 0) && r.p <= |r.buf|
      invariant TakeIds(s1, i) == Got(ids, r.buf[r.p..])
    {
      var id: int;
      ok, id := r.ReadScalar();
      ShortStaysShort(s1, i + 1, count);
      if !ok { return; }
      ids := ids + [id];
      i := i + 1;
    }
    ghost var s2 := r.buf[r.p..];
    assert TakeIds(s1, count) == Got(ids, s2);
    var contents: seq<Text> := [];
    i := 0;
    while i < count
      invariant 0 <= i && (i <= count || i == 0) && r.p <= |r.buf|
      invariant TakeBlocks(s2, i) == Got(contents, r.buf[r.p..])
    {
      var block: Text;
      ok, block := r.ReadBytes(MAX_FILE_SIZE);
      ShortStaysShort(s2, i + 1, count);
      if !ok { return; }
      contents := contents + [block];
      i := i + 1;
    }
    status, body := Fine, SelectResult(count, ids, contents);
  }

  /** read_response_body */
  method ReadResponseBody(r: Reader, kind: int) returns (status: Status, body: ResponseBody)
    requires r.p <= |r.buf|
    modifies r
    ensures r.p <= |r.buf| && Agrees(ParseBody(kind, r.buf[old(r.p)..]), status, body, r.buf[r.p..])
  {
    hide TakeI32, TakeU8, ParseSelect;
    status, body := Ended, OtherResult(kind);
    var ok, b, n, m := true, 0 as byte, 0, 0;
    if kind == 0 {
      ok, b := r.ReadByte();
      if !ok { return; }
      status, body := Fine, InitResult(b as int);
    } else if kind == 1 {
      status, body := ReadSelect(r);
    } else if kind == 2 {
      ok, n := r.ReadScalar();
      if !ok { return; }
      ok, m := r.ReadScalar();
      if !ok { return; }
      status, body := Fine, UpdateResult(n, m);
    } else if kind == 3 {
      ok, b := r.ReadByte();
      if !ok { return; }
      status, body := Fine, ShutdownResult(b);
    } else {
      status := Fine;
    }
  }

  /** deserialize_encdb_response; the length field is read and ignored. */
  method DeserializeEncdbResponse(payload: Text) returns (status: Status, response: Response, used: nat)
    ensures used <= |payload|
    ensures ParseResponse(payload)
         == match status
            case Fine => Delivered(response, payload[used..])
            case Ended => Undelivered
            case Threw => Thrown
  {
    hide TakeU32, ParseBody;
    var r := new Reader(payload);
    assert payload[0..] == payload;
    status, response, used := Ended, Response(0, OtherResult(4)), 0;
    var ok, code := r.ReadUnsigned();
    if !ok { return; }
    var kind: int;
    ok, kind := r.ReadUnsigned();
    if !ok { return; }
    var bodyLen: int;
    ok, bodyLen := r.ReadUnsigned();
    if !ok { return; }
    var body: ResponseBody;
    status, body := ReadResponseBody(r, kind);
    response, used := Response(code, body), r.p;
  }

  // ----- the Python reader

  /** data[:n] */
  function Front(s: Text, n: nat): Text
  {
    if |s| < n then s else s[..n]
  }

  function Behind(s: Text, n: nat): Text
  {
    if |s| < n then [] else s[n..]
  }

  /** Slices that may come out short at the end of the payload. */
  function Chunks(s: Text, count: nat): seq<Text>
  {
    if count == 0 then [] else Chunks(s, count - 1) + [Front(Behind(s, (count - 1) * MAX_FILE_SIZE), MAX_FILE_SIZE)]
  }

  /** An exception, or a response. */
  datatype PythonOutcome = Raised | Returned(response: Response)

  function PythonBody(kind: int, s: Text): PythonOutcome
    requires 0 <= kind <= 4
  {
    if kind == 1 then
      var count := TakeU32(s);
      if count.Short? then Raised else
      var ids := TakeIds(count.rest, count.value);
      if ids.Short? then Raised
      else Returned(Response(0, SelectResult(count.value, ids.value, Chunks(ids.rest, count.value))))
    else if kind == 2 then
      var success := TakeU32(s);
      if success.Short? then Raised else
      var docId := TakeI32(success.rest);
      if docId.Short? then Raised else Returned(Response(0, UpdateResult(success.value, docId.value)))
    else
      match ParseBody(kind, s)
      case OutOfInput => Raised
      case Overflow => Raised
      case Decoded(body, _) => Returned(Response(0, body))
  }

  function PythonParse(s: Text): PythonOutcome
  {
    var status := TakeU32(s);
    if status.Short? then Raised else
    var kind := TakeU32(status.rest);
    if kind.Short? then Raised else
    var bodyLen := TakeU32(kind.rest);
    if bodyLen.Short? || status.value > 1 || kind.value > 4 then Raised else
    var body := PythonBody(kind.value, bodyLen.rest);
    if body.Raised? then Raised else Returned(Response(status.value, body.response.body))
  }

  // ----- round trips

  lemma {:induction false} IdsBack(ids: seq<int>, rest: Text)
    requires forall i :: i in ids ==> IsI32(i)
    ensures TakeIds(IdBytes(ids) + rest, |ids|) == Got(ids, rest)
  {
    hide U32, TakeI32;
    if ids == [] {
      assert IdBytes(ids) + rest == rest;
    } else {
      var n := |ids| - 1;
      assert ids[n] in ids && forall i :: i in ids[..n] ==> i in ids;
      assert IdBytes(ids) + rest == IdBytes(ids[..n]) + (U32(ids[n]) + rest);
      IdsBack(ids[..n], U32(ids[n]) + rest);
      TakeI32Back(ids[n], rest);
      assert ids[..n] + [ids[n]] == ids;
    }
  }

  lemma {:induction false} BlocksBack(contents: seq<Text>, rest: Text)
    requires forall t :: t in contents ==> |t| == MAX_FILE_SIZE
    ensures TakeBlocks(Joined(contents) + rest, |contents|) == Got(contents, rest)
  {
    hide TakeBytes;
    if contents == [] {
      assert Joined(contents) + rest == rest;
    } else {
      var n := |contents| - 1;
      assert contents[n] in contents && forall t :: t in contents[..n] ==> t in contents;
      assert Joined(contents) + rest == Joined(contents[..n]) + (contents[n] + rest);
      BlocksBack(contents[..n], contents[n] + rest);
      TakeBytesBack(contents[n], rest);
      assert contents[..n] + [contents[n]] == contents;
    }
  }

  lemma Between(before: Text, block: Text, rest: Text)
    ensures Front(Behind(before + (block + rest), |before|), |block|) == block
  {
    assert (before + (block + rest))[|before|..] == block + rest;
  }

  lemma {:induction false} ChunksBack(contents: seq<Text>, rest: Text)
    requires forall t :: t in contents ==> |t| == MAX_FILE_SIZE
    ensures |Joined(contents)| == |contents| * MAX_FILE_SIZE
    ensures Chunks(Joined(contents) + rest, |contents|) == contents
  {
    if contents != [] {
      var n := |contents| - 1;
      var last := contents[n];
      assert last in contents && forall t :: t in contents[..n] ==> t in contents;
      assert Joined(contents) + rest == Joined(contents[..n]) + (last + rest);
      ChunksBack(contents[..n], last + rest);
      Between(Joined(contents[..n]), last, rest);
      assert contents[..n] + [last] == contents;
    }
  }

  /** What arrives at a C++ client: a database number arrives in one byte. */
  function Carried(r: Response): Response
  {
    if r.body.InitResult? then r.(body := InitResult(r.body.edb % 256)) else r
  }

  /** What arrives at the gateway: besides, the success field arrives unsigned. */
  function CarriedToPython(r: Response): Response
  {
    if r.body.UpdateResult? then r.(body := UpdateResult(r.body.success % U32_RANGE, r.body.docId)) else Carried(r)
  }

  lemma SelectBack(b: ResponseBody, rest: Text)
    requires Sendable(Response(0, b)) && b.SelectResult?
    ensures ParseSelect(BodyBytes(b) + rest) == Decoded(b, rest)
  {
    hide U32, TakeI32, TakeIds, TakeBlocks, IdBytes, Joined;
    assert BodyBytes(b) + rest == U32(b.count) + (IdBytes(b.ids) + (Joined(b.contents) + rest));
    TakeI32Back(b.count, IdBytes(b.ids) + (Joined(b.contents) + rest));
    IdsBack(b.ids, Joined(b.contents) + rest);
    BlocksBack(b.contents, rest);
  }

  lemma BodyBack(b: ResponseBody, rest: Text)
    requires Sendable(Response(0, b))
    ensures ParseBody(TypeOf(b), BodyBytes(b) + rest) == Decoded(Carried(Response(0, b)).body, rest)
  {
    hide U32, TakeI32, TakeU8, ParseSelect, IdBytes, Joined;
    match b {
      case InitResult(edb) =>
        TakeU8Back((edb % 256) as byte, rest);
      case SelectResult(_, _, _) =>
        SelectBack(b, rest);
      case UpdateResult(success, docId) =>
        assert BodyBytes(b) + rest == U32(success) + (U32(docId) + rest);
        TakeI32Back(success, U32(docId) + rest);
        TakeI32Back(docId, rest);
      case ShutdownResult(success) =>
        TakeU8Back(success, rest);
      case OtherResult(kind) =>
        assert BodyBytes(b) + rest == rest;
    }
  }

  lemma PythonBodyBack(b: ResponseBody)
    requires Sendable(Response(0, b)) && TypeOf(b) <= 4
    ensures PythonBody(TypeOf(b), BodyBytes(b)) == Returned(CarriedToPython(Response(0, b)))
  {
    hide U32, TakeI32, TakeU32, TakeBytes, TakeU8, TakeIds, TakeBlocks, IdBytes, Joined, Chunks;
    match b {
      case SelectResult(count, ids, contents) =>
        TakeU32Back(count, IdBytes(ids) + Joined(contents));
        IdsBack(ids, Joined(contents));
        ChunksBack(contents, []);
        assert Joined(contents) + [] == Joined(contents);
      case UpdateResult(success, docId) =>
        UnsignedBack(success, U32(docId));
        TakeI32Back(docId, []);
        assert U32(docId) + [] == U32(docId);
      case InitResult(_) =>
        BodyBack(b, []);
        assert BodyBytes(b) + [] == BodyBytes(b);
      case ShutdownResult(_) =>
        BodyBack(b, []);
        assert BodyBytes(b) + [] == BodyBytes(b);
      case OtherResult(_) =>
        BodyBack(b, []);
        assert BodyBytes(b) + [] == BodyBytes(b);
    }
  }

  lemma UnsignedBack(n: int, rest: Text)
    ensures TakeU32(U32(n) + rest) == Got(n % U32_RANGE, rest)
  {
    ReadU32At([], n, rest);
    assert [] + U32(n) + rest == U32(n) + rest;
  }

  /**
   A response reaches a C++ client and the gateway's Python code as it was sent, up to what the fields are
   too narrow for; it is the same response exactly if a database number fits in a byte and, for the gateway,
   a success code is not negative.
   */
  lemma ResponseRoundTrip(r: Response)
    requires Sendable(r)
    ensures ParseResponse(ResponseBytes(r)) == Delivered(Carried(r), [])
    ensures r.status <= 1 && TypeOf(r.body) <= 4 ==> PythonParse(ResponseBytes(r)) == Returned(CarriedToPython(r))
    ensures Carried(r) == r <==> (r.body.InitResult? ==> 0 <= r.body.edb < 256)
    ensures CarriedToPython(r) == r <==>
      (r.body.InitResult? ==> 0 <= r.body.edb < 256) && (r.body.UpdateResult? ==> r.body.success >= 0)
  {
    hide U32, ParseBody, PythonBody, BodyBytes, TakeU32;
    var body := BodyBytes(r.body);
    assert body + [] == body;
    TakeU32Back(r.status, U32(TypeOf(r.body)) + (U32(|body|) + body));
    TakeU32Back(TypeOf(r.body), U32(|body|) + body);
    BodyFits(r);
    TakeU32Back(|body|, body);
    BodyBack(r.body, []);
    if r.status <= 1 && TypeOf(r.body) <= 4 {
      PythonBodyBack(r.body);
    }
  }

  lemma {:induction false} IdBytesSize(ids: seq<int>)
    ensures |IdBytes(ids)| == 4 * |ids|
  {
    hide U32;
    if ids != [] {
      IdBytesSize(ids[..|ids| - 1]);
    }
  }

  lemma BodyFits(r: Response)
    requires Sendable(r)
    ensures IsU32(|BodyBytes(r.body)|)
  {
    hide U32, IdBytes, Joined, Chunks;
    if r.body.SelectResult? {
      IdBytesSize(r.body.ids);
      ChunksBack(r.body.contents, []);
    }
  }
}
