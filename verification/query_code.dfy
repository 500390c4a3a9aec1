/** Tokens of a query text, postfix code, and the stack machine that evaluates it. */
module QueryCode {
  import opened Bytes
  import opened BitPack
  import opened Labels
  import opened Query

  const OP_TERM: byte := 1
  const OP_AND: byte := 2
  const OP_OR: byte := 3
  const OP_NOT: byte := 4

  const MAX_TERMS: nat := 16
  const MAX_CODE: nat := 128

  // ----- tokens

  predicate IsSpace(b: byte)
  {
    b == 32 || 9 <= b <= 13
  }

  predicate IsParen(b: byte)
  {
    b == 40 || b == 41
  }

  function FlushWord(cur: Text): seq<Text>
  {
    if cur == [] then [] else [cur]
  }

  /** tokenize_query, with the word read so far. */
  function Lex(input: Text, cur: Text): seq<Text>
  {
    if input == [] then FlushWord(cur)
    else if IsSpace(input[0]) then FlushWord(cur) + Lex(input[1..], [])
    else if IsParen(input[0]) then FlushWord(cur) + [[input[0]]] + Lex(input[1..], [])
    else Lex(input[1..], cur + [input[0]])
  }

  lemma {:induction false} LexStep(input: Text, i: nat, cur: Text)
    requires i < |input|
    ensures Lex(input[i..], cur)
         == if IsSpace(input[i]) then FlushWord(cur) + Lex(input[i + 1..], [])
            else if IsParen(input[i]) then FlushWord(cur) + [[input[i]]] + Lex(input[i + 1..], [])
            else Lex(input[i + 1..], cur + [input[i]])
  {
    assert input[i..][1..] == input[i + 1..];
  }

  lemma Joined(a: seq<Text>, b: seq<Text>, c: seq<Text>)
    ensures a + (b + c) == (a + b) + c
  {
  }

  method TokenizeQuery(input: Text) returns (tokens: seq<Text>)
    ensures tokens == Lex(input, [])
  {
    hide Lex;
    tokens := [];
    var current: Text := [];
    assert input[0..] == input;
    for i := 0 to |input|
      invariant tokens + Lex(input[i..], current) == Lex(input, [])
    {
      LexStep(input, i, current);
      var ch := input[i];
      if IsSpace(ch) {
        Joined(tokens, FlushWord(current), Lex(input[i + 1..], []));
        tokens := tokens + FlushWord(current);
        current := [];
      } else if IsParen(ch) {
        Joined(tokens, FlushWord(current) + [[ch]], Lex(input[i + 1..], []));
        Joined(tokens, FlushWord(current), [[ch]]);
        tokens := tokens + FlushWord(current);
        current := [];
        tokens := tokens + [[ch]];
      } else {
        current := current + [ch];
      }
    }
    LexEnd(input, current);
    tokens := tokens + FlushWord(current);
  }

  lemma LexEnd(input: Text, cur: Text)
    ensures Lex(input[|input|..], cur) == FlushWord(cur)
  {
  }

  /** A parenthesis, or a nonempty run of other visible bytes. */
  predicate Token(t: Text)
  {
    || t == LP
    || t == RP
    || (t != [] && forall i :: 0 <= i < |t| ==> !IsSpace(t[i]) && !IsParen(t[i]))
  }

  /** The tokens separated by single spaces. */
  function Render(tokens: seq<Text>): Text
  {
    if tokens == [] then [] else tokens[0] + [32] + Render(tokens[1..])
  }

  lemma {:induction false} LexWord(w: Text, rest: Text, cur: Text)
    requires forall i :: 0 <= i < |w| ==> !IsSpace(w[i]) && !IsParen(w[i])
    ensures Lex(w + rest, cur) == Lex(rest, cur + w)
    decreases w
  {
    if w == [] {
      assert w + rest == rest && cur + w == cur;
    } else {
      assert (w + rest)[1..] == w[1..] + rest;
      assert cur + [w[0]] + w[1..] == cur + w;
      LexWord(w[1..], rest, cur + [w[0]]);
    }
  }

  lemma LexSpace(rest: Text, cur: Text)
    ensures Lex([32] + rest, cur) == FlushWord(cur) + Lex(rest, [])
  {
    assert ([32] + rest)[1..] == rest;
  }

  lemma LexParen(p: byte, rest: Text)
    requires IsParen(p)
    ensures Lex([p] + rest, []) == [[p]] + Lex(rest, [])
  {
    assert ([p] + rest)[1..] == rest;
    assert FlushWord([]) + [[p]] == [[p]];
  }

  lemma TokenThenSpace(t: Text, rest: Text)
    requires Token(t)
    ensures Lex(t + ([32] + rest), []) == [t] + Lex(rest, [])
  {
    hide Lex;
    LexSpace(rest, []);
    if t == LP || t == RP {
      assert LP == [40] && RP == [41];
      LexParen(t[0], [32] + rest);
      assert t == [t[0]];
    } else {
      LexWord(t, [32] + rest, []);
      LexSpace(rest, t);
      assert [] + t == t;
    }
  }

  /** Any token list survives being written out and tokenized again. */
  lemma {:induction false} LexRender(tokens: seq<Text>)
    requires forall t :: t in tokens ==> Token(t)
    ensures Lex(Render(tokens), []) == tokens
  {
    hide Token;
    if tokens != [] {
      var t, others := tokens[0], tokens[1..];
      assert t in tokens && forall x :: x in others ==> x in tokens;
      hide Lex;
      LexRender(others);
      TokenThenSpace(t, Render(others));
      assert t + [32] + Render(others) == t + ([32] + Render(others));
      assert tokens == [t] + others;
    }
  }

  /** Every word of the expression is one token of the query text. */
  predicate Lexable(e: Source)
  {
    match e
    case Leaf(w) => Token(w)
    case And(l, r) => Lexable(l) && Lexable(r)
    case Or(l, r) => Lexable(l) && Lexable(r)
    case Not(x) => Lexable(x)
  }

  lemma {:induction false} PrintedTokens(level: Level, e: Source)
    requires Lexable(e)
    ensures forall t :: t in Print(level, e) ==> Token(t)
    decreases e, Depth(level, e)
  {
    ReservedAreTokens();
    hide Token;
    match level
    case Tight =>
      if e.Not? {
        PrintedTokens(Tight, e.arg);
      } else if !e.Leaf? {
        PrintedTokens(Disjunct, e);
      }
    case Conjunct =>
      if e.And? {
        PrintedTokens(Conjunct, e.left);
        PrintedTokens(Tight, e.right);
      } else {
        PrintedTokens(Tight, e);
      }
    case Disjunct =>
      if e.Or? {
        PrintedTokens(Disjunct, e.left);
        PrintedTokens(Conjunct, e.right);
      } else {
        PrintedTokens(Conjunct, e);
      }
  }

  lemma ReservedAreTokens()
    ensures Token(AND) && Token(OR) && Token(NOT) && Token(LP) && Token(RP)
  {
  }

  // ----- postfix code

  /** encode_bool_expr */
  function Encode(e: Ast): (code: seq<byte>)
    ensures |code| > 0
  {
    match e
    case Leaf(i) => [OP_TERM, (i % 256) as byte]
    case And(l, r) => Encode(l) + Encode(r) + [OP_AND]
    case Or(l, r) => Encode(l) + Encode(r) + [OP_OR]
    case Not(x) => Encode(x) + [OP_NOT]
  }

  /** encode_bool_expr over the caller's buffer. */
  method EncodeBoolExpr(node: Ast, out: array<byte>, len: nat) returns (len': nat)
    requires len + |Encode(node)| <= out.Length
    modifies out
    ensures len' == len + |Encode(node)|
    ensures out[..len'] == old(out[..len]) + Encode(node)
    decreases node, 1
  {
    match node {
      case Leaf(i) =>
        len' := Emit(out, len, OP_TERM);
        len' := Emit(out, len', (i % 256) as byte);
      case And(l, r) =>
        len' := EncodeOperands(node, l, r, out, len);
        len' := Emit(out, len', OP_AND);
      case Or(l, r) =>
        len' := EncodeOperands(node, l, r, out, len);
        len' := Emit(out, len', OP_OR);
      case Not(x) =>
        len' := EncodeBoolExpr(x, out, len);
        len' := Emit(out, len', OP_NOT);
    }
  }

  method EncodeOperands(ghost node: Ast, l: Ast, r: Ast, out: array<byte>, len: nat) returns (len': nat)
    requires node == And(l, r) || node == Or(l, r)
    requires len + |Encode(l)| + |Encode(r)| <= out.Length
    modifies out
    ensures len' == len + |Encode(l)| + |Encode(r)|
    ensures out[..len'] == old(out[..len]) + (Encode(l) + Encode(r))
    decreases node, 0
  {
    len' := EncodeBoolExpr(l, out, len);
    len' := EncodeBoolExpr(r, out, len');
  }

  /** out[len++] = b */
  method Emit(out: array<byte>, len: nat, b: byte) returns (len': nat)
    requires len < out.Length
    modifies out
    ensures len' == len + 1 && out[..len'] == old(out[..len]) + [b]
  {
    out[len] := b;
    len' := len + 1;
  }

  // ----- the stack machine

  datatype Outcome = Fault | Stack(bitmaps: seq<Bitmap>)

  /**
   The machine of handle_select on ideal keyword bitmaps. Fault stands for a term number outside the
   term table, a missing operand, or a truncated term; unknown bytes are skipped.
   */
  function Run(code: seq<byte>, terms: seq<Text>, view: Text -> Bitmap, live: Bitmap, stk: seq<Bitmap>): Outcome
    decreases |code|
  {
    if code == [] then Stack(stk)
    else if code[0] == OP_TERM then
      if |code| < 2 || code[1] as int >= |terms| then Fault
      else Run(code[2..], terms, view, live, stk + [view(terms[code[1] as int])])
    else if code[0] == OP_AND || code[0] == OP_OR then
      if |stk| < 2 then Fault
      else
        var right, left := stk[|stk| - 1], stk[|stk| - 2];
        Run(code[1..], terms, view, live,
            stk[..|stk| - 2] + [if code[0] == OP_AND then left * right else left + right])
    else if code[0] == OP_NOT then
      if |stk| < 1 then Fault
      else Run(code[1..], terms, view, live, stk[..|stk| - 1] + [live - stk[|stk| - 1]])
    else Run(code[1..], terms, view, live, stk)
  }

  /** The set an expression denotes: intersection, union, and complement within the live documents. */
  function Meaning(e: Ast, terms: seq<Text>, view: Text -> Bitmap, live: Bitmap): Bitmap
    requires InRange(e, |terms|)
  {
    match e
    case Leaf(i) => view(terms[i])
    case And(l, r) => Meaning(l, terms, view, live) * Meaning(r, terms, view, live)
    case Or(l, r) => Meaning(l, terms, view, live) + Meaning(r, terms, view, live)
    case Not(x) => live - Meaning(x, terms, view, live)
  }

  /** Compiled code pushes exactly one bitmap, the expression's meaning, on top of any stack. */
  lemma {:induction false} RunEncoded(e: Ast, rest: seq<byte>, terms: seq<Text>, view: Text -> Bitmap, live: Bitmap,
                                      stk: seq<Bitmap>)
    requires InRange(e, |terms|) && |terms| <= 256
    ensures Run(Encode(e) + rest, terms, view, live, stk)
         == Run(rest, terms, view, live, stk + [Meaning(e, terms, view, live)])
    decreases e, 1
  {
    hide Run;
    match e
    case Leaf(i) =>
      RunTerm(i, rest, terms, view, live, stk);
    case And(l, r) =>
      RunPair(e, l, r, OP_AND, rest, terms, view, live, stk);
      assert Encode(e) + rest == Encode(l) + (Encode(r) + ([OP_AND] + rest));
    case Or(l, r) =>
      RunPair(e, l, r, OP_OR, rest, terms, view, live, stk);
      assert Encode(e) + rest == Encode(l) + (Encode(r) + ([OP_OR] + rest));
    case Not(x) =>
      var m := Meaning(x, terms, view, live);
      assert Encode(e) + rest == Encode(x) + ([OP_NOT] + rest);
      RunEncoded(x, [OP_NOT] + rest, terms, view, live, stk);
      RunNot(m, rest, terms, view, live, stk);
  }

  lemma RunTerm(i: nat, rest: seq<byte>, terms: seq<Text>, view: Text -> Bitmap, live: Bitmap, stk: seq<Bitmap>)
    requires i < |terms| <= 256
    ensures Run([OP_TERM, (i % 256) as byte] + rest, terms, view, live, stk)
         == Run(rest, terms, view, live, stk + [view(terms[i])])
  {
    assert ([OP_TERM, (i % 256) as byte] + rest)[2..] == rest;
  }

  lemma RunNot(m: Bitmap, rest: seq<byte>, terms: seq<Text>, view: Text -> Bitmap, live: Bitmap, stk: seq<Bitmap>)
    ensures Run([OP_NOT] + rest, terms, view, live, stk + [m]) == Run(rest, terms, view, live, stk + [live - m])
  {
    assert ([OP_NOT] + rest)[1..] == rest;
    assert (stk + [m])[..|stk|] == stk;
  }

  lemma RunBinary(a: Bitmap, b: Bitmap, op: byte, rest: seq<byte>, terms: seq<Text>, view: Text -> Bitmap,
                  live: Bitmap, stk: seq<Bitmap>)
    requires op == OP_AND || op == OP_OR
    ensures Run([op] + rest, terms, view, live, stk + [a] + [b])
         == Run(rest, terms, view, live, stk + [if op == OP_AND then a * b else a + b])
  {
    var s := stk + [a] + [b];
    assert ([op] + rest)[1..] == rest;
    assert s[..|s| - 2] == stk && s[|s| - 1] == b && s[|s| - 2] == a;
  }

  lemma {:induction false} RunPair(e: Ast, l: Ast, r: Ast, op: byte, rest: seq<byte>, terms: seq<Text>,
                                   view: Text -> Bitmap, live: Bitmap, stk: seq<Bitmap>)
    requires (e == And(l, r) && op == OP_AND) || (e == Or(l, r) && op == OP_OR)
    requires InRange(e, |terms|) && |terms| <= 256
    ensures var a, b := Meaning(l, terms, view, live), Meaning(r, terms, view, live);
            Run(Encode(l) + (Encode(r) + ([op] + rest)), terms, view, live, stk) ==
            Run(rest, terms, view, live, stk + [if op == OP_AND then a * b else a + b])
    decreases e, 0
  {
    hide Run;
    var a, b := Meaning(l, terms, view, live), Meaning(r, terms, view, live);
    RunEncoded(l, Encode(r) + ([op] + rest), terms, view, live, stk);
    RunEncoded(r, [op] + rest, terms, view, live, stk + [a]);
    RunBinary(a, b, op, rest, terms, view, live, stk);
  }

  /** A whole compiled expression leaves one bitmap on an empty stack. */
  lemma RunCompiled(e: Ast, terms: seq<Text>, view: Text -> Bitmap, live: Bitmap)
    requires InRange(e, |terms|) && |terms| <= 256
    ensures Run(Encode(e), terms, view, live, []) == Stack([Meaning(e, terms, view, live)])
  {
    RunEncoded(e, [], terms, view, live, []);
    assert Encode(e) + [] == Encode(e);
    assert [] + [Meaning(e, terms, view, live)] == [Meaning(e, terms, view, live)];
  }

  /** make_term: the keyword itself, byte for byte, or its first 32 bytes. */
  function MakeTerm(keyword: Text): (term: Text)
    ensures |keyword| <= 32 ==> term == keyword
    ensures |keyword| > 32 ==> |term| == 32 && term <= keyword
  {
    if |keyword| > MAX_KEYWORD_LEN then keyword[..MAX_KEYWORD_LEN] else keyword
  }

  function MakeTerms(keywords: seq<Text>): (terms: seq<Text>)
    ensures |terms| == |keywords|
    ensures forall i :: 0 <= i < |keywords| ==> terms[i] == MakeTerm(keywords[i])
  {
    seq(|keywords|, i requires 0 <= i < |keywords| => MakeTerm(keywords[i]))
  }

  /** Each term is its keyword, or the first 32 bytes of it. */
  predicate TermsFor(terms: seq<Text>, keywords: seq<Text>)
  {
    && |terms| == |keywords|
    && forall i :: 0 <= i < |keywords| ==>
      terms[i] == if |keywords[i]| <= 32 then keywords[i] else keywords[i][..32]
  }

  /** A document with these keywords satisfies the expression; a word is looked for by its first 32 bytes. */
  predicate Satisfies(e: Source, words: seq<Text>)
  {
    match e
    case Leaf(w) => (if |w| <= 32 then w else w[..32]) in words
    case And(l, r) => Satisfies(l, words) && Satisfies(r, words)
    case Or(l, r) => Satisfies(l, words) || Satisfies(r, words)
    case Not(x) => !Satisfies(x, words)
  }

  /**
   If keyword bitmaps list exactly the live documents that carry the keyword, then an expression's
   meaning lists exactly the live documents that satisfy it.
   */
  lemma {:induction false} MeaningIsSatisfaction(e: Ast, keywords: seq<Text>, view: Text -> Bitmap, live: Bitmap,
                                                 bit: int, words: seq<Text>)
    requires InRange(e, |keywords|)
    requires forall w :: bit in view(w) <==> bit in live && w in words
    ensures bit in Meaning(e, MakeTerms(keywords), view, live) <==> bit in live && Satisfies(Named(e, keywords), words)
    decreases e
  {
    match e
    case Leaf(i) =>
    case And(l, r) =>
      MeaningIsSatisfaction(l, keywords, view, live, bit, words);
      MeaningIsSatisfaction(r, keywords, view, live, bit, words);
    case Or(l, r) =>
      MeaningIsSatisfaction(l, keywords, view, live, bit, words);
      MeaningIsSatisfaction(r, keywords, view, live, bit, words);
    case Not(x) =>
      MeaningIsSatisfaction(x, keywords, view, live, bit, words);
  }

  /** Client::build_select_request and the gateway's SELECT branch, from expression tokens to request fields. */
  method CompileSelect(fold: bool, exprTokens: seq<Text>)
    returns (ok: bool, terms: seq<Text>, code: seq<byte>)
    requires var r := ParseExpr(fold, exprTokens, 0, []);
             r.Parsed? ==> |r.keywords| <= MAX_TERMS && |Encode(r.node)| <= MAX_CODE
    ensures var r := ParseExpr(fold, exprTokens, 0, []);
            if ok then r.Parsed? && TermsFor(terms, r.keywords) && code == Encode(r.node) else r.Error?
  {
    terms, code := [], [];
    var parser := new BoolExprParser(fold, exprTokens);
    var node: Ast;
    ok, node := parser.ParseExprAt();
    if !ok {
      return;
    }
    var keywords := parser.keywords;
    for i := 0 to |parser.keywords|
      invariant parser.keywords == keywords
      invariant terms == MakeTerms(keywords)[..i]
    {
      terms := terms + [MakeTerm(parser.keywords[i])];
    }
    var out := new byte[MAX_CODE](_ => 0);
    var len := EncodeBoolExpr(node, out, 0);
    code := out[..len];
  }
}
