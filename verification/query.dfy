/** The query language: tokens, recursive-descent parser, printer and postfix code. */
module Query {
  import opened Bytes
  import opened IndexModel

  const OR: Text := Ascii("OR")
  const AND: Text := Ascii("AND")
  const NOT: Text := Ascii("NOT")
  const LP: Text := Ascii("(")
  const RP: Text := Ascii(")")

  /** Boolean expressions over leaves: words in the source language, term numbers in the AST. */
  datatype Expr<T> = Leaf(leaf: T) | And(left: Expr<T>, right: Expr<T>) | Or(left: Expr<T>, right: Expr<T>)
    | Not(arg: Expr<T>)

  type Ast = Expr<nat>

  type Source = Expr<Text>

  datatype ParseResult = Error | Parsed(node: Ast, pos: nat, keywords: seq<Text>)

  /** toupper of every ASCII byte */
  function Upper(s: Text): Text
  {
    seq(|s|, i requires 0 <= i < |s| => if 97 <= s[i] <= 122 then s[i] - 32 else s[i])
  }

  /** match: the C++ parser compares tokens as they are, the gateway's after upper-casing them. */
  predicate Is(fold: bool, token: Text, wanted: Text)
  {
    (if fold then Upper(token) else token) == wanted
  }

  predicate At(fold: bool, toks: seq<Text>, pos: nat, wanted: Text)
  {
    pos < |toks| && Is(fold, toks[pos], wanted)
  }

  /** Every term number is below n. */
  predicate InRange(e: Ast, n: nat)
  {
    match e
    case Leaf(i) => i < n
    case And(l, r) => InRange(l, n) && InRange(r, n)
    case Or(l, r) => InRange(l, n) && InRange(r, n)
    case Not(x) => InRange(x, n)
  }

  lemma {:induction false} InRangeUp(e: Ast, m: nat, n: nat)
    requires InRange(e, m) && m <= n
    ensures InRange(e, n)
  {
    match e
    case Leaf(i) =>
    case And(l, r) => InRangeUp(l, m, n); InRangeUp(r, m, n);
    case Or(l, r) => InRangeUp(l, m, n); InRangeUp(r, m, n);
    case Not(x) => InRangeUp(x, m, n);
  }

  function IndexOf(s: seq<Text>, w: Text): (i: nat)
    requires w in s
    ensures i < |s| && s[i] == w && w !in s[..i]
  {
    if s[0] == w then 0 else 1 + IndexOf(s[1..], w)
  }

  /** What every successful parse from pos with these keywords guarantees. */
  ghost predicate Progressed(toks: seq<Text>, pos: nat, keywords: seq<Text>, r: ParseResult)
  {
    r.Parsed? ==>
      && pos < r.pos <= |toks|
      && keywords <= r.keywords
      && InRange(r.node, |r.keywords|)
      && (NoDup(keywords) ==> NoDup(r.keywords))
  }

  ghost predicate Continued(toks: seq<Text>, pos: nat, keywords: seq<Text>, r: ParseResult)
  {
    r.Parsed? ==>
      && pos <= r.pos <= |toks|
      && keywords <= r.keywords
      && InRange(r.node, |r.keywords|)
      && (NoDup(keywords) ==> NoDup(r.keywords))
  }

  /** parse_expr */
  function ParseExpr(fold: bool, toks: seq<Text>, pos: nat, keywords: seq<Text>): (r: ParseResult)
    requires pos <= |toks|
    ensures Progressed(toks, pos, keywords, r)
    decreases |toks| - pos, 4
  {
    var r := ParseTerm(fold, toks, pos, keywords);
    if r.Error? then Error else OrTail(fold, toks, r.node, r.pos, r.keywords)
  }

  /** The loop of parse_expr, with the node built so far. */
  function OrTail(fold: bool, toks: seq<Text>, node: Ast, pos: nat, keywords: seq<Text>): (r: ParseResult)
    requires pos <= |toks| && InRange(node, |keywords|)
    ensures Continued(toks, pos, keywords, r)
    decreases |toks| - pos, 0
  {
    if At(fold, toks, pos, OR) then
      var r := ParseTerm(fold, toks, pos + 1, keywords);
      if r.Error? then Error
      else
        InRangeUp(node, |keywords|, |r.keywords|);
        OrTail(fold, toks, Or(node, r.node), r.pos, r.keywords)
    else Parsed(node, pos, keywords)
  }

  /** parse_term */
  function ParseTerm(fold: bool, toks: seq<Text>, pos: nat, keywords: seq<Text>): (r: ParseResult)
    requires pos <= |toks|
    ensures Progressed(toks, pos, keywords, r)
    decreases |toks| - pos, 3
  {
    var r := ParseUnary(fold, toks, pos, keywords);
    if r.Error? then Error else AndTail(fold, toks, r.node, r.pos, r.keywords)
  }

  /** The loop of parse_term, with the node built so far. */
  function AndTail(fold: bool, toks: seq<Text>, node: Ast, pos: nat, keywords: seq<Text>): (r: ParseResult)
    requires pos <= |toks| && InRange(node, |keywords|)
    ensures Continued(toks, pos, keywords, r)
    decreases |toks| - pos, 0
  {
    if At(fold, toks, pos, AND) then
      var r := ParseUnary(fold, toks, pos + 1, keywords);
      if r.Error? then Error
      else
        InRangeUp(node, |keywords|, |r.keywords|);
        AndTail(fold, toks, And(node, r.node), r.pos, r.keywords)
    else Parsed(node, pos, keywords)
  }

  /** parse_unary */
  function ParseUnary(fold: bool, toks: seq<Text>, pos: nat, keywords: seq<Text>): (r: ParseResult)
    requires pos <= |toks|
    ensures Progressed(toks, pos, keywords, r)
    decreases |toks| - pos, 2
  {
    if At(fold, toks, pos, NOT) then
      var r := ParseUnary(fold, toks, pos + 1, keywords);
      if r.Error? then Error else Parsed(Not(r.node), r.pos, r.keywords)
    else ParseFactor(fold, toks, pos, keywords)
  }

  /** parse_factor and parse_word */
  function ParseFactor(fold: bool, toks: seq<Text>, pos: nat, keywords: seq<Text>): (r: ParseResult)
    requires pos <= |toks|
    ensures Progressed(toks, pos, keywords, r)
    decreases |toks| - pos, 1
  {
    if At(fold, toks, pos, LP) then
      var r := ParseExpr(fold, toks, pos + 1, keywords);
      if r.Error? || !At(fold, toks, r.pos, RP) then Error else r.(pos := r.pos + 1)
    else if pos >= |toks| then Error
    else
      var w := toks[pos];
      if w in keywords then Parsed(Leaf(IndexOf(keywords, w)), pos + 1, keywords)
      else Parsed(Leaf(|keywords|), pos + 1, keywords + [w])
  }

  /** BoolExprParser; fold selects the gateway's case-insensitive matching. */
  class BoolExprParser {
    const fold: bool
    const tokens: seq<Text>
    var pos: nat
    var keywords: seq<Text>

    constructor (fold: bool, tokens: seq<Text>)
      ensures this.fold == fold && this.tokens == tokens && pos == 0 && keywords == []
    {
      this.fold, this.tokens := fold, tokens;
      pos, keywords := 0, [];
    }

    /** The outcome of a parsing method is the one of the parse function on the state it started from. */
    ghost predicate Outcome(r: ParseResult, ok: bool, node: Ast)
      reads this
    {
      if ok then r == Parsed(node, pos, keywords) else r == Error
    }

    method Match(token: Text) returns (matched: bool)
      requires pos <= |tokens|
      modifies this`pos
      ensures matched == At(fold, tokens, old(pos), token)
      ensures pos == if matched then old(pos) + 1 else old(pos)
    {
      matched := pos < |tokens| && Is(fold, tokens[pos], token);
      if matched {
        pos := pos + 1;
      }
    }

    method ParseExprAt() returns (ok: bool, node: Ast)
      requires pos <= |tokens|
      modifies this
      ensures Outcome(ParseExpr(fold, tokens, old(pos), old(keywords)), ok, node)
      ensures ok ==> pos <= |tokens|
      decreases |tokens| - pos, 4
    {
      ok, node := ParseTermAt();
      if !ok {
        return;
      }
      ghost var r := ParseExpr(fold, tokens, old(pos), old(keywords));
      while true
        invariant old(pos) < pos <= |tokens| && InRange(node, |keywords|)
        invariant r == OrTail(fold, tokens, node, pos, keywords)
        decreases |tokens| - pos
      {
        var more := Match(OR);
        if !more {
          return;
        }
        ghost var p, k := pos, keywords;
        var ok', right := ParseTermAt();
        if !ok' {
          return false, node;
        }
        InRangeUp(node, |k|, |keywords|);
        node := Or(node, right);
      }
    }

    method ParseTermAt() returns (ok: bool, node: Ast)
      requires pos <= |tokens|
      modifies this
      ensures Outcome(ParseTerm(fold, tokens, old(pos), old(keywords)), ok, node)
      ensures ok ==> pos <= |tokens|
      decreases |tokens| - pos, 3
    {
      ok, node := ParseUnaryAt();
      if !ok {
        return;
      }
      ghost var r := ParseTerm(fold, tokens, old(pos), old(keywords));
      while true
        invariant old(pos) < pos <= |tokens| && InRange(node, |keywords|)
        invariant r == AndTail(fold, tokens, node, pos, keywords)
        decreases |tokens| - pos
      {
        var more := Match(AND);
        if !more {
          return;
        }
        ghost var p, k := pos, keywords;
        var ok', right := ParseUnaryAt();
        if !ok' {
          return false, node;
        }
        InRangeUp(node, |k|, |keywords|);
        node := And(node, right);
      }
    }

    method ParseUnaryAt() returns (ok: bool, node: Ast)
      requires pos <= |tokens|
      modifies this
      ensures Outcome(ParseUnary(fold, tokens, old(pos), old(keywords)), ok, node)
      ensures ok ==> pos <= |tokens|
      decreases |tokens| - pos, 2
    {
      var negated := Match(NOT);
      if negated {
        ok, node := ParseUnaryAt();
        if ok {
          node := Not(node);
        }
        return;
      }
      ok, node := ParseFactorAt();
    }

    method ParseFactorAt() returns (ok: bool, node: Ast)
      requires pos <= |tokens|
      modifies this
      ensures Outcome(ParseFactor(fold, tokens, old(pos), old(keywords)), ok, node)
      ensures ok ==> pos <= |tokens|
      decreases |tokens| - pos, 1
    {
      var open := Match(LP);
      if open {
        ok, node := ParseExprAt();
        if ok {
          ok := Match(RP);
        }
        return;
      }
      ok, node := ParseWordAt();
    }

    method ParseWordAt() returns (ok: bool, node: Ast)
      requires pos <= |tokens| && !At(fold, tokens, pos, LP)
      modifies this
      ensures Outcome(ParseFactor(fold, tokens, old(pos), old(keywords)), ok, node)
      ensures ok ==> pos <= |tokens|
    {
      if pos >= |tokens| {
        return false, Leaf(0);
      }
      var i := 0;
      while i < |keywords| && keywords[i] != tokens[pos]
        invariant 0 <= i <= |keywords|
        invariant tokens[pos] !in keywords[..i]
      {
        i := i + 1;
      }
      FirstIndex(keywords, tokens[pos], i);
      if i == |keywords| {
        keywords := keywords + [tokens[pos]];
      }
      ok, node := true, Leaf(i);
      pos := pos + 1;
    }
  }

  lemma FirstIndex(s: seq<Text>, w: Text, i: nat)
    requires i <= |s| && w !in s[..i] && (i < |s| ==> s[i] == w)
    ensures w in s <==> i < |s|
    ensures w in s ==> IndexOf(s, w) == i
  {
    if w in s {
      var j := IndexOf(s, w);
      NotBefore(s, w, i);
      NotBefore(s, w, j);
    }
  }

  lemma NotBefore(s: seq<Text>, w: Text, n: nat)
    requires n <= |s| && w !in s[..n]
    ensures forall k :: 0 <= k < n ==> s[k] != w
  {
    forall k | 0 <= k < n
      ensures s[k] != w
    {
      assert s[..n][k] == s[k];
    }
  }

  // ----- printing

  /** How tightly an expression must bind where it is printed: as an operand of NOT, of AND, or of OR. */
  datatype Level = Tight | Conjunct | Disjunct

  function Depth(level: Level, e: Source): nat
  {
    match level
    case Tight => if e.And? || e.Or? then 2 else 0
    case Conjunct => if e.And? then 0 else if e.Or? then 3 else 1
    case Disjunct => if e.Or? then 0 else if e.And? then 1 else 2
  }

  /** The tokens of an expression, with parentheses only where precedence needs them. */
  function Print(level: Level, e: Source): (toks: seq<Text>)
    ensures |toks| > 0
    decreases e, Depth(level, e)
  {
    match level
    case Tight =>
      (match e
       case Leaf(w) => [w]
       case Not(x) => [NOT] + Print(Tight, x)
       case _ => [LP] + Print(Disjunct, e) + [RP])
    case Conjunct =>
      if e.And? then Print(Conjunct, e.left) + [AND] + Print(Tight, e.right) else Print(Tight, e)
    case Disjunct =>
      if e.Or? then Print(Disjunct, e.left) + [OR] + Print(Conjunct, e.right) else Print(Conjunct, e)
  }

  /** No word would be taken for NOT or for an opening parenthesis. */
  predicate Printable(fold: bool, e: Source)
  {
    match e
    case Leaf(w) => !Is(fold, w, NOT) && !Is(fold, w, LP)
    case And(l, r) => Printable(fold, l) && Printable(fold, r)
    case Or(l, r) => Printable(fold, l) && Printable(fold, r)
    case Not(x) => Printable(fold, x)
  }

  datatype Numbered = Numbered(node: Ast, keywords: seq<Text>)

  /** First-occurrence numbering of the words, left to right. */
  function Number(e: Source, keywords: seq<Text>): (r: Numbered)
    ensures keywords <= r.keywords && InRange(r.node, |r.keywords|)
    ensures NoDup(keywords) ==> NoDup(r.keywords)
  {
    match e
    case Leaf(w) =>
      if w in keywords then Numbered(Leaf(IndexOf(keywords, w)), keywords)
      else Numbered(Leaf(|keywords|), keywords + [w])
    case And(l, r) =>
      var a := Number(l, keywords);
      var b := Number(r, a.keywords);
      InRangeUp(a.node, |a.keywords|, |b.keywords|);
      Numbered(And(a.node, b.node), b.keywords)
    case Or(l, r) =>
      var a := Number(l, keywords);
      var b := Number(r, a.keywords);
      InRangeUp(a.node, |a.keywords|, |b.keywords|);
      Numbered(Or(a.node, b.node), b.keywords)
    case Not(x) =>
      var a := Number(x, keywords);
      Numbered(Not(a.node), a.keywords)
  }

  /** Term numbers replaced by the keywords they stand for. */
  function Named(e: Ast, keywords: seq<Text>): Source
    requires InRange(e, |keywords|)
  {
    match e
    case Leaf(i) => Leaf(keywords[i])
    case And(l, r) => And(Named(l, keywords), Named(r, keywords))
    case Or(l, r) => Or(Named(l, keywords), Named(r, keywords))
    case Not(x) => Not(Named(x, keywords))
  }

  lemma {:induction false} NamedExtend(e: Ast, k1: seq<Text>, k2: seq<Text>)
    requires InRange(e, |k1|) && k1 <= k2
    ensures InRange(e, |k2|) && Named(e, k1) == Named(e, k2)
  {
    match e
    case Leaf(i) =>
    case And(l, r) => NamedExtend(l, k1, k2); NamedExtend(r, k1, k2);
    case Or(l, r) => NamedExtend(l, k1, k2); NamedExtend(r, k1, k2);
    case Not(x) => NamedExtend(x, k1, k2);
  }

  /** Numbering loses nothing: the keyword list gives the words back. */
  lemma {:induction false} NamedNumber(e: Source, keywords: seq<Text>)
    ensures var r := Number(e, keywords); Named(r.node, r.keywords) == e
  {
    match e
    case Leaf(w) =>
    case And(l, r) =>
      var a := Number(l, keywords);
      NamedNumber(l, keywords);
      NamedNumber(r, a.keywords);
      NamedExtend(a.node, a.keywords, Number(r, a.keywords).keywords);
    case Or(l, r) =>
      var a := Number(l, keywords);
      NamedNumber(l, keywords);
      NamedNumber(r, a.keywords);
      NamedExtend(a.node, a.keywords, Number(r, a.keywords).keywords);
    case Not(x) =>
      NamedNumber(x, keywords);
  }

  lemma ReservedTokens(fold: bool)
    ensures Is(fold, OR, OR) && !Is(fold, OR, AND)
    ensures Is(fold, AND, AND) && !Is(fold, AND, OR)
    ensures Is(fold, NOT, NOT) && Is(fold, LP, LP) && !Is(fold, LP, NOT)
    ensures Is(fold, RP, RP) && !Is(fold, RP, AND) && !Is(fold, RP, OR)
  {
    assert |OR| == 2 && OR[0] == 79 && OR[1] == 82;
    assert |AND| == 3 && AND[0] == 65 && AND[1] == 78 && AND[2] == 68;
    assert |NOT| == 3 && NOT[0] == 78 && NOT[1] == 79 && NOT[2] == 84;
    assert |LP| == 1 && LP[0] == 40;
    assert |RP| == 1 && RP[0] == 41;
    assert Upper(OR) == OR && Upper(AND) == AND && Upper(NOT) == NOT && Upper(LP) == LP && Upper(RP) == RP;
  }

  /** toks holds the printed expression at pos. */
  predicate Shows(toks: seq<Text>, pos: nat, printed: seq<Text>)
  {
    pos + |printed| <= |toks| && toks[pos..pos + |printed|] == printed
  }

  lemma ShowsParts(toks: seq<Text>, pos: nat, a: seq<Text>, b: seq<Text>)
    requires Shows(toks, pos, a + b)
    ensures Shows(toks, pos, a) && Shows(toks, pos + |a|, b)
  {
    var s := toks[pos..pos + |a + b|];
    assert a == s[..|a|] && b == s[|a|..];
  }

  /** A tightly printed expression is read back by parse_unary. */
  lemma {:induction false} UnaryReads(fold: bool, toks: seq<Text>, pos: nat, e: Source, keywords: seq<Text>)
    requires Printable(fold, e) && Shows(toks, pos, Print(Tight, e))
    ensures var n := Number(e, keywords);
            ParseUnary(fold, toks, pos, keywords) == Parsed(n.node, pos + |Print(Tight, e)|, n.keywords)
    decreases e, Depth(Tight, e), 1
  {
    hide Is, Upper, ParseExpr, OrTail, AndTail, ParseTerm;
    ReservedTokens(fold);
    match e
    case Leaf(w) =>
      assert toks[pos] == toks[pos..pos + 1][0] == w;
    case Not(x) =>
      ShowsParts(toks, pos, [NOT], Print(Tight, x));
      assert toks[pos] == toks[pos..pos + 1][0] == NOT;
      UnaryReads(fold, toks, pos + 1, x, keywords);
    case _ =>
      ParenthesesRead(fold, toks, pos, e, keywords);
  }

  lemma {:induction false} ParenthesesRead(fold: bool, toks: seq<Text>, pos: nat, e: Source, keywords: seq<Text>)
    requires (e.And? || e.Or?) && Printable(fold, e) && Shows(toks, pos, Print(Tight, e))
    ensures var n := Number(e, keywords);
            ParseUnary(fold, toks, pos, keywords) == Parsed(n.node, pos + |Print(Tight, e)|, n.keywords)
    decreases e, Depth(Tight, e), 0
  {
    hide Is, Upper, OrTail, AndTail, ParseTerm, ParseExpr, Number, Printable, InRange;
    ReservedTokens(fold);
    var inner := Print(Disjunct, e);
    ShowsParts(toks, pos, [LP] + inner, [RP]);
    ShowsParts(toks, pos, [LP], inner);
    assert toks[pos] == toks[pos..pos + 1][0] == LP;
    var end := pos + 1 + |inner|;
    assert toks[end] == toks[end..end + 1][0] == RP;
    ExprReads(fold, toks, pos + 1, e, keywords);
    OrStops(fold, toks, Number(e, keywords).node, end, Number(e, keywords).keywords);
  }

  lemma TokenBetween(fold: bool, toks: seq<Text>, pos: nat, left: seq<Text>, token: Text, right: seq<Text>)
    requires Shows(toks, pos, left + [token] + right) && token in [AND, OR]
    ensures Shows(toks, pos, left) && Shows(toks, pos + |left| + 1, right)
    ensures At(fold, toks, pos + |left|, token)
    ensures token == OR ==> !At(fold, toks, pos + |left|, AND)
    ensures token == AND ==> !At(fold, toks, pos + |left|, OR)
  {
    hide Is, Upper;
    ReservedTokens(fold);
    ShowsParts(toks, pos, left + [token], right);
    ShowsParts(toks, pos, left, [token]);
    var mid := pos + |left|;
    assert toks[mid] == toks[mid..mid + 1][0] == token;
  }

  lemma OrContinues(fold: bool, toks: seq<Text>, node: Ast, pos: nat, keywords: seq<Text>)
    requires pos <= |toks| && InRange(node, |keywords|) && At(fold, toks, pos, OR)
    requires ParseTerm(fold, toks, pos + 1, keywords).Parsed?
    ensures var r := ParseTerm(fold, toks, pos + 1, keywords);
            && InRange(node, |r.keywords|)
            && OrTail(fold, toks, node, pos, keywords) == OrTail(fold, toks, Or(node, r.node), r.pos, r.keywords)
  {
    hide At, ParseTerm;
    InRangeUp(node, |keywords|, |ParseTerm(fold, toks, pos + 1, keywords).keywords|);
  }

  lemma AndContinues(fold: bool, toks: seq<Text>, node: Ast, pos: nat, keywords: seq<Text>)
    requires pos <= |toks| && InRange(node, |keywords|) && At(fold, toks, pos, AND)
    requires ParseUnary(fold, toks, pos + 1, keywords).Parsed?
    ensures var r := ParseUnary(fold, toks, pos + 1, keywords);
            && InRange(node, |r.keywords|)
            && AndTail(fold, toks, node, pos, keywords) == AndTail(fold, toks, And(node, r.node), r.pos, r.keywords)
  {
    hide At, ParseUnary;
    InRangeUp(node, |keywords|, |ParseUnary(fold, toks, pos + 1, keywords).keywords|);
  }

  lemma AndStops(fold: bool, toks: seq<Text>, node: Ast, pos: nat, keywords: seq<Text>)
    requires pos <= |toks| && InRange(node, |keywords|) && !At(fold, toks, pos, AND)
    ensures AndTail(fold, toks, node, pos, keywords) == Parsed(node, pos, keywords)
  {
  }

  lemma OrStops(fold: bool, toks: seq<Text>, node: Ast, pos: nat, keywords: seq<Text>)
    requires pos <= |toks| && InRange(node, |keywords|) && !At(fold, toks, pos, OR)
    ensures OrTail(fold, toks, node, pos, keywords) == Parsed(node, pos, keywords)
  {
  }

  /** A conjunction is read back by parse_term, up to the loop that looks for more conjuncts. */
  lemma {:induction false} TermReads(fold: bool, toks: seq<Text>, pos: nat, e: Source, keywords: seq<Text>)
    requires Printable(fold, e) && Shows(toks, pos, Print(Conjunct, e))
    ensures var n := Number(e, keywords);
            ParseTerm(fold, toks, pos, keywords) ==
            AndTail(fold, toks, n.node, pos + |Print(Conjunct, e)|, n.keywords)
    decreases e, Depth(Conjunct, e), 1
  {
    hide At, ParseExpr, OrTail, ParseUnary, ParseFactor, AndTail, InRange;
    if e.And? {
      hide ParseTerm;
      var left, right := Print(Conjunct, e.left), Print(Tight, e.right);
      var mid := pos + |left|;
      TokenBetween(fold, toks, pos, left, AND, right);
      TermReads(fold, toks, pos, e.left, keywords);
      var n := Number(e.left, keywords);
      UnaryReads(fold, toks, mid + 1, e.right, n.keywords);
      AndContinues(fold, toks, n.node, mid, n.keywords);
    } else {
      UnaryReads(fold, toks, pos, e, keywords);
    }
  }

  /** A disjunction is read back by parse_expr, up to the loop that looks for more disjuncts. */
  lemma {:induction false} ExprReads(fold: bool, toks: seq<Text>, pos: nat, e: Source, keywords: seq<Text>)
    requires Printable(fold, e) && Shows(toks, pos, Print(Disjunct, e))
    requires !At(fold, toks, pos + |Print(Disjunct, e)|, AND)
    ensures var n := Number(e, keywords);
            ParseExpr(fold, toks, pos, keywords) ==
            OrTail(fold, toks, n.node, pos + |Print(Disjunct, e)|, n.keywords)
    decreases e, Depth(Disjunct, e), 1
  {
    hide At, ParseTerm, ParseUnary, ParseFactor, AndTail, OrTail, InRange;
    if e.Or? {
      hide ParseExpr;
      var left, right := Print(Disjunct, e.left), Print(Conjunct, e.right);
      var mid := pos + |left|;
      TokenBetween(fold, toks, pos, left, OR, right);
      ExprReads(fold, toks, pos, e.left, keywords);
      var n := Number(e.left, keywords);
      TermReads(fold, toks, mid + 1, e.right, n.keywords);
      var m := Number(e.right, n.keywords);
      AndStops(fold, toks, m.node, mid + 1 + |right|, m.keywords);
      OrContinues(fold, toks, n.node, mid, n.keywords);
    } else {
      TermReads(fold, toks, pos, e, keywords);
      var m := Number(e, keywords);
      AndStops(fold, toks, m.node, pos + |Print(Disjunct, e)|, m.keywords);
    }
  }

  /**
   Parsing a printed expression gives the expression back, numbered by first occurrence, and stops
   at the first token that is neither AND nor OR.
   */
  lemma ParsePrinted(fold: bool, e: Source, rest: seq<Text>, keywords: seq<Text>)
    requires Printable(fold, e)
    requires rest != [] ==> !Is(fold, rest[0], AND) && !Is(fold, rest[0], OR)
    ensures var printed, n := Print(Disjunct, e), Number(e, keywords);
            && ParseExpr(fold, printed + rest, 0, keywords) == Parsed(n.node, |printed|, n.keywords)
            && Named(n.node, n.keywords) == e
  {
    var printed := Print(Disjunct, e);
    assert (printed + rest)[0..|printed|] == printed;
    assert rest != [] ==> (printed + rest)[|printed|] == rest[0];
    ExprReads(fold, printed + rest, 0, e, keywords);
    NamedNumber(e, keywords);
  }

  // ----- every parse is canonical

  /** A result is the first-occurrence numbering, continued from k0, of an expression that can be printed. */
  predicate Canonical(fold: bool, k0: seq<Text>, node: Ast, keywords: seq<Text>)
    requires InRange(node, |keywords|)
  {
    var e := Named(node, keywords);
    Printable(fold, e) && Number(e, k0) == Numbered(node, keywords)
  }

  lemma AndCanonical(fold: bool, k0: seq<Text>, left: Ast, k1: seq<Text>, right: Ast, k2: seq<Text>)
    requires InRange(left, |k1|) && InRange(right, |k2|) && k1 <= k2
    requires Canonical(fold, k0, left, k1) && Canonical(fold, k1, right, k2)
    ensures InRange(left, |k2|) && Canonical(fold, k0, And(left, right), k2)
  {
    NamedExtend(left, k1, k2);
  }

  lemma OrCanonical(fold: bool, k0: seq<Text>, left: Ast, k1: seq<Text>, right: Ast, k2: seq<Text>)
    requires InRange(left, |k1|) && InRange(right, |k2|) && k1 <= k2
    requires Canonical(fold, k0, left, k1) && Canonical(fold, k1, right, k2)
    ensures InRange(left, |k2|) && Canonical(fold, k0, Or(left, right), k2)
  {
    NamedExtend(left, k1, k2);
  }

  lemma {:induction false} ExprCanonical(fold: bool, toks: seq<Text>, pos: nat, keywords: seq<Text>)
    requires pos <= |toks|
    ensures var r := ParseExpr(fold, toks, pos, keywords); r.Parsed? ==> Canonical(fold, keywords, r.node, r.keywords)
    decreases |toks| - pos, 4
  {
    hide Canonical;
    TermCanonical(fold, toks, pos, keywords);
    var r := ParseTerm(fold, toks, pos, keywords);
    if r.Parsed? {
      OrTailCanonical(fold, toks, r.node, r.pos, r.keywords, keywords);
    }
  }

  lemma {:induction false} OrTailCanonical(fold: bool, toks: seq<Text>, node: Ast, pos: nat, keywords: seq<Text>,
                                           k0: seq<Text>)
    requires pos <= |toks| && InRange(node, |keywords|) && Canonical(fold, k0, node, keywords)
    ensures var r := OrTail(fold, toks, node, pos, keywords); r.Parsed? ==> Canonical(fold, k0, r.node, r.keywords)
    decreases |toks| - pos, 0
  {
    hide Canonical;
    if At(fold, toks, pos, OR) {
      TermCanonical(fold, toks, pos + 1, keywords);
      var r := ParseTerm(fold, toks, pos + 1, keywords);
      if r.Parsed? {
        OrCanonical(fold, k0, node, keywords, r.node, r.keywords);
        OrTailCanonical(fold, toks, Or(node, r.node), r.pos, r.keywords, k0);
      }
    }
  }

  lemma {:induction false} TermCanonical(fold: bool, toks: seq<Text>, pos: nat, keywords: seq<Text>)
    requires pos <= |toks|
    ensures var r := ParseTerm(fold, toks, pos, keywords); r.Parsed? ==> Canonical(fold, keywords, r.node, r.keywords)
    decreases |toks| - pos, 3
  {
    hide Canonical;
    UnaryCanonical(fold, toks, pos, keywords);
    var r := ParseUnary(fold, toks, pos, keywords);
    if r.Parsed? {
      AndTailCanonical(fold, toks, r.node, r.pos, r.keywords, keywords);
    }
  }

  lemma {:induction false} AndTailCanonical(fold: bool, toks: seq<Text>, node: Ast, pos: nat, keywords: seq<Text>,
                                            k0: seq<Text>)
    requires pos <= |toks| && InRange(node, |keywords|) && Canonical(fold, k0, node, keywords)
    ensures var r := AndTail(fold, toks, node, pos, keywords); r.Parsed? ==> Canonical(fold, k0, r.node, r.keywords)
    decreases |toks| - pos, 0
  {
    hide Canonical;
    if At(fold, toks, pos, AND) {
      UnaryCanonical(fold, toks, pos + 1, keywords);
      var r := ParseUnary(fold, toks, pos + 1, keywords);
      if r.Parsed? {
        AndCanonical(fold, k0, node, keywords, r.node, r.keywords);
        AndTailCanonical(fold, toks, And(node, r.node), r.pos, r.keywords, k0);
      }
    }
  }

  lemma {:induction false} UnaryCanonical(fold: bool, toks: seq<Text>, pos: nat, keywords: seq<Text>)
    requires pos <= |toks|
    ensures var r := ParseUnary(fold, toks, pos, keywords); r.Parsed? ==> Canonical(fold, keywords, r.node, r.keywords)
    decreases |toks| - pos, 2
  {
    if At(fold, toks, pos, NOT) {
      UnaryCanonical(fold, toks, pos + 1, keywords);
    } else if At(fold, toks, pos, LP) {
      ExprCanonical(fold, toks, pos + 1, keywords);
    }
  }

  /**
   Whatever the tokens were, printing a parsed expression and parsing that again gives the same AST and
   keyword list.
   */
  lemma ParseIsCanonical(fold: bool, toks: seq<Text>)
    ensures var r := ParseExpr(fold, toks, 0, []);
            r.Parsed? ==>
              var printed := Print(Disjunct, Named(r.node, r.keywords));
              ParseExpr(fold, printed, 0, []) == Parsed(r.node, |printed|, r.keywords)
  {
    hide ParseExpr, Print;
    ExprCanonical(fold, toks, 0, []);
    var r := ParseExpr(fold, toks, 0, []);
    if r.Parsed? {
      var e := Named(r.node, r.keywords);
      ParsePrinted(fold, e, [], []);
      assert Print(Disjunct, e) + [] == Print(Disjunct, e);
    }
  }
}
