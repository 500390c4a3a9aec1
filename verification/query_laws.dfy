/** The query language byte by byte: what separates tokens, which tokens are operators, and how they bind. */
module QueryLaws {
  import opened Bytes
  import opened BitPack
  import opened Query
  import opened QueryCode

  // ----- tokens

  /** Tab, line feed, vertical tab, form feed, carriage return and space. */
  predicate Blank(b: byte)
  {
    b == 9 || b == 10 || b == 11 || b == 12 || b == 13 || b == 32
  }

  /** A blank ends a token and leaves nothing behind. */
  lemma {:induction false} BlankSeparates(a: Text, b: byte, rest: Text, cur: Text)
    requires Blank(b)
    ensures Lex(a + [b] + rest, cur) == Lex(a, cur) + Lex(rest, [])
    decreases |a|
  {
    var input := a + [b] + rest;
    if a == [] {
      assert input[1..] == rest;
    } else {
      assert input[1..] == a[1..] + [b] + rest;
      BlankSeparates(a[1..], b, rest, if IsSpace(a[0]) || IsParen(a[0]) then [] else cur + [a[0]]);
    }
  }

  /** A parenthesis ends a token and is one itself, spaces or not. */
  lemma {:induction false} ParenStandsAlone(a: Text, paren: byte, rest: Text, cur: Text)
    requires paren in [40, 41]
    ensures Lex(a + [paren] + rest, cur) == Lex(a, cur) + [[paren]] + Lex(rest, [])
    decreases |a|
  {
    var input := a + [paren] + rest;
    if a == [] {
      assert input[1..] == rest;
    } else {
      assert input[1..] == a[1..] + [paren] + rest;
      ParenStandsAlone(a[1..], paren, rest, if IsSpace(a[0]) || IsParen(a[0]) then [] else cur + [a[0]]);
    }
  }

  /** A run of any other bytes is one token, kept byte for byte. */
  lemma RunIsToken(w: Text)
    requires forall i :: 0 <= i < |w| ==> !Blank(w[i]) && w[i] != 40 && w[i] != 41
    ensures Lex(w, []) == if w == [] then [] else [w]
  {
    hide Lex;
    LexWord(w, [], []);
    LexNothing(w);
    assert w + [] == w && [] + w == w;
  }

  lemma LexNothing(cur: Text)
    ensures Lex([], cur) == FlushWord(cur)
  {
  }

  // ----- operators

  /** The token consists of these capitals; with fold each may be a small letter. */
  predicate Spells(fold: bool, t: Text, capitals: Text)
  {
    && |t| == |capitals|
    && forall i :: 0 <= i < |t| ==>
      t[i] == capitals[i] || (fold && 65 <= capitals[i] <= 90 && t[i] as int == capitals[i] as int + 32)
  }

  predicate IsAnd(fold: bool, t: Text)
  {
    Spells(fold, t, [65, 78, 68])
  }

  predicate IsOr(fold: bool, t: Text)
  {
    Spells(fold, t, [79, 82])
  }

  predicate IsNot(fold: bool, t: Text)
  {
    Spells(fold, t, [78, 79, 84])
  }

  /** A token that is read as a word where an operand is due. */
  predicate Operand(fold: bool, t: Text)
  {
    !IsNot(fold, t) && t != [40]
  }

  /** Which tokens are read as operators and parentheses. */
  lemma OperatorTokens(fold: bool, t: Text)
    ensures Is(fold, t, AND) <==> IsAnd(fold, t)
    ensures Is(fold, t, OR) <==> IsOr(fold, t)
    ensures Is(fold, t, NOT) <==> IsNot(fold, t)
    ensures Is(fold, t, LP) <==> t == [40]
    ensures Is(fold, t, RP) <==> t == [41]
  {
    SpellsIs(fold, t, "AND", [65, 78, 68]);
    SpellsIs(fold, t, "OR", [79, 82]);
    SpellsIs(fold, t, "NOT", [78, 79, 84]);
    SpellsIs(fold, t, "(", [40]);
    SpellsIs(fold, t, ")", [41]);
  }

  lemma SpellsIs(fold: bool, t: Text, s: string, capitals: Text)
    requires Ascii(s) == capitals && forall i :: 0 <= i < |capitals| ==> !(97 <= capitals[i] <= 122)
    ensures Is(fold, t, Ascii(s)) <==> Spells(fold, t, capitals)
  {
    if |t| == |capitals| {
      assert |Upper(t)| == |t|;
      assert forall i :: 0 <= i < |t| ==> Upper(t)[i] == if 97 <= t[i] <= 122 then t[i] - 32 else t[i];
    }
  }

  // ----- how they bind

  /** The tokens are read, all of them, as this expression. */
  predicate ReadsAs(fold: bool, toks: seq<Text>, e: Source)
  {
    var r := ParseExpr(fold, toks, 0, []);
    r.Parsed? && r.pos == |toks| && Named(r.node, r.keywords) == e
  }

  lemma WordIsOperand(fold: bool, toks: seq<Text>, pos: nat, keywords: seq<Text>)
    requires pos < |toks| && Operand(fold, toks[pos])
    ensures var n := Number(Leaf(toks[pos]), keywords);
            ParseUnary(fold, toks, pos, keywords) == Parsed(n.node, pos + 1, n.keywords)
  {
    hide Is;
    OperatorTokens(fold, toks[pos]);
  }

  lemma WordIsTerm(fold: bool, toks: seq<Text>, pos: nat, keywords: seq<Text>)
    requires pos < |toks| && Operand(fold, toks[pos]) && (pos + 1 < |toks| ==> !IsAnd(fold, toks[pos + 1]))
    ensures var n := Number(Leaf(toks[pos]), keywords);
            ParseTerm(fold, toks, pos, keywords) == Parsed(n.node, pos + 1, n.keywords)
  {
    hide Is, ParseUnary;
    WordIsOperand(fold, toks, pos, keywords);
    if pos + 1 < |toks| {
      OperatorTokens(fold, toks[pos + 1]);
    }
    var n := Number(Leaf(toks[pos]), keywords);
    AndStops(fold, toks, n.node, pos + 1, n.keywords);
  }

  /** An operand, AND, and another operand: one term. */
  lemma PairIsTerm(fold: bool, toks: seq<Text>, pos: nat, keywords: seq<Text>)
    requires pos + 2 < |toks| && Operand(fold, toks[pos]) && IsAnd(fold, toks[pos + 1]) && Operand(fold, toks[pos + 2])
    requires pos + 3 < |toks| ==> !IsAnd(fold, toks[pos + 3])
    ensures var n := Number(And(Leaf(toks[pos]), Leaf(toks[pos + 2])), keywords);
            ParseTerm(fold, toks, pos, keywords) == Parsed(n.node, pos + 3, n.keywords)
  {
    hide Is, ParseUnary, AndTail;
    WordIsOperand(fold, toks, pos, keywords);
    OperatorTokens(fold, toks[pos + 1]);
    var left := Number(Leaf(toks[pos]), keywords);
    WordIsOperand(fold, toks, pos + 2, left.keywords);
    AndContinues(fold, toks, left.node, pos + 1, left.keywords);
    if pos + 3 < |toks| {
      OperatorTokens(fold, toks[pos + 3]);
    }
    var n := Number(And(Leaf(toks[pos]), Leaf(toks[pos + 2])), keywords);
    AndStops(fold, toks, n.node, pos + 3, n.keywords);
  }

  /** Two terms with OR between them, and nothing else. */
  lemma TwoTerms(fold: bool, toks: seq<Text>, mid: nat, l: Source, r: Source)
    requires 0 < mid < |toks| && IsOr(fold, toks[mid])
    requires var a := Number(l, []); ParseTerm(fold, toks, 0, []) == Parsed(a.node, mid, a.keywords)
    requires var a := Number(l, []); var b := Number(r, a.keywords);
             ParseTerm(fold, toks, mid + 1, a.keywords) == Parsed(b.node, |toks|, b.keywords)
    ensures ReadsAs(fold, toks, Or(l, r))
  {
    hide Is, ParseTerm, OrTail;
    OperatorTokens(fold, toks[mid]);
    var a := Number(l, []);
    var n := Number(Or(l, r), []);
    OrContinues(fold, toks, a.node, mid, a.keywords);
    OrStops(fold, toks, n.node, |toks|, n.keywords);
    NamedNumber(Or(l, r), []);
  }

  lemma OneTerm(fold: bool, toks: seq<Text>, e: Source)
    requires var n := Number(e, []); ParseTerm(fold, toks, 0, []) == Parsed(n.node, |toks|, n.keywords)
    ensures ReadsAs(fold, toks, e)
  {
    hide Is, ParseTerm, OrTail;
    var n := Number(e, []);
    OrStops(fold, toks, n.node, |toks|, n.keywords);
    NamedNumber(e, []);
  }

  /** a AND b */
  lemma AndJoins(fold: bool, a: Text, op: Text, b: Text)
    requires Operand(fold, a) && IsAnd(fold, op) && Operand(fold, b)
    ensures ReadsAs(fold, [a, op, b], And(Leaf(a), Leaf(b)))
  {
    hide ParseTerm, Operand, Spells, ReadsAs;
    PairIsTerm(fold, [a, op, b], 0, []);
    OneTerm(fold, [a, op, b], And(Leaf(a), Leaf(b)));
  }

  lemma Distinct(fold: bool, t: Text)
    ensures !(IsAnd(fold, t) && IsOr(fold, t))
  {
  }

  /** a OR b */
  lemma OrJoins(fold: bool, a: Text, op: Text, b: Text)
    requires Operand(fold, a) && IsOr(fold, op) && Operand(fold, b)
    ensures ReadsAs(fold, [a, op, b], Or(Leaf(a), Leaf(b)))
  {
    Distinct(fold, op);
    hide ParseTerm, Operand, Spells, ReadsAs;
    var toks := [a, op, b];
    WordIsTerm(fold, toks, 0, []);
    WordIsTerm(fold, toks, 2, Number(Leaf(a), []).keywords);
    TwoTerms(fold, toks, 1, Leaf(a), Leaf(b));
  }

  /** NOT a */
  lemma NotNegates(fold: bool, op: Text, a: Text)
    requires IsNot(fold, op) && Operand(fold, a)
    ensures ReadsAs(fold, [op, a], Not(Leaf(a)))
  {
    hide Is, Operand, Spells, ReadsAs;
    var toks := [op, a];
    OperatorTokens(fold, op);
    WordIsOperand(fold, toks, 1, []);
    var n := Number(Not(Leaf(a)), []);
    hide ParseFactor;
    assert ParseUnary(fold, toks, 0, []) == Parsed(n.node, 2, n.keywords);
    hide ParseUnary;
    AndStops(fold, toks, n.node, 2, n.keywords);
    OneTerm(fold, toks, Not(Leaf(a)));
  }

  /** a OR b AND c: AND binds tighter. */
  lemma AndBeforeOr(fold: bool, a: Text, or: Text, b: Text, and: Text, c: Text)
    requires Operand(fold, a) && IsOr(fold, or) && Operand(fold, b) && IsAnd(fold, and) && Operand(fold, c)
    ensures ReadsAs(fold, [a, or, b, and, c], Or(Leaf(a), And(Leaf(b), Leaf(c))))
  {
    Distinct(fold, or);
    hide ParseTerm, Operand, Spells, ReadsAs;
    var toks := [a, or, b, and, c];
    WordIsTerm(fold, toks, 0, []);
    PairIsTerm(fold, toks, 2, Number(Leaf(a), []).keywords);
    TwoTerms(fold, toks, 1, Leaf(a), And(Leaf(b), Leaf(c)));
  }

  /** a AND b OR c */
  lemma OrAfterAnd(fold: bool, a: Text, and: Text, b: Text, or: Text, c: Text)
    requires Operand(fold, a) && IsAnd(fold, and) && Operand(fold, b) && IsOr(fold, or) && Operand(fold, c)
    ensures ReadsAs(fold, [a, and, b, or, c], Or(And(Leaf(a), Leaf(b)), Leaf(c)))
  {
    Distinct(fold, or);
    hide ParseTerm, Operand, Spells, ReadsAs;
    var toks := [a, and, b, or, c];
    PairIsTerm(fold, toks, 0, []);
    WordIsTerm(fold, toks, 4, Number(And(Leaf(a), Leaf(b)), []).keywords);
    TwoTerms(fold, toks, 3, And(Leaf(a), Leaf(b)), Leaf(c));
  }

  /** NOT a AND b: NOT binds tightest. */
  lemma NotBeforeAnd(fold: bool, not: Text, a: Text, and: Text, b: Text)
    requires IsNot(fold, not) && Operand(fold, a) && IsAnd(fold, and) && Operand(fold, b)
    ensures ReadsAs(fold, [not, a, and, b], And(Not(Leaf(a)), Leaf(b)))
  {
    hide Is, Operand, Spells, ReadsAs;
    var toks := [not, a, and, b];
    OperatorTokens(fold, not);
    OperatorTokens(fold, and);
    WordIsOperand(fold, toks, 1, []);
    var l := Number(Not(Leaf(a)), []);
    hide ParseFactor;
    assert ParseUnary(fold, toks, 0, []) == Parsed(l.node, 2, l.keywords);
    hide ParseUnary, AndTail;
    WordIsOperand(fold, toks, 3, l.keywords);
    AndContinues(fold, toks, l.node, 2, l.keywords);
    var n := Number(And(Not(Leaf(a)), Leaf(b)), []);
    AndStops(fold, toks, n.node, 4, n.keywords);
    OneTerm(fold, toks, And(Not(Leaf(a)), Leaf(b)));
  }

  /** Any expression in parentheses is one operand. */
  lemma GroupReads(fold: bool, toks: seq<Text>, pos: nat, e: Source, keywords: seq<Text>)
    requires Printable(fold, e) && Shows(toks, pos, [[40]] + Print(Disjunct, e) + [[41]])
    ensures var n := Number(e, keywords);
            ParseUnary(fold, toks, pos, keywords) == Parsed(n.node, pos + |Print(Disjunct, e)| + 2, n.keywords)
  {
    hide Is, Upper, OrTail, AndTail, ParseTerm, ParseExpr, Number, Printable, InRange;
    var inner := Print(Disjunct, e);
    ShowsParts(toks, pos, [[40]] + inner, [[41]]);
    ShowsParts(toks, pos, [[40]], inner);
    assert toks[pos] == toks[pos..pos + 1][0] == [40];
    var end := pos + 1 + |inner|;
    assert toks[end] == toks[end..end + 1][0] == [41];
    OperatorTokens(fold, [40]);
    OperatorTokens(fold, [41]);
    ExprReads(fold, toks, pos + 1, e, keywords);
    OrStops(fold, toks, Number(e, keywords).node, end, Number(e, keywords).keywords);
  }

  /** Parentheses around any expression, however it is written out, change nothing. */
  lemma Brackets(fold: bool, e: Source)
    requires Printable(fold, e)
    ensures ReadsAs(fold, [[40]] + Print(Disjunct, e) + [[41]], e)
    ensures ReadsAs(fold, Print(Disjunct, e), e)
  {
    hide Print, ParseTerm, ReadsAs, Shows, Printable;
    var toks := [[40]] + Print(Disjunct, e) + [[41]];
    Everything(toks);
    GroupReads(fold, toks, 0, e, []);
    var n := Number(e, []);
    UnaryAlone(fold, toks, e);
    ParsePrinted(fold, e, [], []);
    assert Print(Disjunct, e) + [] == Print(Disjunct, e);
    Whole(fold, Print(Disjunct, e), e);
  }

  lemma Everything(toks: seq<Text>)
    ensures Shows(toks, 0, toks)
  {
  }

  lemma Whole(fold: bool, toks: seq<Text>, e: Source)
    requires var n := Number(e, []); ParseExpr(fold, toks, 0, []) == Parsed(n.node, |toks|, n.keywords)
    ensures ReadsAs(fold, toks, e)
  {
    hide ParseExpr;
    NamedNumber(e, []);
  }

  lemma UnaryAlone(fold: bool, toks: seq<Text>, e: Source)
    requires var n := Number(e, []); ParseUnary(fold, toks, 0, []) == Parsed(n.node, |toks|, n.keywords)
    ensures ReadsAs(fold, toks, e)
  {
    hide ParseUnary, AndTail, ReadsAs, Number;
    var n := Number(e, []);
    AndStops(fold, toks, n.node, |toks|, n.keywords);
    OneTerm(fold, toks, e);
  }

  /** An expression in parentheses is one operand, whatever it joins inside: ( e ) AND b, NOT ( e ). */
  lemma BracketsHold(fold: bool, e: Source, b: Text)
    requires Printable(fold, e) && Operand(fold, b)
    ensures ReadsAs(fold, [[40]] + Print(Disjunct, e) + [[41], [65, 78, 68], b], And(e, Leaf(b)))
    ensures ReadsAs(fold, [[78, 79, 84], [40]] + Print(Disjunct, e) + [[41]], Not(e))
  {
    GroupThenAnd(fold, e, b);
    NotThenGroup(fold, e);
  }

  lemma GroupThenAnd(fold: bool, e: Source, b: Text)
    requires Printable(fold, e) && Operand(fold, b)
    ensures ReadsAs(fold, [[40]] + Print(Disjunct, e) + [[41], [65, 78, 68], b], And(e, Leaf(b)))
  {
    hide Print, ParseTerm, ReadsAs, Shows, Printable, ParseUnary, AndTail, Operand, Is;
    var group := [[40]] + Print(Disjunct, e) + [[41]];
    var toks := [[40]] + Print(Disjunct, e) + [[41], [65, 78, 68], b];
    assert toks == [] + group + [[65, 78, 68], b];
    Inside([], group, [[65, 78, 68], b]);
    GroupReads(fold, toks, 0, e, []);
    var l := Number(e, []);
    OperatorTokens(fold, [65, 78, 68]);
    WordIsOperand(fold, toks, |group| + 1, l.keywords);
    AndContinues(fold, toks, l.node, |group|, l.keywords);
    var n := Number(And(e, Leaf(b)), []);
    AndStops(fold, toks, n.node, |toks|, n.keywords);
    TermStarts(fold, toks, l.node, |group|, l.keywords);
    OneTerm(fold, toks, And(e, Leaf(b)));
  }

  lemma TermStarts(fold: bool, toks: seq<Text>, node: Ast, pos: nat, keywords: seq<Text>)
    requires ParseUnary(fold, toks, 0, []) == Parsed(node, pos, keywords) && pos <= |toks| && InRange(node, |keywords|)
    ensures ParseTerm(fold, toks, 0, []) == AndTail(fold, toks, node, pos, keywords)
  {
    hide ParseUnary, AndTail;
  }

  lemma Inside(before: seq<Text>, printed: seq<Text>, rest: seq<Text>)
    ensures Shows(before + printed + rest, |before|, printed)
  {
  }

  lemma NotThenGroup(fold: bool, e: Source)
    requires Printable(fold, e)
    ensures ReadsAs(fold, [[78, 79, 84], [40]] + Print(Disjunct, e) + [[41]], Not(e))
  {
    hide Print, ParseTerm, ReadsAs, Shows, Printable, ParseFactor, Is, Number;
    var group := [[40]] + Print(Disjunct, e) + [[41]];
    var toks := [[78, 79, 84], [40]] + Print(Disjunct, e) + [[41]];
    assert toks == [[78, 79, 84]] + group + [];
    Inside([[78, 79, 84]], group, []);
    GroupReads(fold, toks, 1, e, []);
    OperatorTokens(fold, [78, 79, 84]);
    NotReads(fold, toks, e);
    UnaryAlone(fold, toks, Not(e));
  }

  lemma NotReads(fold: bool, toks: seq<Text>, e: Source)
    requires toks != [] && Is(fold, toks[0], NOT)
    requires var n := Number(e, []); ParseUnary(fold, toks, 1, []) == Parsed(n.node, |toks|, n.keywords)
    ensures var n := Number(Not(e), []); ParseUnary(fold, toks, 0, []) == Parsed(n.node, |toks|, n.keywords)
  {
    hide Is, ParseFactor;
  }

  /** What is cut short is refused: nothing at all, an operator without its operand, an open parenthesis. */
  lemma Incomplete(fold: bool, a: Text, op: Text)
    requires Operand(fold, a)
    ensures ParseExpr(fold, [], 0, []).Error?
    ensures IsAnd(fold, op) || IsOr(fold, op) ==> ParseExpr(fold, [a, op], 0, []).Error?
    ensures IsNot(fold, op) ==> ParseExpr(fold, [op], 0, []).Error?
    ensures ParseExpr(fold, [[40], a], 0, []).Error?
  {
    hide Is, Spells;
    CutOff(fold, [], 0, []);
    if IsAnd(fold, op) || IsOr(fold, op) {
      TailCut(fold, a, op);
    }
    if IsNot(fold, op) {
      OperatorTokens(fold, op);
      CutOff(fold, [op], 1, []);
      hide ParseFactor;
      assert ParseUnary(fold, [op], 0, []).Error?;
    }
    OperatorTokens(fold, [40]);
    ParenIsNoWord(fold);
    OpenCut(fold, a);
  }

  lemma ParenIsNoWord(fold: bool)
    ensures !IsNot(fold, [40])
  {
  }

  lemma CutOff(fold: bool, toks: seq<Text>, pos: nat, keywords: seq<Text>)
    requires pos == |toks|
    ensures ParseUnary(fold, toks, pos, keywords).Error? && ParseTerm(fold, toks, pos, keywords).Error?
    ensures ParseExpr(fold, toks, pos, keywords).Error?
  {
  }

  lemma TailCut(fold: bool, a: Text, op: Text)
    requires Operand(fold, a) && (IsAnd(fold, op) || IsOr(fold, op))
    ensures ParseExpr(fold, [a, op], 0, []).Error?
  {
    var toks := [a, op];
    var n := Number(Leaf(a), []);
    OperatorTokens(fold, op);
    CutOff(fold, toks, 2, n.keywords);
    if IsAnd(fold, op) {
      WordIsOperand(fold, toks, 0, []);
      hide Is, ParseUnary, Operand, Spells;
      assert AndTail(fold, toks, n.node, 1, n.keywords).Error?;
      hide AndTail;
      assert ParseTerm(fold, toks, 0, []).Error?;
    } else {
      WordIsTerm(fold, toks, 0, []);
      hide Is, ParseTerm, Operand, Spells;
      assert OrTail(fold, toks, n.node, 1, n.keywords).Error?;
    }
  }

  lemma OpenCut(fold: bool, a: Text)
    requires Operand(fold, a) && Is(fold, [40], LP) && !Is(fold, [40], NOT)
    ensures ParseExpr(fold, [[40], a], 0, []).Error?
  {
    var toks := [[40], a];
    var n := Number(Leaf(a), []);
    hide Is, Operand;
    WordIsTerm(fold, toks, 1, []);
    hide ParseTerm, ParseUnary;
    OrStops(fold, toks, n.node, 2, n.keywords);
    OpenFails(fold, toks);
  }

  lemma OpenFails(fold: bool, toks: seq<Text>)
    requires |toks| == 2 && Is(fold, toks[0], LP) && !Is(fold, toks[0], NOT)
    requires ParseExpr(fold, toks, 1, []).Parsed? && ParseExpr(fold, toks, 1, []).pos == 2
    ensures ParseExpr(fold, toks, 0, []).Error?
  {
    hide Is, OrTail, AndTail;
    assert ParseFactor(fold, toks, 0, []).Error?;
    assert ParseUnary(fold, toks, 0, []).Error?;
    assert ParseTerm(fold, toks, 0, []).Error?;
  }

  // ----- code bytes

  /** The code of an expression: 1 and a term number; operands, then 2 for AND, 3 for OR or 4 for NOT. */
  lemma CodeBytes(i: nat, l: Ast, r: Ast)
    ensures i < 256 ==> Encode(Leaf(i)) == [1, i as byte]
    ensures Encode(And(l, r)) == Encode(l) + Encode(r) + [2]
    ensures Encode(Or(l, r)) == Encode(l) + Encode(r) + [3]
    ensures Encode(Not(l)) == Encode(l) + [4]
  {
  }

  /** What the machine does with these bytes: look up, intersect, unite, complement within the live documents. */
  lemma MachineBytes(rest: seq<byte>, terms: seq<Text>, view: Text -> Bitmap, live: Bitmap, stk: seq<Bitmap>,
                     a: Bitmap, b: Bitmap, i: byte)
    ensures i as int < |terms| ==>
      Run([1, i] + rest, terms, view, live, stk) == Run(rest, terms, view, live, stk + [view(terms[i as int])])
    ensures Run([2] + rest, terms, view, live, stk + [a] + [b]) == Run(rest, terms, view, live, stk + [a * b])
    ensures Run([3] + rest, terms, view, live, stk + [a] + [b]) == Run(rest, terms, view, live, stk + [a + b])
    ensures Run([4] + rest, terms, view, live, stk + [a]) == Run(rest, terms, view, live, stk + [live - a])
    ensures i == 0 || i > 4 ==> Run([i] + rest, terms, view, live, stk) == Run(rest, terms, view, live, stk)
  {
    if i as int < |terms| {
      assert ([1, i] + rest)[2..] == rest;
    }
    assert ([i] + rest)[1..] == rest;
    RunBinary(a, b, 2, rest, terms, view, live, stk);
    RunBinary(a, b, 3, rest, terms, view, live, stk);
    RunNot(a, rest, terms, view, live, stk);
  }
}
