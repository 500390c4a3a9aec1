/** wordTokenize: the comma-separated keywords of an index text. */
module Tokens {
  import opened Bytes

  const COMMA: byte := 44

  /** What a C string reader sees: the bytes before the first NUL. */
  function UpToNul(s: Text): (r: Text)
    ensures 0 !in r && r <= s
  {
    if s == [] || s[0] == 0 then [] else [s[0]] + UpToNul(s[1..])
  }

  function Flush(cur: Text): seq<Text>
  {
    if cur == [] then [] else [cur]
  }

  /** The nonempty pieces between commas, with cur already read. */
  function Pieces(s: Text, cur: Text): seq<Text>
  {
    if s == [] then Flush(cur)
    else if s[0] == COMMA then Flush(cur) + Pieces(s[1..], [])
    else Pieces(s[1..], cur + [s[0]])
  }

  function TokensOf(content: Text): seq<Text>
  {
    Pieces(UpToNul(content), [])
  }

  lemma {:induction false} PiecesStep(s: Text, i: nat, cur: Text)
    requires i < |s|
    ensures Pieces(s[i..], cur)
         == if s[i] == COMMA then Flush(cur) + Pieces(s[i + 1..], []) else Pieces(s[i + 1..], cur + [s[i]])
  {
    assert s[i..][1..] == s[i + 1..];
  }

  /** wordTokenize, with strtok's scan written out. */
  method WordTokenize(content: Text) returns (result: seq<Text>)
    ensures result == TokensOf(content)
  {
    result := [];
    var s := UpToNul(content);
    var current: Text := [];
    var i := 0;
    assert s[0..] == s;
    while i < |s|
      invariant 0 <= i <= |s|
      invariant result + Pieces(s[i..], current) == TokensOf(content)
    {
      PiecesStep(s, i, current);
      if s[i] == COMMA {
        if current != [] {
          result := result + [current];
        }
        current := [];
      } else {
        current := current + [s[i]];
      }
      i := i + 1;
    }
    if current != [] {
      result := result + [current];
    }
  }

  predicate Word(w: Text)
  {
    w != [] && COMMA !in w && 0 !in w
  }

  lemma {:induction false} PiecesAreWords(s: Text, cur: Text)
    requires 0 !in s && COMMA !in cur && 0 !in cur
    ensures forall w :: w in Pieces(s, cur) ==> Word(w)
    decreases s
  {
    if s == [] {
    } else if s[0] == COMMA {
      PiecesAreWords(s[1..], []);
    } else {
      PiecesAreWords(s[1..], cur + [s[0]]);
    }
  }

  /** Every keyword is nonempty and free of commas and NULs. */
  lemma TokensAreWords(content: Text)
    ensures forall w :: w in TokensOf(content) ==> Word(w)
  {
    PiecesAreWords(UpToNul(content), []);
  }

  lemma {:induction false} UpToNulAppend(s: Text, t: Text)
    requires 0 !in s
    ensures UpToNul(s + t) == s + UpToNul(t)
  {
    if s == [] {
      assert s + t == t;
    } else {
      assert (s + t)[1..] == s[1..] + t;
      UpToNulAppend(s[1..], t);
      assert s == [s[0]] + s[1..];
    }
  }

  lemma {:induction false} UpToNulPrefix(s: Text, n: nat)
    requires n <= |s| && forall i :: n <= i < |s| ==> s[i] == 0
    ensures UpToNul(s[..n]) == UpToNul(s)
  {
    if n == 0 {
    } else if s[0] != 0 {
      assert s[..n][1..] == s[1..][..n - 1];
      UpToNulPrefix(s[1..], n - 1);
    }
  }

  /** Trimming trailing NULs from an index text does not change its keywords. */
  lemma TokensTrim(content: Text)
    ensures TokensOf(TrimNul(content)) == TokensOf(content)
  {
    UpToNulPrefix(content, |TrimNul(content)|);
    assert TrimNul(content) == content[..|TrimNul(content)|];
  }

  /** ",".join(words) */
  function Join(words: seq<Text>): Text
  {
    if words == [] then []
    else if |words| == 1 then words[0]
    else words[0] + [COMMA] + Join(words[1..])
  }

  lemma {:induction false} PiecesOfWord(w: Text, rest: Text, cur: Text)
    requires COMMA !in w
    ensures Pieces(w + rest, cur) == Pieces(rest, cur + w)
    decreases w
  {
    if w == [] {
      assert w + rest == rest && cur + w == cur;
    } else {
      assert (w + rest)[1..] == w[1..] + rest;
      assert cur + [w[0]] + w[1..] == cur + w;
      PiecesOfWord(w[1..], rest, cur + [w[0]]);
    }
  }

  lemma {:induction false} PiecesOfJoin(words: seq<Text>)
    requires forall w :: w in words ==> Word(w)
    ensures Pieces(Join(words), []) == words && 0 !in Join(words)
  {
    if words == [] {
    } else if |words| == 1 {
      assert Word(words[0]);
      PiecesOfWord(words[0], [], []);
      assert words[0] + [] == words[0] == [] + words[0];
      assert words == [words[0]];
    } else {
      assert Word(words[0]);
      var rest := [COMMA] + Join(words[1..]);
      PiecesOfJoin(words[1..]);
      PiecesOfWord(words[0], rest, []);
      assert Join(words) == words[0] + rest;
      assert [] + words[0] == words[0];
      assert rest[1..] == Join(words[1..]);
      assert words == [words[0]] + words[1..];
    }
  }

  /** The enclave reads back exactly the keywords that the gateway joined and terminated with a NUL. */
  lemma TokensOfPayload(words: seq<Text>)
    requires forall w :: w in words ==> Word(w)
    ensures TokensOf(Join(words) + [0]) == words
  {
    PiecesOfJoin(words);
    UpToNulAppend(Join(words), [0]);
    assert Join(words) + [] == Join(words);
  }

  // ----- byte by byte

  /** A comma, byte 44, ends a word and leaves nothing behind. */
  lemma CommaSeparates(a: Text, b: Text)
    requires 0 !in a
    ensures TokensOf(a + [44] + b) == TokensOf(a) + TokensOf(b)
  {
    UpToNulAppend(a, [44] + b);
    UpToNulAppend(a, []);
    UpToNulAppend([44], b);
    assert a + [44] + b == a + ([44] + b) && a + [] == a;
    assert a + ([44] + UpToNul(b)) == a + [44] + UpToNul(b);
    PiecesSplit(a, UpToNul(b), []);
  }

  lemma {:induction false} PiecesSplit(a: Text, b: Text, cur: Text)
    ensures Pieces(a + [44] + b, cur) == Pieces(a, cur) + Pieces(b, [])
    decreases |a|
  {
    var s := a + [44] + b;
    if a == [] {
      assert s[1..] == b;
    } else {
      assert s[1..] == a[1..] + [44] + b;
      PiecesSplit(a[1..], b, if a[0] == COMMA then [] else cur + [a[0]]);
    }
  }

  /** Nothing behind a NUL counts. */
  lemma NulEnds(a: Text, b: Text)
    requires 0 !in a
    ensures TokensOf(a + [0] + b) == TokensOf(a)
  {
    UpToNulAppend(a, [0] + b);
    UpToNulAppend(a, []);
    assert a + [0] + b == a + ([0] + b) && a + [] == a;
  }

  /** A run of any other bytes is one word, kept byte for byte. */
  lemma RunIsWord(w: Text)
    requires 0 !in w && 44 !in w
    ensures TokensOf(w) == if w == [] then [] else [w]
  {
    UpToNulAppend(w, []);
    PiecesOfWord(w, [], []);
    assert w + [] == w && [] + w == w;
  }
}
