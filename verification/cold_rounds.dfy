/** Foreseeing, before the first keyword round of an update, which rounds will start from an empty cache. */
module ColdRounds {
  import opened Bytes
  import opened Context
  import opened IndexModel

  /**
   What a completed round does to the cached and the known words: below the bound the word leaves the
   cache; at the bound it does so if the cache could hold all known words, and else the cache stays full.
   */
  predicate RoundKeys(c: ClientContext, c': ClientContext, word: Text)
  {
    && (|c.CK| < c.ckMax ==> c'.CK.Keys == c.CK.Keys - {word})
    && (|c.CK| == c.ckMax == |c.KVS| ==>
          c'.CK.Keys == c.CK.Keys - {word} && c'.KVS.Keys == c.KVS.Keys + {word})
    && (|c.CK| == c.ckMax != |c.KVS| ==> |c'.CK| == c'.ckMax && |c'.KVS| == |c.KVS|)
  }

  /** Some word is new to the index before any cached one comes up. */
  predicate EntersFirst(cached: set<Text>, known: set<Text>, words: seq<Text>)
  {
    exists j :: 0 <= j < |words| && words[j] !in known && forall k :: 0 <= k <= j ==> words[k] !in cached
  }

  /** After these words the cache is full for good: it holds less than all known words, and rounds swap. */
  predicate Steadfast(cached: set<Text>, known: set<Text>, max: int, words: seq<Text>)
  {
    |cached| >= max && (|known| != max || EntersFirst(cached, known, words))
  }

  /** After these words the cache is empty: all cached words were among them, and none was ever swapped in. */
  predicate RunsCold(cached: set<Text>, known: set<Text>, max: int, words: seq<Text>)
  {
    cached <= WordSet(words) && !Steadfast(cached, known, max, words)
  }

  /**
   What can be seen before any round: some listed word comes up with the cache empty while another
   document is filed under it.
   */
  ghost predicate LossAhead(c: ClientContext, s: Store, known: set<Text>, words: seq<Text>, bit: int)
  {
    exists j :: 0 <= j < |words| && LossAt(c, s, known, words, j, bit)
  }

  ghost predicate LossAt(c: ClientContext, s: Store, known: set<Text>, words: seq<Text>, j: nat, bit: int)
    requires j < |words|
  {
    RunsCold(c.CK.Keys, known, c.ckMax, words[..j]) && !(View(c, s, words[j]) <= {bit})
  }

  /** The cached words after these words' rounds. */
  predicate Track(c0: ClientContext, c: ClientContext, words: seq<Text>)
  {
    && c.ckMax == c0.ckMax && |c0.CK| <= c0.ckMax
    && (if Steadfast(c0.CK.Keys, c0.KVS.Keys, c0.ckMax, words) then |c.CK| == c.ckMax != |c.KVS|
        else
          && c.CK.Keys == c0.CK.Keys - WordSet(words)
          && (|c0.CK| == c0.ckMax && c.CK.Keys == c0.CK.Keys ==> c.KVS.Keys == c0.KVS.Keys))
  }

  lemma TrackStart(c: ClientContext)
    requires |c.CK| <= c.ckMax
    ensures Track(c, c, [])
  {
  }

  /** The choice is made once: whether a cached word or a new one comes up first. */
  lemma SteadfastMore(cached: set<Text>, known: set<Text>, max: int, words: seq<Text>, more: seq<Text>)
    ensures Steadfast(cached, known, max, words) ==> Steadfast(cached, known, max, words + more)
    ensures cached * WordSet(words) != {} && Steadfast(cached, known, max, words + more) ==>
      Steadfast(cached, known, max, words)
  {
    var all := words + more;
    if EntersFirst(cached, known, words) {
      var j :| 0 <= j < |words| && words[j] !in known && forall k :: 0 <= k <= j ==> words[k] !in cached;
      assert all[j] !in known && forall k :: 0 <= k <= j ==> all[k] == words[k];
    }
    if cached * WordSet(words) != {} && EntersFirst(cached, known, all) {
      var j :| 0 <= j < |all| && all[j] !in known && forall k :: 0 <= k <= j ==> all[k] !in cached;
      var w :| w in cached && w in words;
      var h :| 0 <= h < |words| && words[h] == w;
      assert all[h] == w;
      assert words[j] == all[j] && forall k :: 0 <= k <= j ==> words[k] == all[k];
    }
  }

  /** Words that are neither cached nor new decide nothing. */
  lemma SteadfastSkip(cached: set<Text>, known: set<Text>, max: int, words: seq<Text>, more: seq<Text>)
    requires cached * WordSet(words) == {} && !Steadfast(cached, known, max, words)
    ensures Steadfast(cached, known, max, words + more) <==> Steadfast(cached, known, max, more)
  {
    var all, n := words + more, |words|;
    forall k | 0 <= k < n
      ensures words[k] !in cached
    {
      assert words[k] in WordSet(words);
      assert forall w :: w in cached && w in WordSet(words) ==> w in cached * WordSet(words);
    }
    if |cached| >= max && |known| == max {
      forall k | 0 <= k < n
        ensures words[k] in known
      {
        assert words[k] !in known ==> EntersFirst(cached, known, words);
      }
      if EntersFirst(cached, known, all) {
        var j :| 0 <= j < |all| && all[j] !in known && forall k :: 0 <= k <= j ==> all[k] !in cached;
        assert j >= n && more[j - n] !in known;
        assert forall k :: 0 <= k <= j - n ==> more[k] == all[n + k];
      }
      if EntersFirst(cached, known, more) {
        var j :| 0 <= j < |more| && more[j] !in known && forall k :: 0 <= k <= j ==> more[k] !in cached;
        assert all[n + j] !in known;
        forall k | 0 <= k <= n + j
          ensures all[k] !in cached
        {
          assert k >= n ==> all[k] == more[k - n];
        }
      }
    }
  }

  lemma TrackStep(c0: ClientContext, c1: ClientContext, c2: ClientContext, words: seq<Text>, word: Text)
    requires Track(c0, c1, words) && RoundKeys(c1, c2, word) && c2.ckMax == c1.ckMax
    ensures Track(c0, c2, words + [word])
  {
    hide Track, RoundKeys, Steadfast;
    SteadfastMore(c0.CK.Keys, c0.KVS.Keys, c0.ckMax, words, [word]);
    if Steadfast(c0.CK.Keys, c0.KVS.Keys, c0.ckMax, words) {
      TrackFull(c0, c1, c2, words, word);
    } else if c0.CK.Keys * WordSet(words) == {} {
      TrackFirst(c0, c1, c2, words, word);
    } else {
      TrackLater(c0, c1, c2, words, word);
    }
  }

  lemma TrackFull(c0: ClientContext, c1: ClientContext, c2: ClientContext, words: seq<Text>, word: Text)
    requires Track(c0, c1, words) && RoundKeys(c1, c2, word) && c2.ckMax == c1.ckMax
    requires Steadfast(c0.CK.Keys, c0.KVS.Keys, c0.ckMax, words)
    requires Steadfast(c0.CK.Keys, c0.KVS.Keys, c0.ckMax, words + [word])
    ensures Track(c0, c2, words + [word])
  {
    hide Steadfast;
  }

  lemma TrackFirst(c0: ClientContext, c1: ClientContext, c2: ClientContext, words: seq<Text>, word: Text)
    requires Track(c0, c1, words) && RoundKeys(c1, c2, word) && c2.ckMax == c1.ckMax
    requires !Steadfast(c0.CK.Keys, c0.KVS.Keys, c0.ckMax, words) && c0.CK.Keys * WordSet(words) == {}
    ensures Track(c0, c2, words + [word])
  {
    var cached, known, max := c0.CK.Keys, c0.KVS.Keys, c0.ckMax;
    hide Steadfast, WordSet;
    SteadfastSkip(cached, known, max, words, [word]);
    NoneGone(c0, c1, words);
    OneWord(cached, known, max, word);
    MoreGone(cached, words, word);
    OneMore(known, word);
    OneLess(cached, word);
    assert |c1.CK.Keys| == |cached| && |c1.KVS.Keys| == |c1.KVS| && |known| == |c0.KVS|;
    assert c2.CK.Keys == cached - {word} && |c2.CK.Keys| == |c2.CK|;
    assert |c2.KVS.Keys| == |c2.KVS|;
  }

  lemma MoreGone(cached: set<Text>, words: seq<Text>, word: Text)
    ensures cached - WordSet(words + [word]) == cached - WordSet(words) - {word}
    ensures cached * WordSet(words) == {} ==> cached - WordSet(words) == cached
  {
    assert WordSet(words + [word]) == WordSet(words) + {word};
    assert cached - WordSet(words) == cached - (cached * WordSet(words));
  }

  lemma OneLess(a: set<Text>, w: Text)
    ensures w !in a ==> a - {w} == a
    ensures w in a ==> a - {w} != a
  {
  }

  lemma OneMore(known: set<Text>, word: Text)
    ensures |known + {word}| == |known| + (if word in known then 0 else 1)
    ensures word in known ==> known + {word} == known
  {
  }

  lemma TrackLater(c0: ClientContext, c1: ClientContext, c2: ClientContext, words: seq<Text>, word: Text)
    requires Track(c0, c1, words) && RoundKeys(c1, c2, word) && c2.ckMax == c1.ckMax
    requires !Steadfast(c0.CK.Keys, c0.KVS.Keys, c0.ckMax, words) && c0.CK.Keys * WordSet(words) != {}
    requires !Steadfast(c0.CK.Keys, c0.KVS.Keys, c0.ckMax, words + [word])
    ensures Track(c0, c2, words + [word])
  {
    hide Steadfast, WordSet;
    SomeGone(c0, c1, words);
    MoreGone(c0.CK.Keys, words, word);
    assert c2.CK.Keys == c1.CK.Keys - {word};
    assert c1.CK.Keys < c0.CK.Keys;
  }

  lemma OneWord(cached: set<Text>, known: set<Text>, max: int, word: Text)
    ensures Steadfast(cached, known, max, [word])
       <==> |cached| >= max && (|known| != max || (word !in known && word !in cached))
  {
    if word !in known && word !in cached {
      assert [word][0] !in known && forall k :: 0 <= k <= 0 ==> [word][k] !in cached;
    }
  }

  lemma NoneGone(c0: ClientContext, c: ClientContext, words: seq<Text>)
    requires Track(c0, c, words) && !Steadfast(c0.CK.Keys, c0.KVS.Keys, c0.ckMax, words)
    requires c0.CK.Keys * WordSet(words) == {}
    ensures c.CK.Keys == c0.CK.Keys && |c.CK| == |c0.CK|
    ensures |c0.CK| == c0.ckMax ==> c.KVS.Keys == c0.KVS.Keys && |c.KVS| == |c0.KVS| == c0.ckMax
  {
    hide EntersFirst, WordSet;
    NothingTaken(c0.CK.Keys, WordSet(words));
    assert |c.CK.Keys| == |c0.CK.Keys|;
    assert |c.KVS.Keys| == |c.KVS| && |c0.KVS.Keys| == |c0.KVS|;
  }

  lemma NothingTaken(a: set<Text>, b: set<Text>)
    ensures a * b == {} ==> a - b == a
  {
    if a * b == {} {
      forall x | x in a
        ensures x !in b
      {
        assert x in b ==> x in a * b;
      }
    }
  }

  lemma SomeGone(c0: ClientContext, c: ClientContext, words: seq<Text>)
    requires Track(c0, c, words) && !Steadfast(c0.CK.Keys, c0.KVS.Keys, c0.ckMax, words)
    requires c0.CK.Keys * WordSet(words) != {}
    ensures c.CK.Keys == c0.CK.Keys - WordSet(words) && c.CK.Keys != c0.CK.Keys && |c.CK| < c0.ckMax
  {
    var w :| w in c0.CK.Keys * WordSet(words);
    SubsetSize(c.CK.Keys + {w}, c0.CK.Keys);
    assert |c.CK.Keys + {w}| == |c.CK.Keys| + 1;
  }

  /** A round that was skipped or refused happens only once the cache is full for good. */
  lemma TrackStuck(c0: ClientContext, c: ClientContext, words: seq<Text>, more: seq<Text>)
    requires Track(c0, c, words) && |c.CK| >= c.ckMax != |c.KVS|
    ensures Steadfast(c0.CK.Keys, c0.KVS.Keys, c0.ckMax, words) && Track(c0, c, words + more)
  {
    var cached, known, max := c0.CK.Keys, c0.KVS.Keys, c0.ckMax;
    SteadfastMore(cached, known, max, words, more);
    if !Steadfast(cached, known, max, words) {
      if cached * WordSet(words) == {} {
        NoneGone(c0, c, words);
      } else {
        SomeGone(c0, c, words);
      }
    }
  }

  /** The prediction carries over from any point of the way. */
  lemma TrackCold(c0: ClientContext, c1: ClientContext, first: seq<Text>, second: seq<Text>)
    requires Track(c0, c1, first)
    ensures RunsCold(c1.CK.Keys, c1.KVS.Keys, c1.ckMax, second)
       <==> RunsCold(c0.CK.Keys, c0.KVS.Keys, c0.ckMax, first + second)
  {
    hide Steadfast, Track;
    var cached := c0.CK.Keys;
    SteadfastMore(cached, c0.KVS.Keys, c0.ckMax, first, second);
    if Steadfast(cached, c0.KVS.Keys, c0.ckMax, first) {
      TrackStays(c0, c1, first, second);
    } else {
      TrackSteadfast(c0, c1, first, second);
      TrackKeys(c0, c1, first);
      assert WordSet(first + second) == WordSet(first) + WordSet(second);
      hide WordSet;
      RestCovered(cached, WordSet(first), WordSet(second));
    }
  }

  lemma TrackKeys(c0: ClientContext, c: ClientContext, words: seq<Text>)
    requires Track(c0, c, words) && !Steadfast(c0.CK.Keys, c0.KVS.Keys, c0.ckMax, words)
    ensures c.CK.Keys == c0.CK.Keys - WordSet(words)
  {
    hide Steadfast, WordSet;
  }

  lemma RestCovered(a: set<Text>, b: set<Text>, c: set<Text>)
    ensures a - b <= c <==> a <= b + c
  {
  }

  lemma TrackStays(c0: ClientContext, c1: ClientContext, first: seq<Text>, second: seq<Text>)
    requires Track(c0, c1, first) && Steadfast(c0.CK.Keys, c0.KVS.Keys, c0.ckMax, first)
    ensures Steadfast(c1.CK.Keys, c1.KVS.Keys, c1.ckMax, second)
  {
    hide EntersFirst, WordSet;
    assert |c1.CK.Keys| == |c1.CK| && |c1.KVS.Keys| == |c1.KVS|;
  }

  lemma TrackSteadfast(c0: ClientContext, c1: ClientContext, first: seq<Text>, second: seq<Text>)
    requires Track(c0, c1, first) && !Steadfast(c0.CK.Keys, c0.KVS.Keys, c0.ckMax, first)
    ensures Steadfast(c1.CK.Keys, c1.KVS.Keys, c1.ckMax, second)
       <==> Steadfast(c0.CK.Keys, c0.KVS.Keys, c0.ckMax, first + second)
  {
    hide EntersFirst, WordSet;
    var cached, known, max := c0.CK.Keys, c0.KVS.Keys, c0.ckMax;
    assert |c1.CK.Keys| == |c1.CK| && |c0.CK.Keys| == |c0.CK|;
    if cached * WordSet(first) == {} {
      SteadfastSkip(cached, known, max, first, second);
      NoneGone(c0, c1, first);
    } else {
      SteadfastMore(cached, known, max, first, second);
      SomeGone(c0, c1, first);
    }
  }

  lemma EmptyDifference(a: set<Text>, b: set<Text>)
    ensures a - b == {} <==> a <= b
  {
    assert a <= (a - b) + b;
  }

  lemma ColdIsEmpty(c0: ClientContext, c: ClientContext, words: seq<Text>)
    requires Track(c0, c, words) && c0.ckMax >= 1
    ensures |c.CK| == 0 <==> RunsCold(c0.CK.Keys, c0.KVS.Keys, c0.ckMax, words)
  {
    var cached := c0.CK.Keys;
    if !Steadfast(cached, c0.KVS.Keys, c0.ckMax, words) {
      hide Steadfast;
      EmptyDifference(cached, WordSet(words));
      assert |c.CK.Keys| == 0 <==> c.CK.Keys == {};
    }
  }
}
