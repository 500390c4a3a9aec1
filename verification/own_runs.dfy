/** What one client sees of a run of many: its own requests, run on their own. */
module OwnRuns {
  import opened Context
  import opened KeywordUpdates
  import opened Dummies
  import opened Archives
  import opened Scheduler
  import opened Session
  import opened Clients

  /** The requests that a client made. */
  function RequestsOf(calls: seq<Call>, x: int): seq<Request>
  {
    if calls == [] then []
    else
      var n := |calls| - 1;
      RequestsOf(calls[..n], x) + (if calls[n].Serve? && calls[n].client == x then [calls[n].request] else [])
  }

  function AccountOf(accounts: map<int, Account>, x: int): Account
  {
    if x in accounts then accounts[x] else NEW_ACCOUNT
  }

  /** The account after some of its client's requests, nobody else's counting. */
  ghost predicate OwnAccount(start: Account, a: Account, reqs: seq<Request>)
  {
    && a.archive == RunArchive(start.archive, reqs) && a.limit == start.limit
    && a.known == start.known + RunWords(start.archive, reqs)
    && a.room + |a.known| == start.room + |start.known|
  }

  lemma OwnRequest(start: Account, a: Account, reqs: seq<Request>, req: Request)
    requires OwnAccount(start, a, reqs)
    ensures OwnAccount(start, AccountAfter(a, req), reqs + [req])
  {
    hide ArchiveAfter, RequestWords;
    var words := RequestWords(a.archive, req);
    assert (reqs + [req])[..|reqs|] == reqs;
    SplitSize(a.known, a.known + words);
    assert a.known + words - a.known == words - a.known;
  }

  /** However calls interleave, a client's account is that of its own requests run on their own. */
  lemma {:induction false} OwnRun(accounts: map<int, Account>, calls: seq<Call>, x: int)
    requires AcceptableCalls(accounts, calls)
    ensures x in RunAccounts(accounts, calls) ==>
      OwnAccount(AccountOf(accounts, x), RunAccounts(accounts, calls)[x], RequestsOf(calls, x))
    ensures x !in RunAccounts(accounts, calls) ==> RequestsOf(calls, x) == [] && x !in accounts
  {
    hide OwnAccount, AccountAfter, Acceptable;
    var start := AccountOf(accounts, x);
    NoRequestsYet(start);
    if calls != [] {
      var n := |calls| - 1;
      AcceptableBefore(accounts, calls);
      OwnRun(accounts, calls[..n], x);
      OwnCall(start, RunAccounts(accounts, calls[..n]), RequestsOf(calls[..n], x), calls[n], x);
      if x in accounts {
        assert x in RunAccounts(accounts, calls[..n]);
      }
    }
  }

  /** One more call, of this client or another. */
  lemma OwnCall(start: Account, now: map<int, Account>, reqs: seq<Request>, call: Call, x: int)
    requires Acceptable(now, call)
    requires if x in now then OwnAccount(start, now[x], reqs) else reqs == [] && start == NEW_ACCOUNT
    ensures var reqs' := reqs + (if call.Serve? && call.client == x then [call.request] else []);
            if x in AccountsAfter(now, call) then OwnAccount(start, AccountsAfter(now, call)[x], reqs')
            else reqs' == [] && start == NEW_ACCOUNT
  {
    hide OwnAccount, AccountAfter, Acceptable;
    NoRequestsYet(start);
    assert reqs + [] == reqs;
    if call.Serve? {
      ServedIsKnown(now, call);
      if call.client == x {
        OwnRequest(start, now[x], reqs, call.request);
      }
    }
  }

  lemma NoRequestsYet(start: Account)
    ensures OwnAccount(start, start, [])
  {
  }

  lemma ServedIsKnown(accounts: map<int, Account>, call: Call)
    requires Acceptable(accounts, call) && call.Serve?
    ensures call.client in accounts
  {
    hide InBounds;
  }

  lemma AcceptableBefore(accounts: map<int, Account>, calls: seq<Call>)
    requires AcceptableCalls(accounts, calls) && calls != []
    ensures AcceptableCalls(accounts, calls[..|calls| - 1])
    ensures Acceptable(RunAccounts(accounts, calls[..|calls| - 1]), calls[|calls| - 1])
  {
    hide Acceptable, RunAccounts;
    var less := calls[..|calls| - 1];
    forall i | 0 <= i < |less|
      ensures less[..i] == calls[..i] && less[i] == calls[i]
    {
    }
  }

  /** Reply i is the one that the client would have had alone, on the plain map if its updates were clean. */
  ghost predicate AnsweredAlone(calls: seq<Call>, replies: seq<CallReply>, i: nat)
    requires i < |calls| && i < |replies|
  {
    if calls[i].Serve? then
      var own, req := RequestsOf(calls[..i], calls[i].client), calls[i].request;
      && InBounds(req)
      && replies[i] == Served(ReplyTo(RunArchive(EMPTY_ARCHIVE, own), req, 100))
      && (CleanRun(map[], own) ==> replies[i] == Served(DbReplyTo(RunDb(map[], own), req, 100)))
    else replies[i] == Acknowledged
  }

  lemma AcceptablePrefix(accounts: map<int, Account>, calls: seq<Call>, i: nat)
    requires AcceptableCalls(accounts, calls) && i <= |calls|
    ensures AcceptableCalls(accounts, calls[..i])
    ensures i < |calls| ==> Acceptable(RunAccounts(accounts, calls[..i]), calls[i])
  {
    hide Acceptable, RunAccounts;
    forall j | 0 <= j < i
      ensures calls[..i][..j] == calls[..j] && calls[..i][j] == calls[j]
    {
    }
  }

  lemma ExpectedAlone(calls: seq<Call>, replies: seq<CallReply>, i: nat)
    requires AcceptableCalls(map[], calls) && i < |calls| && i < |replies|
    requires Acceptable(RunAccounts(map[], calls[..i]), calls[i])
    requires replies[i] == ExpectedReply(RunAccounts(map[], calls[..i]), calls[i])
    ensures AnsweredAlone(calls, replies, i)
  {
    hide RunAccounts, RunArchive, RunDb, CleanRun, ReplyTo, DbReplyTo, InBounds, RequestsOf, RunWords, AcceptableCalls;
    if calls[i].Serve? {
      var x, req := calls[i].client, calls[i].request;
      var own := RequestsOf(calls[..i], x);
      AcceptablePrefix(map[], calls, i);
      OwnRun(map[], calls[..i], x);
      if CleanRun(map[], own) {
        CleanAlone(own, req);
      }
    }
  }

  lemma CleanAlone(own: seq<Request>, req: Request)
    requires InBounds(req) && CleanRun(map[], own)
    ensures ReplyTo(RunArchive(EMPTY_ARCHIVE, own), req, 100) == DbReplyTo(RunDb(map[], own), req, 100)
  {
    hide InBounds, ReplyTo, DbReplyTo, RunArchive, RunDb, CleanRun, Plain;
    EmptyIsPlain();
    PlainRun(EMPTY_ARCHIVE, map[], own);
    assert own[..|own|] == own;
    PlainRequest(RunArchive(EMPTY_ARCHIVE, own), RunDb(map[], own), req);
  }

  lemma {:induction false} RequestsPrefix(calls: seq<Call>, i: nat, x: int)
    requires i <= |calls|
    ensures RequestsOf(calls[..i], x) <= RequestsOf(calls, x)
    decreases |calls| - i
  {
    if i == |calls| {
      assert calls[..i] == calls;
    } else {
      RequestsPrefix(calls, i + 1, x);
      assert calls[..i + 1][..i] == calls[..i];
    }
  }

  /** A client whose own requests, run alone, never touch a word of another document shares none in any interleaving. */
  lemma OwnUnshared(calls: seq<Call>, x: int)
    requires AcceptableCalls(map[], calls) && UnsharedRun(EMPTY_ARCHIVE, RequestsOf(calls, x))
    ensures NothingSharedBy(map[], calls, x)
  {
    hide RunAccounts, AcceptableCalls, RunArchive, Sharing, RequestsOf;
    forall i | 0 <= i < |calls| && calls[i].client == x
      ensures !CallShares(RunAccounts(map[], calls[..i]), calls[i])
    {
      var now := RunAccounts(map[], calls[..i]);
      if calls[i].Serve? && x in now {
        AcceptablePrefix(map[], calls, i);
        OwnArchive(calls[..i], x);
        NextRequest(calls, i);
        RequestsPrefix(calls, i + 1, x);
        var own := RequestsOf(calls[..i], x);
        assert RequestsOf(calls, x)[|own|] == calls[i].request && RequestsOf(calls, x)[..|own|] == own;
      }
    }
  }

  lemma NextRequest(calls: seq<Call>, i: nat)
    requires i < |calls| && calls[i].Serve?
    ensures RequestsOf(calls[..i + 1], calls[i].client) ==
      RequestsOf(calls[..i], calls[i].client) + [calls[i].request]
  {
    assert calls[..i + 1][..i] == calls[..i];
  }

  /** A client that is refused for capacity has used more distinct keywords than placeholders ever came. */
  predicate OutOfPlaceholders(calls: seq<Call>, n: nat, c: ClientContext)
    requires n < |calls|
  {
    && calls[n].Serve? && c.clientId == calls[n].client && c.dummyCount <= 0
    && 1000 + c.replenishCounter / 20 < |RunWords(EMPTY_ARCHIVE, RequestsOf(calls[..n + 1], calls[n].client))|
  }

  lemma ShortMeans(calls: seq<Call>, n: nat, c: ClientContext)
    requires AcceptableCalls(map[], calls) && n < |calls|
    requires ShortOfRoom(RunAccounts(map[], calls[..n]), calls[n], c)
    ensures OutOfPlaceholders(calls, n, c)
  {
    hide RunAccounts, AcceptableCalls, RunArchive, RequestWords;
    var x, req := calls[n].client, calls[n].request;
    var own, a := RequestsOf(calls[..n], x), RunAccounts(map[], calls[..n])[x];
    AcceptablePrefix(map[], calls, n);
    OwnRun(map[], calls[..n], x);
    assert calls[..n + 1][..n] == calls[..n];
    assert RequestsOf(calls[..n + 1], x) == own + [req];
    assert (own + [req])[..|own|] == own;
    var words := RequestWords(a.archive, req);
    assert RunWords(EMPTY_ARCHIVE, own + [req]) == a.known + words;
    SplitSize(a.known, a.known + words);
    assert a.known + words - a.known == words - a.known;
  }

  /** An enclave that has just started, and a host that stores nothing yet. */
  const START: World := World(DefaultContext(), 0, map[], map[], map[], map[])

  lemma StartsServing(n: nat)
    ensures Settled(START, map[]) && ActiveOk(START, map[]) && AllServing(START, map[], map[], n, {})
    ensures AllCompany(START, map[]) && NextFree(map[], 1)
  {
  }

  /**
   Any interleaving of calls from the start of the enclave on. What each client gets is what it would get
   alone: every client but a refused one ends up with the archive of its own requests, covered, and exactly
   so if it is not lossy; a client that is not lossy has had exactly the replies of its own requests run on
   their own, those of a plain map while its updates are clean. Nobody becomes lossy whose own requests touch
   no word of another document. The run ends early only if a random pick misses, if the caller has used more
   distinct keywords than placeholders ever came, or if a context has outgrown its counters or its snapshot;
   no pick ever misses for lack of keywords to draw. No slot counter lags by more than one, and as long as no
   keyword is rewound no stored keyword version is ahead of its counter.
   */
  method ServeFromStart(cm: ContextManager, host: Host, calls: seq<Call>)
    returns (replies: seq<CallReply>, own: map<int, int>, ghost lossy: set<int>, ghost refused: set<int>)
    requires WorldOf(cm, host) == START && AcceptableCalls(map[], calls) && 1000 + |calls| <= DUMMY_LIMIT
    modifies cm, host
    ensures Settled(WorldOf(cm, host), own) && ActiveOk(WorldOf(cm, host), own)
    ensures |replies| <= |calls| && (|replies| == |calls| ==> refused == {})
    ensures |replies| < |calls| ==>
      && refused <= {calls[|replies|].client}
      && (|| cm.tally.misses > old(cm.tally.misses) || !Roomy(WorldOf(cm, host))
          || OutOfPlaceholders(calls, |replies|, cm.ctx))
    ensures forall x :: x in own && x !in refused ==>
      CoveredAt(WorldOf(cm, host), x, own[x], RunArchive(EMPTY_ARCHIVE, RequestsOf(calls[..|replies|], x)))
    ensures forall x :: x in own && x !in lossy + refused ==>
      ExactAt(WorldOf(cm, host), x, own[x], RunArchive(EMPTY_ARCHIVE, RequestsOf(calls[..|replies|], x)))
    ensures forall i :: 0 <= i < |replies| && calls[i].client !in lossy ==> AnsweredAlone(calls, replies, i)
    ensures forall x :: UnsharedRun(EMPTY_ARCHIVE, RequestsOf(calls, x)) ==> x !in lossy
    ensures cm.tally.barren == old(cm.tally.barren) && AllCompany(WorldOf(cm, host), own)
    ensures forall x :: x in own ==> BornAt(WorldOf(cm, host), x, own[x], cm.tally.rewinds == old(cm.tally.rewinds))
  {
    hide Settled, ActiveOk, Roomy, RunAccounts, Acceptable, ExpectedReply, ShortOfRoom, NothingSharedBy, ExactAt,
         BornAt, AllCompany, AcceptableCalls, NextFree, AllLively, PreservedAt, LivelyAt, CarriedAt, CoveredAt,
         SteadyBy, SilentBy, RunArchive, RequestsOf, AnsweredAlone, OutOfPlaceholders, OwnAccount, ServingAt,
         UnsharedRun;
    hide START;
    StartsServing(|calls|);
    replies, own, lossy, refused := ServeCalls(cm, host, map[], 1, calls, map[]);
    ghost var w, now := WorldOf(cm, host), RunAccounts(map[], calls[..|replies|]);
    if |replies| < |calls| && ShortOfRoom(now, calls[|replies|], cm.ctx) {
      ShortMeans(calls, |replies|, cm.ctx);
    }
    forall x | x in own
      ensures now[x].archive == RunArchive(EMPTY_ARCHIVE, RequestsOf(calls[..|replies|], x))
      ensures x !in refused ==> CoveredAt(w, x, own[x], now[x].archive)
    {
      AcceptablePrefix(map[], calls, |replies|);
      OwnArchive(calls[..|replies|], x);
      if x !in refused {
        ServedIsCovered(w, x, own[x], now[x], |calls| - |replies|);
      }
    }
    forall x | UnsharedRun(EMPTY_ARCHIVE, RequestsOf(calls, x))
      ensures x !in lossy
    {
      OwnUnshared(calls, x);
    }
    forall i | 0 <= i < |replies| && calls[i].client !in lossy
      ensures AnsweredAlone(calls, replies, i)
    {
      ExpectedAlone(calls, replies, i);
    }
  }

  /** Wherever the client's context is, it covers this archive. */
  ghost predicate CoveredAt(w: World, x: int, edb: int, a: Archive)
  {
    var h := Held(w, x, edb);
    h.Restored? && Covers(h.ctx, BitmapsOf(w, edb), DocsOf(w, edb), a)
  }

  lemma ServedIsCovered(w: World, x: int, edb: int, a: Account, budget: int)
    requires ServingAt(w, x, edb, a, budget)
    ensures CoveredAt(w, x, edb, a.archive)
  {
    hide Held, Covers, Covered;
  }

  lemma OwnArchive(calls: seq<Call>, x: int)
    requires AcceptableCalls(map[], calls) && x in RunAccounts(map[], calls)
    ensures RunAccounts(map[], calls)[x].archive == RunArchive(EMPTY_ARCHIVE, RequestsOf(calls, x))
  {
    hide AcceptableCalls, RunAccounts, RunArchive, RequestsOf, RunWords;
    OwnRun(map[], calls, x);
  }
}
