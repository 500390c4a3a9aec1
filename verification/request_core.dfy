/** Server::handle_request_core: which ecalls run, what is registered, and that the enclave is given back. */
module RequestCore {
  datatype CoreRequest =
    | Init(client: int, resume: bool, target: int)
    | Shutdown(client: int)
    | Serve(client: int)

  /** What the disk and the enclave answer while the request runs. */
  datatype Answers = Answers(onDisk: bool, opens: bool, scheduled: bool, keyed: bool, initialized: bool,
                             persisted: bool, handled: bool)

  /** The calls made on behalf of a request, in order: to the database manager and into the enclave. */
  datatype Call =
    | RegisterEdb(edb: int)
    | OpenEdb(edb: int)
    | Schedule(client: int, edb: int, createIfMissing: bool)
    | GenerateKey
    | UpdateInit(edb: int)
    | PersistContext(edb: int)
    | PersistEdb(edb: int)
    | HandleRequest(edb: int)

  predicate Granted(call: Call, a: Answers)
  {
    match call
    case RegisterEdb(_) => true
    case OpenEdb(_) => a.opens
    case Schedule(_, _, _) => a.scheduled
    case GenerateKey => a.keyed
    case UpdateInit(_) => a.initialized
    case PersistContext(_) => a.persisted
    case PersistEdb(_) => true
    case HandleRequest(_) => a.handled
  }

  /** The calls were made one after the other up to the first that was refused; ok if all were made and granted. */
  predicate Ran(made: seq<Call>, script: seq<Call>, a: Answers, ok: bool)
  {
    && made <= script
    && (forall i :: 0 <= i < |made| - 1 ==> Granted(made[i], a))
    && (if ok then made == script && (forall i :: 0 <= i < |made| ==> Granted(made[i], a))
        else made != [] && !Granted(made[|made| - 1], a))
  }

  /** It succeeds exactly if every call of the script would be granted. */
  lemma RanOk(made: seq<Call>, script: seq<Call>, a: Answers, ok: bool)
    requires Ran(made, script, a, ok)
    ensures ok <==> forall i :: 0 <= i < |script| ==> Granted(script[i], a)
  {
    if !ok {
      assert script[|made| - 1] == made[|made| - 1];
    }
  }

  lemma Refused(made: seq<Call>, script: seq<Call>, a: Answers)
    requires made != [] && made <= script && !Granted(made[|made| - 1], a)
    requires forall i :: 0 <= i < |made| - 1 ==> Granted(made[i], a)
    ensures Ran(made, script, a, false)
  {
  }

  lemma ResumeRan(client: int, edb: int, made: seq<Call>, a: Answers, ok: bool)
    requires Ran(made, [Schedule(client, edb, false)], a, ok) && a.opens
    ensures Ran([OpenEdb(edb)] + made, [OpenEdb(edb), Schedule(client, edb, false)], a, ok)
  {
    GrantedFirst(OpenEdb(edb), made, [Schedule(client, edb, false)], a, ok);
    assert [OpenEdb(edb)] + [Schedule(client, edb, false)] == [OpenEdb(edb), Schedule(client, edb, false)];
  }

  lemma FirstRan(client: int, edb: int, made: seq<Call>, a: Answers, ok: bool)
    requires Ran(made, [Schedule(client, edb, true), GenerateKey, UpdateInit(edb)], a, ok)
    ensures Ran([RegisterEdb(edb)] + made,
                [RegisterEdb(edb), Schedule(client, edb, true), GenerateKey, UpdateInit(edb)], a, ok)
  {
    GrantedFirst(RegisterEdb(edb), made, [Schedule(client, edb, true), GenerateKey, UpdateInit(edb)], a, ok);
    assert [RegisterEdb(edb)] + [Schedule(client, edb, true), GenerateKey, UpdateInit(edb)]
        == [RegisterEdb(edb), Schedule(client, edb, true), GenerateKey, UpdateInit(edb)];
  }

  lemma GrantedFirst(first: Call, made: seq<Call>, script: seq<Call>, a: Answers, ok: bool)
    requires Ran(made, script, a, ok) && Granted(first, a) && script != []
    ensures Ran([first] + made, [first] + script, a, ok)
  {
  }

  class Server {
    var busy: seq<bool>
    var bound: map<int, nat>
    var available: seq<nat>
    var edbIdMap: map<int, int>
    var nextEdb: int
    ghost var calls: seq<Call>

    predicate Valid()
      reads this
    {
      && (forall c :: c in bound ==> bound[c] < |busy|)
      && (forall i :: 0 <= i < |available| ==> available[i] < |busy|)
    }

    /**
     EnclavePool::acquire, while no other thread is inside the pool. A bound client gets its own instance or
     none; another one gets the front of the queue, which leaves the queue, if that is idle, and else the
     first idle instance. There is none only if all are busy.
     */
    method Acquire(client: int) returns (e: int)
      requires Valid()
      modifies this`busy, this`bound, this`available
      ensures Valid() && -1 <= e < |busy| == |old(busy)|
      ensures if e >= 0 then !old(busy)[e] && busy == old(busy)[e := true] && bound == old(bound)[client := e]
              else busy == old(busy) && bound == old(bound)
      ensures client in old(bound) ==>
        available == old(available) && (e == old(bound)[client] || (e == -1 && old(busy)[old(bound)[client]]))
      ensures client !in old(bound) ==>
        && available == (if old(available) == [] then [] else old(available)[1..])
        && (if old(available) != [] && !old(busy)[old(available)[0]] then e == old(available)[0]
            else forall i :: 0 <= i < (if e >= 0 then e else |old(busy)|) ==> old(busy)[i])
    {
      if client in bound {
        e := bound[client];
        if busy[e] {
          return -1;
        }
        assert bound == bound[client := e];
        busy := busy[e := true];
        return;
      }
      if available != [] {
        e, available := available[0], available[1..];
        if !busy[e] {
          busy, bound := busy[e := true], bound[client := e];
          return;
        }
      }
      e := 0;
      while e < |busy|
        invariant 0 <= e <= |busy| && forall i :: 0 <= i < e ==> busy[i]
      {
        if !busy[e] {
          busy, bound := busy[e := true], bound[client := e];
          return;
        }
        e := e + 1;
      }
      e := -1;
    }

    /** EnclavePool::release */
    method Release(e: nat)
      requires Valid() && e < |busy|
      modifies this`busy
      ensures Valid() && busy == old(busy)[e := false]
    {
      busy := busy[e := false];
    }

    /** flush_client_edb */
    method FlushClientEdb(client: int, a: Answers) returns (ok: bool, ghost made: seq<Call>)
      modifies this`calls
      ensures calls == old(calls) + made
      ensures if client !in edbIdMap then !ok && made == []
              else
                var edb := edbIdMap[client];
                Ran(made, [Schedule(client, edb, false), PersistContext(edb), PersistEdb(edb)], a, ok)
    {
      made := [];
      if client !in edbIdMap {
        return false, made;
      }
      var edb := edbIdMap[client];
      made := made + [Schedule(client, edb, false)];
      calls := calls + [Schedule(client, edb, false)];
      if !a.scheduled {
        return false, made;
      }
      made := made + [PersistContext(edb)];
      calls := calls + [PersistContext(edb)];
      if !a.persisted {
        return false, made;
      }
      made := made + [PersistEdb(edb)];
      calls := calls + [PersistEdb(edb)];
      ok := true;
    }

    /**
     handle_request_core. Whatever path it takes, the instance it acquired is free again when it
     returns, and no other instance is touched. What it does besides is spelled out request by request.
     */
    method HandleRequestCore(req: CoreRequest, a: Answers) returns (ok: bool, ghost e: int, ghost made: seq<Call>)
      requires Valid()
      modifies this
      ensures Valid() && busy == old(busy) && calls == old(calls) + made
      // Without an instance nothing happens.
      ensures e < 0 ==> !ok && made == [] && bound == old(bound) && edbIdMap == old(edbIdMap) && nextEdb == old(nextEdb)
      ensures e >= 0 ==> e < |busy| && !old(busy)[e] && bound == old(bound)[req.client := e]
      ensures e < 0 && req.client in old(bound) ==> old(busy)[old(bound)[req.client]]
      ensures e < 0 && req.client !in old(bound) ==> forall i :: 0 <= i < |busy| ==> old(busy)[i]
      // SHUTDOWN schedules the client's own database, never creating it, seals its context and saves its stores.
      ensures e >= 0 && req.Shutdown? && req.client in old(edbIdMap) ==>
        var edb := old(edbIdMap)[req.client];
        Ran(made, [Schedule(req.client, edb, false), PersistContext(edb), PersistEdb(edb)], a, ok)
      // SELECT and UPDATE.
      ensures e >= 0 && req.Serve? && req.client in old(edbIdMap) ==>
        var edb := old(edbIdMap)[req.client];
        Ran(made, [Schedule(req.client, edb, false), HandleRequest(edb)], a, ok)
      ensures e >= 0 && !req.Init? && req.client !in old(edbIdMap) ==> !ok && made == []
      ensures e >= 0 && !req.Init? ==> edbIdMap == old(edbIdMap) && nextEdb == old(nextEdb)
      // A first INIT takes the next number, creates the context, makes a key and fills the database.
      ensures e >= 0 && req.Init? && !req.resume && req.client !in old(edbIdMap) ==>
        var edb := old(nextEdb);
        && Ran(made, [RegisterEdb(edb), Schedule(req.client, edb, true), GenerateKey, UpdateInit(edb)], a, ok)
        && edbIdMap == old(edbIdMap)[req.client := edb] && nextEdb == edb + 1
      // Another INIT only schedules.
      ensures e >= 0 && req.Init? && !req.resume && req.client in old(edbIdMap) ==>
        && Ran(made, [Schedule(req.client, old(edbIdMap)[req.client], false)], a, ok)
        && edbIdMap == old(edbIdMap) && nextEdb == old(nextEdb)
      // RESUME opens the database it names and schedules it, without creating anything.
      ensures e >= 0 && req.Init? && req.resume ==>
        && nextEdb == old(nextEdb)
        && (if req.target == 0 || !a.onDisk then !ok && made == []
            else Ran(made, [OpenEdb(req.target), Schedule(req.client, req.target, false)], a, ok))
        && edbIdMap == if req.target == 0 || !a.onDisk || !a.opens then old(edbIdMap)
                       else old(edbIdMap)[req.client := req.target]
    {
      made := [];
      var enclave := Acquire(req.client);
      e := enclave;
      if enclave < 0 {
        return false, e, made;
      }
      assert busy[enclave := false] == old(busy);
      match req {
        case Init(client, resume, target) =>
          ok, made := HandleInit(enclave, client, resume, target, a);
        case Shutdown(client) =>
          ok, made := FlushClientEdb(client, a);
          Release(enclave);
        case Serve(client) =>
          ok, made := HandleServe(enclave, client, a);
      }
    }

    /** The INIT branch. */
    method HandleInit(enclave: nat, client: int, resume: bool, target: int, a: Answers)
      returns (ok: bool, ghost made: seq<Call>)
      requires Valid() && enclave < |busy|
      modifies this`busy, this`edbIdMap, this`nextEdb, this`calls
      ensures Valid() && busy == old(busy)[enclave := false] && calls == old(calls) + made
      ensures !resume && client !in old(edbIdMap) ==>
        var edb := old(nextEdb);
        && Ran(made, [RegisterEdb(edb), Schedule(client, edb, true), GenerateKey, UpdateInit(edb)], a, ok)
        && edbIdMap == old(edbIdMap)[client := edb] && nextEdb == edb + 1
      ensures !resume && client in old(edbIdMap) ==>
        && Ran(made, [Schedule(client, old(edbIdMap)[client], false)], a, ok)
        && edbIdMap == old(edbIdMap) && nextEdb == old(nextEdb)
      ensures resume ==>
        && nextEdb == old(nextEdb)
        && (if target == 0 || !a.onDisk then !ok && made == []
            else Ran(made, [OpenEdb(target), Schedule(client, target, false)], a, ok))
        && edbIdMap == if target == 0 || !a.onDisk || !a.opens then old(edbIdMap) else old(edbIdMap)[client := target]
    {
      hide Ran;
      var isNewClient := client !in edbIdMap;
      var edb := 0;
      ghost var before: seq<Call> := [];
      made := [];
      if resume {
        if target == 0 {
          Release(enclave);
          return false, made;
        }
        if !a.onDisk {
          Release(enclave);
          return false, made;
        }
        edb := target;
        before := [OpenEdb(edb)];
        calls := calls + [OpenEdb(edb)];
        if !a.opens {
          Refused(before, [OpenEdb(target), Schedule(client, target, false)], a);
          Release(enclave);
          return false, before;
        }
        edbIdMap := edbIdMap[client := edb];
      } else if isNewClient {
        edb, nextEdb := nextEdb, nextEdb + 1;
        before := [RegisterEdb(edb)];
        calls := calls + [RegisterEdb(edb)];
        edbIdMap := edbIdMap[client := edb];
      } else {
        edb := edbIdMap[client];
      }
      ok, made := StartContext(client, edb, !resume && isNewClient, a);
      Release(enclave);
      if resume {
        ResumeRan(client, edb, made, a, ok);
      } else if isNewClient {
        FirstRan(client, edb, made, a, ok);
      }
      made := if before == [] then made else before + made;
    }

    /** The ecalls of INIT: schedule the context and, for a new client, create it, make a key and fill the database. */
    method StartContext(client: int, edb: int, isNewClient: bool, a: Answers) returns (ok: bool, ghost made: seq<Call>)
      modifies this`calls
      ensures calls == old(calls) + made
      ensures isNewClient ==> Ran(made, [Schedule(client, edb, true), GenerateKey, UpdateInit(edb)], a, ok)
      ensures !isNewClient ==> Ran(made, [Schedule(client, edb, false)], a, ok)
    {
      made := [Schedule(client, edb, isNewClient)];
      calls := calls + [Schedule(client, edb, isNewClient)];
      if !a.scheduled {
        return false, made;
      }
      if isNewClient {
        made := made + [GenerateKey];
        calls := calls + [GenerateKey];
        if !a.keyed {
          return false, made;
        }
        made := made + [UpdateInit(edb)];
        calls := calls + [UpdateInit(edb)];
        if !a.initialized {
          return false, made;
        }
      }
      ok := true;
    }

    /** SELECT and UPDATE. */
    method HandleServe(enclave: nat, client: int, a: Answers) returns (ok: bool, ghost made: seq<Call>)
      requires Valid() && enclave < |busy|
      modifies this`busy, this`calls
      ensures Valid() && busy == old(busy)[enclave := false] && calls == old(calls) + made
      ensures if client !in edbIdMap then !ok && made == []
              else Ran(made, [Schedule(client, edbIdMap[client], false), HandleRequest(edbIdMap[client])], a, ok)
    {
      made := [];
      if client !in edbIdMap {
        Release(enclave);
        return false, made;
      }
      var edb := edbIdMap[client];
      made := made + [Schedule(client, edb, false)];
      calls := calls + [Schedule(client, edb, false)];
      if !a.scheduled {
        Release(enclave);
        return false, made;
      }
      made := made + [HandleRequest(edb)];
      calls := calls + [HandleRequest(edb)];
      if !a.handled {
        Release(enclave);
        return false, made;
      }
      Release(enclave);
      ok := true;
    }

    /** Registered numbers are below the next one. */
    predicate Numbered()
      reads this
    {
      forall c :: c in edbIdMap ==> edbIdMap[c] < nextEdb
    }

    /** No two clients are given the same database: a first INIT takes a number that nobody has. */
    method FirstInit(client: int, a: Answers) returns (ok: bool)
      requires Valid() && Numbered() && client !in edbIdMap
      modifies this
      ensures Valid() && Numbered()
      ensures client in edbIdMap ==>
        forall c :: c in old(edbIdMap) ==> c in edbIdMap && edbIdMap[c] == old(edbIdMap)[c] != edbIdMap[client]
      ensures ok ==> client in edbIdMap
    {
      ghost var e, made;
      ok, e, made := HandleRequestCore(Init(client, false, 0), a);
    }

    /**
     A first INIT that fails in the enclave is not repeated by a second one: the client is registered, so
     the second INIT only schedules it. It succeeds exactly if that does, without a key and without
     placeholders, and from then on requests are handed to the enclave.
     */
    method FailedInitIsNotRetried(client: int, a: Answers, again: Answers, later: Answers)
      returns (first: bool, second: bool, third: bool, ghost made: seq<Call>, ghost made2: seq<Call>,
               ghost made3: seq<Call>)
      requires Valid() && client !in edbIdMap && client !in bound && exists i :: 0 <= i < |busy| && !busy[i]
      modifies this
      ensures first <==> a.scheduled && a.keyed && a.initialized
      ensures calls == old(calls) + made + made2 + made3
      ensures !first ==>
        var edb := old(nextEdb);
        && [RegisterEdb(edb), Schedule(client, edb, true)] <= made
        && made2 == [Schedule(client, edb, false)] && (second <==> again.scheduled)
        && [Schedule(client, edb, false)] <= made3 <= [Schedule(client, edb, false), HandleRequest(edb)]
        && (|made3| == 2 <==> later.scheduled) && (third <==> later.scheduled && later.handled)
    {
      hide Ran;
      ghost var e;
      var edb := nextEdb;
      second, third, made2, made3 := false, false, [], [];
      first, e, made := HandleRequestCore(Init(client, false, 0), a);
      FirstScript(client, edb, made, a, first);
      if first {
        return;
      }
      second, e, made2 := HandleRequestCore(Init(client, false, 0), again);
      LaterScripts(client, edb, made2, again, second);
      third, e, made3 := HandleRequestCore(Serve(client), later);
      LaterScripts(client, edb, made3, later, third);
    }
  }

  lemma FirstScript(client: int, edb: int, made: seq<Call>, a: Answers, ok: bool)
    requires Ran(made, [RegisterEdb(edb), Schedule(client, edb, true), GenerateKey, UpdateInit(edb)], a, ok)
    ensures ok <==> a.scheduled && a.keyed && a.initialized
    ensures [RegisterEdb(edb), Schedule(client, edb, true)] <= made
  {
    if |made| == 1 {
      assert Granted(made[0], a);
    }
    RanOk(made, [RegisterEdb(edb), Schedule(client, edb, true), GenerateKey, UpdateInit(edb)], a, ok);
    var script := [RegisterEdb(edb), Schedule(client, edb, true), GenerateKey, UpdateInit(edb)];
    assert Granted(script[1], a) == a.scheduled && Granted(script[2], a) == a.keyed;
    assert Granted(script[3], a) == a.initialized;
  }

  lemma LaterScripts(client: int, edb: int, made: seq<Call>, a: Answers, ok: bool)
    ensures Ran(made, [Schedule(client, edb, false)], a, ok) ==>
      made == [Schedule(client, edb, false)] && (ok <==> a.scheduled)
    ensures Ran(made, [Schedule(client, edb, false), HandleRequest(edb)], a, ok) ==>
      && [Schedule(client, edb, false)] <= made <= [Schedule(client, edb, false), HandleRequest(edb)]
      && (|made| == 2 <==> a.scheduled) && (ok <==> a.scheduled && a.handled)
  {
    var once, twice := [Schedule(client, edb, false)], [Schedule(client, edb, false), HandleRequest(edb)];
    assert Granted(once[0], a) == a.scheduled;
    assert Granted(twice[0], a) == a.scheduled && Granted(twice[1], a) == a.handled;
  }
}
