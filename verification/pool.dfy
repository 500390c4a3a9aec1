/** The enclave pool under any interleaving of request threads. */
module EnclavePool {
  /** Where a thread is inside acquire, the request it serves, or release. */
  datatype Pc =
    | Idle
    | Acquiring(client: int)            // waits for the pool mutex
    | Deciding(client: int)             // has it, looks the client up
    | Scanning(client: int)             // has it, tries every instance in turn
    | Spinning(client: int, e: nat)     // has it, tests the bound instance
    | Yielding(client: int, e: nat)     // has given it up for a moment
    | Retrying(client: int, e: nat)     // has it, found the bound instance free
    | Holding(client: int, e: nat)      // runs in the enclave
    | Returning(client: int, e: nat)    // waits for the mutex to release
    | Releasing(client: int, e: nat)    // has it, clears busy
    | NoneFree | TimedOut | BusyInstance  // the three ways acquire returns null

  predicate HasLock(pc: Pc)
  {
    pc.Deciding? || pc.Scanning? || pc.Spinning? || pc.Retrying? || pc.Releasing?
  }

  /** The thread has acquired instance e and not released it. */
  predicate Holds(pc: Pc, e: nat)
  {
    (pc.Holding? || pc.Returning? || pc.Releasing?) && pc.e == e
  }

  const FREE: int := -1

  datatype Pool = Pool(busy: seq<bool>, bound: map<int, nat>, available: seq<nat>, lock: int, threads: seq<Pc>)

  /** After init: every instance idle and queued, nobody bound. */
  predicate Initial(s: Pool)
  {
    && (forall e :: 0 <= e < |s.busy| ==> !s.busy[e])
    && s.bound == map[] && s.available == seq(|s.busy|, i => i) && s.lock == FREE
    && (forall t :: 0 <= t < |s.threads| ==> s.threads[t] == Idle)
  }

  /** Some thread holds e. */
  ghost predicate Held(s: Pool, e: nat)
  {
    exists t :: 0 <= t < |s.threads| && Holds(s.threads[t], e)
  }

  predicate InPool(s: Pool)
  {
    && (forall c :: c in s.bound ==> s.bound[c] < |s.busy|)
    && (forall i :: 0 <= i < |s.available| ==> s.available[i] < |s.busy|)
  }

  /** The mutex has one owner: the thread that is inside a critical section. */
  predicate Exclusive(s: Pool)
  {
    forall t :: 0 <= t < |s.threads| ==> (HasLock(s.threads[t]) <==> s.lock == t)
  }

  /** busy says exactly whether a thread holds the instance, and no two threads hold the same one. */
  ghost predicate BusyMeansHeld(s: Pool)
  {
    && (forall e :: 0 <= e < |s.busy| ==> (s.busy[e] <==> Held(s, e)))
    && (forall e :: 0 <= e < |s.busy| ==> OneHolder(s, e))
  }

  predicate OneHolder(s: Pool, e: nat)
  {
    forall t, u :: 0 <= t < u < |s.threads| ==> !(Holds(s.threads[t], e) && Holds(s.threads[u], e))
  }

  /** A thread works with the instance its client is bound to. */
  predicate PcOk(s: Pool, pc: Pc)
  {
    && (pc.Spinning? || pc.Yielding? || pc.Retrying? || pc.Holding? || pc.Returning? || pc.Releasing? ==>
          pc.client in s.bound && s.bound[pc.client] == pc.e)
    && (pc.Retrying? ==> pc.e < |s.busy| && !s.busy[pc.e])
    && (pc.Scanning? ==> s.available == [] && pc.client !in s.bound)
    && !pc.BusyInstance?
  }

  /** The queue holds each instance at most once, and only instances that nobody is bound to. */
  predicate QueueUnused(s: Pool)
  {
    && (forall i, j :: 0 <= i < j < |s.available| ==> s.available[i] != s.available[j])
    && (forall c, i :: c in s.bound && 0 <= i < |s.available| ==> s.bound[c] != s.available[i])
  }

  ghost predicate Safe(s: Pool)
  {
    && InPool(s) && Exclusive(s) && BusyMeansHeld(s) && QueueUnused(s)
    && (forall t :: 0 <= t < |s.threads| ==> PcOk(s, s.threads[t]))
  }

  lemma InitialSafe(s: Pool)
    requires Initial(s)
    ensures Safe(s)
  {
  }

  // ----- the steps

  function Goto(s: Pool, t: nat, pc: Pc): Pool
    requires t < |s.threads|
  {
    s.(threads := s.threads[t := pc])
  }

  /** try_acquire succeeds, the client is bound if it was not, and the mutex is dropped on return. */
  function Take(s: Pool, t: nat, client: int, e: nat): Pool
    requires t < |s.threads| && e < |s.busy|
  {
    s.(busy := s.busy[e := true], bound := s.bound[client := e], lock := FREE,
       threads := s.threads[t := Holding(client, e)])
  }

  predicate FirstFree(s: Pool, e: nat)
  {
    e < |s.busy| && !s.busy[e] && forall k :: 0 <= k < e ==> s.busy[k]
  }

  predicate AllBusy(s: Pool)
  {
    forall k :: 0 <= k < |s.busy| ==> s.busy[k]
  }

  /** One step of thread t: everything between two accesses to shared state. */
  ghost predicate Step(s: Pool, s': Pool, t: nat)
    requires t < |s.threads| && InPool(s)
  {
    match s.threads[t]
    case Idle => exists client :: s' == Goto(s, t, Acquiring(client))
    case Acquiring(client) => s.lock == FREE && s' == Goto(s, t, Deciding(client)).(lock := t)
    case Deciding(client) =>
      if client in s.bound then
        var e := s.bound[client];
        s' == if s.busy[e] then Goto(s, t, Spinning(client, e)) else Take(s, t, client, e)
      else if s.available != [] then
        var e, popped := s.available[0], s.(available := s.available[1..]);
        s' == if s.busy[e] then Goto(popped, t, Scanning(client)) else Take(popped, t, client, e)
      else s' == Goto(s, t, Scanning(client))
    case Scanning(client) =>
      || (AllBusy(s) && s' == Goto(s, t, NoneFree).(lock := FREE))
      || (exists e :: FirstFree(s, e) && s' == Take(s, t, client, e))
    case Spinning(client, e) =>
      e < |s.busy|
      && s' == if s.busy[e] then Goto(s, t, Yielding(client, e)).(lock := FREE) else Goto(s, t, Retrying(client, e))
    case Yielding(client, e) =>
      s.lock == FREE && (s' == Goto(s, t, Spinning(client, e)).(lock := t) || s' == Goto(s, t, TimedOut))
    case Retrying(client, e) =>
      e < |s.busy|
      && s' == if s.busy[e] then Goto(s, t, BusyInstance).(lock := FREE) else Take(s, t, client, e)
    case Holding(client, e) => s' == Goto(s, t, Returning(client, e))
    case Returning(client, e) => s.lock == FREE && s' == Goto(s, t, Releasing(client, e)).(lock := t)
    case Releasing(client, e) =>
      e < |s.busy| && s' == Goto(s, t, Idle).(busy := s.busy[e := false], lock := FREE)
    case _ => s' == Goto(s, t, Idle)
  }

  /** A step that leaves busy, bindings and queue alone keeps what is held exactly if the thread does. */
  lemma GotoKeeps(s: Pool, t: nat, pc: Pc, lock: int)
    requires Safe(s) && t < |s.threads| && PcOk(s, pc)
    requires forall e: nat :: Holds(pc, e) <==> Holds(s.threads[t], e)
    requires if HasLock(pc) then lock == t && (s.lock == FREE || s.lock == t)
             else if HasLock(s.threads[t]) then lock == FREE else lock == s.lock
    ensures Safe(Goto(s, t, pc).(lock := lock))
  {
    var s' := Goto(s, t, pc).(lock := lock);
    forall e | 0 <= e < |s.busy|
      ensures (s'.busy[e] <==> Held(s', e)) && OneHolder(s', e)
    {
      SameHolders(s, s', t, e);
    }
    hide Held, OneHolder;
  }

  lemma SameHolders(s: Pool, s': Pool, t: nat, e: nat)
    requires t < |s.threads| == |s'.threads| && s'.threads == s.threads[t := s'.threads[t]]
    requires Holds(s'.threads[t], e) <==> Holds(s.threads[t], e)
    ensures Held(s', e) <==> Held(s, e)
    ensures OneHolder(s, e) ==> OneHolder(s', e)
  {
    if Held(s, e) {
      var u :| 0 <= u < |s.threads| && Holds(s.threads[u], e);
      assert Holds(s'.threads[u], e);
    }
    if Held(s', e) {
      var u :| 0 <= u < |s'.threads| && Holds(s'.threads[u], e);
      assert Holds(s.threads[u], e);
    }
  }

  /** Taking a free instance that is the client's own, or nobody's and no longer queued. */
  lemma TakeSafe(s: Pool, t: nat, client: int, e: nat)
    requires Safe(s) && t < |s.threads| && e < |s.busy| && !s.busy[e]
    requires HasLock(s.threads[t]) && !Holds(s.threads[t], e) && !s.threads[t].Releasing?
    requires if client in s.bound then s.bound[client] == e else e !in s.available
    ensures Safe(Take(s, t, client, e))
  {
    var s' := Take(s, t, client, e);
    assert !Held(s, e);
    forall k | 0 <= k < |s.busy|
      ensures (s'.busy[k] <==> Held(s', k)) && OneHolder(s', k)
    {
      assert OneHolder(s, k);
      if k == e {
        assert Holds(s'.threads[t], e);
        assert forall u :: 0 <= u < |s.threads| ==> !Holds(s.threads[u], e);
      } else {
        SameHolders(s, s', t, k);
      }
    }
    hide Held, OneHolder;
    forall u | 0 <= u < |s.threads|
      ensures PcOk(s', s'.threads[u])
    {
      assert PcOk(s, s.threads[u]);
      assert u != t ==> !HasLock(s.threads[u]);
    }
    assert client in s.bound ==> s'.bound == s.bound;
  }

  /** Clearing busy when its only holder lets go. */
  lemma ReleaseSafe(s: Pool, t: nat)
    requires Safe(s) && t < |s.threads| && s.threads[t].Releasing?
    ensures s.threads[t].e < |s.busy|
    ensures Safe(Goto(s, t, Idle).(busy := s.busy[s.threads[t].e := false], lock := FREE))
  {
    assert PcOk(s, s.threads[t]);
    var e := s.threads[t].e;
    var s' := Goto(s, t, Idle).(busy := s.busy[e := false], lock := FREE);
    assert OneHolder(s, e) && Holds(s.threads[t], e);
    forall k | 0 <= k < |s.busy|
      ensures (s'.busy[k] <==> Held(s', k)) && OneHolder(s', k)
    {
      if k == e {
        forall u | 0 <= u < |s.threads|
          ensures !Holds(s'.threads[u], e)
        {
        }
      } else {
        assert OneHolder(s, k);
        SameHolders(s, s', t, k);
      }
    }
    hide Held, OneHolder;
  }

  /** A busy instance is bound to some client. */
  lemma HeldIsBound(s: Pool, e: nat)
    requires Safe(s) && e < |s.busy|
    ensures s.busy[e] ==> exists c :: c in s.bound && s.bound[c] == e
  {
    if s.busy[e] {
      var t :| 0 <= t < |s.threads| && Holds(s.threads[t], e);
      assert PcOk(s, s.threads[t]);
      var c := s.threads[t].client;
      assert c in s.bound && s.bound[c] == e;
    }
  }

  /** The front of the queue is never busy: whoever pops it can take it. */
  lemma PopSafe(s: Pool)
    requires Safe(s) && s.available != []
    ensures var e, s' := s.available[0], s.(available := s.available[1..]);
            Safe(s') && e < |s.busy| && !s.busy[e] && e !in s'.available && forall c :: c in s.bound ==> s.bound[c] != e
  {
    var e, s' := s.available[0], s.(available := s.available[1..]);
    forall k | 0 <= k < |s.busy|
      ensures (Held(s', k) <==> Held(s, k)) && (OneHolder(s, k) ==> OneHolder(s', k))
    {
    }
    HeldIsBound(s, e);
    hide Held, OneHolder;
    forall i | 0 <= i < |s'.available|
      ensures s'.available[i] == s.available[i + 1]
    {
    }
  }

  lemma DecideSafe(s: Pool, s': Pool, t: nat, client: int)
    requires Safe(s) && t < |s.threads| && s.threads[t] == Deciding(client) && Step(s, s', t)
    ensures Safe(s')
  {
    hide Safe;
    Facts(s, t);
    if client in s.bound {
      var e := s.bound[client];
      if s.busy[e] {
        GotoKeeps(s, t, Spinning(client, e), t);
      } else {
        TakeSafe(s, t, client, e);
      }
    } else if s.available != [] {
      PopSafe(s);
      TakeSafe(s.(available := s.available[1..]), t, client, s.available[0]);
    } else {
      GotoKeeps(s, t, Scanning(client), t);
    }
  }

  lemma Facts(s: Pool, t: nat)
    requires Safe(s) && t < |s.threads|
    ensures PcOk(s, s.threads[t]) && (HasLock(s.threads[t]) <==> s.lock == t)
    ensures forall c :: c in s.bound ==> s.bound[c] < |s.busy|
  {
    hide BusyMeansHeld, PcOk;
  }

  lemma ScanSafe(s: Pool, s': Pool, t: nat, client: int)
    requires Safe(s) && t < |s.threads| && s.threads[t] == Scanning(client) && Step(s, s', t)
    ensures Safe(s')
  {
    hide Safe;
    Facts(s, t);
    GotoKeeps(s, t, NoneFree, FREE);
    if !(AllBusy(s) && s' == Goto(s, t, NoneFree).(lock := FREE)) {
      var e :| FirstFree(s, e) && s' == Take(s, t, client, e);
      TakeSafe(s, t, client, e);
    }
  }

  /** Whatever thread moves, a safe pool stays safe. */
  lemma StepSafe(s: Pool, s': Pool, t: nat)
    requires Safe(s) && t < |s.threads| && Step(s, s', t)
    ensures Safe(s')
  {
    hide Safe;
    Facts(s, t);
    match s.threads[t]
    case Idle =>
      var client :| s' == Goto(s, t, Acquiring(client));
      GotoKeeps(s, t, Acquiring(client), s.lock);
    case Acquiring(client) => GotoKeeps(s, t, Deciding(client), t);
    case Deciding(client) => DecideSafe(s, s', t, client);
    case Scanning(client) => ScanSafe(s, s', t, client);
    case Spinning(client, e) =>
      if s.busy[e] {
        GotoKeeps(s, t, Yielding(client, e), FREE);
      } else {
        GotoKeeps(s, t, Retrying(client, e), t);
      }
    case Yielding(client, e) =>
      GotoKeeps(s, t, Spinning(client, e), t);
      GotoKeeps(s, t, TimedOut, s.lock);
    case Retrying(client, e) => TakeSafe(s, t, client, e);
    case Holding(client, e) => GotoKeeps(s, t, Returning(client, e), s.lock);
    case Returning(client, e) => GotoKeeps(s, t, Releasing(client, e), t);
    case Releasing(client, e) => ReleaseSafe(s, t);
    case _ => GotoKeeps(s, t, Idle, s.lock);
  }

  /** No step changes a binding, the number of instances or the number of threads. */
  lemma StepKeepsBindings(s: Pool, s': Pool, t: nat)
    requires Safe(s) && t < |s.threads| && Step(s, s', t)
    ensures forall c :: c in s.bound ==> c in s'.bound && s'.bound[c] == s.bound[c]
    ensures |s'.busy| == |s.busy| && |s'.threads| == |s.threads|
  {
    Facts(s, t);
    hide Safe;
  }

  // ----- whole runs

  /** An interleaving: from the initial state, thread who[i] makes step i. */
  ghost predicate Run(states: seq<Pool>, who: seq<nat>)
  {
    && |states| == |who| + 1 && Initial(states[0])
    && forall i :: 0 <= i < |who| ==>
         who[i] < |states[i].threads| && InPool(states[i]) && Step(states[i], states[i + 1], who[i])
  }

  lemma RunStep(states: seq<Pool>, who: seq<nat>, i: nat)
    requires Run(states, who) && i < |who|
    ensures who[i] < |states[i].threads| && InPool(states[i]) && Step(states[i], states[i + 1], who[i])
  {
    hide Step, InPool;
  }

  lemma {:induction false} RunSafe(states: seq<Pool>, who: seq<nat>, i: nat)
    requires Run(states, who) && i < |states|
    ensures Safe(states[i])
    decreases i
  {
    hide Step, InPool, Safe;
    if i == 0 {
      InitialSafe(states[0]);
    } else {
      RunSafe(states, who, i - 1);
      RunStep(states, who, i - 1);
      StepSafe(states[i - 1], states[i], who[i - 1]);
    }
  }

  lemma {:induction false} RunKeepsBindings(states: seq<Pool>, who: seq<nat>, i: nat, j: nat)
    requires Run(states, who) && i <= j < |states|
    ensures forall c :: c in states[i].bound ==> c in states[j].bound && states[j].bound[c] == states[i].bound[c]
    decreases j
  {
    hide Step, InPool, Safe, Initial;
    if i < j {
      RunKeepsBindings(states, who, i, j - 1);
      RunSafe(states, who, j - 1);
      RunStep(states, who, j - 1);
      StepKeepsBindings(states[j - 1], states[j], who[j - 1]);
    }
  }

  /**
   In every state of every interleaving: no instance is held by two threads, no client runs twice, a
   client runs where it was first bound, the mutex has at most one owner, and nobody has failed with
   the bound instance busy after the wait.
   */
  lemma PoolSafety(states: seq<Pool>, who: seq<nat>, i: nat, j: nat)
    requires Run(states, who) && i <= j < |states|
    ensures var s := states[j];
      forall t, u :: 0 <= t < u < |s.threads| && s.threads[t].Holding? && s.threads[u].Holding? ==>
        s.threads[t].e != s.threads[u].e && s.threads[t].client != s.threads[u].client
    ensures var s := states[j];
      forall t, u :: 0 <= t < u < |s.threads| ==> !(HasLock(s.threads[t]) && HasLock(s.threads[u]))
    ensures forall t :: 0 <= t < |states[j].threads| ==> !states[j].threads[t].BusyInstance?
    ensures var s := states[j];
      forall t :: 0 <= t < |s.threads| && s.threads[t].Holding? && s.threads[t].client in states[i].bound ==>
        s.threads[t].e == states[i].bound[s.threads[t].client]
  {
    RunSafe(states, who, j);
    RunKeepsBindings(states, who, i, j);
    var s := states[j];
    forall t | 0 <= t < |s.threads|
      ensures PcOk(s, s.threads[t]) && (s.threads[t].Holding? ==> s.threads[t].e < |s.busy|)
    {
      Facts(s, t);
    }
    assert forall t, u :: 0 <= t < u < |s.threads| && s.threads[t].Holding? && s.threads[u].Holding? ==>
      s.threads[t].e != s.threads[u].e by {
      forall t, u | 0 <= t < u < |s.threads| && s.threads[t].Holding? && s.threads[u].Holding?
        ensures s.threads[t].e != s.threads[u].e
      {
        assert OneHolder(s, s.threads[t].e);
      }
    }
  }
}
