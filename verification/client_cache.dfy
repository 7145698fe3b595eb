/** ProxyXEndorser.getClient of service/rpc/endorser_service.go: a cache of one client per
    host with double-checked locking, under arbitrary interleaving of its callers. */
module ClientCache {

  import opened Wrappers

  type Host = string

  /** A client handle; every successful dial makes a new one. */
  type Client = nat

  /** Where a caller is. The numbers are the atomic steps of getClient in order. */
  datatype Pc =
    | Entered(host: Host)                  // before the first Load
    | Missed(host: Host)                   // first Load missed, waiting for the mutex
    | Holding(host: Host)                  // mutex taken, before the second Load
    | Dialing(host: Host)                  // second Load missed
    | Dialed(host: Host, client: Client)   // dial succeeded, before Store
    | Leaving(host: Host, result: Option<Client>)  // mutex still held, result decided
    | Returned(host: Host, result: Option<Client>) // None is an error

  /** `stores` is the history of all the Store operations. */
  datatype State = State(
    cache: map<Host, Client>,
    mutex: Option<nat>,
    callers: map<nat, Pc>,
    nextClient: Client,
    stores: seq<(Host, Client)>)

  const INITIAL: State := State(map[], None, map[], 0, [])

  datatype Action = Call(id: nat, newHost: Host) | Advance(id: nat, dialOk: bool)

  predicate HoldsMutex(pc: Pc) {
    pc.Holding? || pc.Dialing? || pc.Dialed? || pc.Leaving?
  }

  predicate Enabled(s: State, a: Action) {
    match a
    case Call(id, _) => id !in s.callers
    case Advance(id, _) =>
      id in s.callers && !s.callers[id].Returned? && (s.callers[id].Missed? ==> s.mutex == None)
  }

  function Step(s: State, a: Action): State
    requires Enabled(s, a)
  {
    match a
    case Call(id, host) =>
      s.(callers := s.callers[id := if host == "" then Returned(host, None) else Entered(host)])
    case Advance(id, dialOk) =>
      match s.callers[id]
      case Entered(host) =>
        s.(callers := s.callers[id := if host in s.cache then Returned(host, Some(s.cache[host])) else Missed(host)])
      case Missed(host) => s.(mutex := Some(id), callers := s.callers[id := Holding(host)])
      case Holding(host) =>
        s.(callers := s.callers[id := if host in s.cache then Leaving(host, Some(s.cache[host])) else Dialing(host)])
      case Dialing(host) =>
        if dialOk then s.(callers := s.callers[id := Dialed(host, s.nextClient)], nextClient := s.nextClient + 1)
        else s.(callers := s.callers[id := Leaving(host, None)])
      case Dialed(host, c) =>
        s.(cache := s.cache[host := c],
           stores := s.stores + [(host, c)],
           callers := s.callers[id := Leaving(host, Some(c))])
      case Leaving(host, result) => s.(mutex := None, callers := s.callers[id := Returned(host, result)])
  }

  ghost predicate IsRun(states: seq<State>, actions: seq<Action>) {
    && |states| == |actions| + 1
    && states[0] == INITIAL
    && forall i {:trigger actions[i]} :: 0 <= i < |actions| ==>
         Enabled(states[i], actions[i]) && states[i + 1] == Step(states[i], actions[i])
  }

  ghost predicate ResultIsCached(s: State, pc: Pc) {
    (pc.Leaving? || pc.Returned?) && pc.result.Some? ==> pc.host in s.cache && s.cache[pc.host] == pc.result.value
  }

  ghost predicate Inv(s: State) {
    // exactly the holder of the mutex is between Lock and Unlock
    && (forall id :: id in s.callers && HoldsMutex(s.callers[id]) ==> s.mutex == Some(id))
    && (s.mutex.Some? ==> s.mutex.value in s.callers && HoldsMutex(s.callers[s.mutex.value]))
    // whoever has passed the second check without a hit still finds no entry
    && (forall id :: id in s.callers && (s.callers[id].Dialing? || s.callers[id].Dialed?) ==>
          s.callers[id].host !in s.cache)
    && (forall id :: id in s.callers ==> ResultIsCached(s, s.callers[id]))
    && (forall id :: id in s.callers && s.callers[id].Dialed? ==> s.callers[id].client < s.nextClient)
    // the history of stores is the cache, one store per host
    && (forall i :: 0 <= i < |s.stores| ==> s.stores[i].0 in s.cache && s.cache[s.stores[i].0] == s.stores[i].1)
    && (forall i, j :: 0 <= i < j < |s.stores| ==> s.stores[i].0 != s.stores[j].0)
  }

  ghost predicate Extends(s: State, s': State) {
    && s.stores <= s'.stores
    && forall h :: h in s.cache ==> h in s'.cache && s'.cache[h] == s.cache[h]
  }

  /** The one step that writes the cache: the holder of the mutex knows there is no entry yet. */
  lemma StoreKeepsInv(s: State, id: nat, dialOk: bool)
    requires Inv(s) && Enabled(s, Advance(id, dialOk)) && s.callers[id].Dialed?
    ensures Inv(Step(s, Advance(id, dialOk))) && Extends(s, Step(s, Advance(id, dialOk)))
  {
    var host := s.callers[id].host;
    assert forall i :: 0 <= i < |s.stores| ==> s.stores[i].0 != host;
  }

  lemma OtherStepKeepsInv(s: State, a: Action)
    requires Inv(s) && Enabled(s, a) && !(a.Advance? && s.callers[a.id].Dialed?)
    ensures Inv(Step(s, a)) && Extends(s, Step(s, a))
  {
    assert Step(s, a).cache == s.cache && Step(s, a).stores == s.stores;
  }

  lemma StepKeepsInv(s: State, a: Action)
    requires Inv(s) && Enabled(s, a)
    ensures Inv(Step(s, a)) && Extends(s, Step(s, a))
  {
    hide Inv, Extends;
    if a.Advance? && s.callers[a.id].Dialed? {
      StoreKeepsInv(s, a.id, a.dialOk);
    } else {
      OtherStepKeepsInv(s, a);
    }
  }

  lemma {:induction false} RunKeepsInv(states: seq<State>, actions: seq<Action>, n: nat)
    requires IsRun(states, actions) && n < |states|
    ensures Inv(states[n])
  {
    if n > 0 {
      RunKeepsInv(states, actions, n - 1);
      StepKeepsInv(states[n - 1], actions[n - 1]);
    }
  }

  /** An entry never changes and never goes away once it is set. */
  lemma {:induction false} EntriesArePermanent(states: seq<State>, actions: seq<Action>, m: nat, n: nat, host: Host)
    requires IsRun(states, actions) && m <= n < |states| && host in states[m].cache
    ensures host in states[n].cache && states[n].cache[host] == states[m].cache[host]
    decreases n
  {
    if m < n {
      EntriesArePermanent(states, actions, m, n - 1, host);
      RunKeepsInv(states, actions, n - 1);
      StepKeepsInv(states[n - 1], actions[n - 1]);
    }
  }

  /** At most one client is ever stored for a host, under every interleaving. */
  lemma OneStorePerHost(states: seq<State>, actions: seq<Action>, n: nat, i: nat, j: nat)
    requires IsRun(states, actions) && n < |states|
    requires i < |states[n].stores| && j < |states[n].stores| && states[n].stores[i].0 == states[n].stores[j].0
    ensures i == j
  {
    RunKeepsInv(states, actions, n);
  }

  /** All callers that get a client for a host get the same one, however far apart they return. */
  lemma SameClientForAll(states: seq<State>, actions: seq<Action>, m: nat, n: nat, a: nat, b: nat)
    requires IsRun(states, actions) && m <= n < |states|
    requires a in states[m].callers && states[m].callers[a].Returned? && states[m].callers[a].result.Some?
    requires b in states[n].callers && states[n].callers[b].Returned? && states[n].callers[b].result.Some?
    requires states[m].callers[a].host == states[n].callers[b].host
    ensures states[m].callers[a].result == states[n].callers[b].result
  {
    RunKeepsInv(states, actions, m);
    RunKeepsInv(states, actions, n);
    EntriesArePermanent(states, actions, m, n, states[m].callers[a].host);
    assert ResultIsCached(states[m], states[m].callers[a]) && ResultIsCached(states[n], states[n].callers[b]);
  }

  /** A failed dial leaves the cache as it was, and so does the rest of that call; the mutex is
      free again afterwards, so a later caller can dial anew. */
  lemma FailedDialLeavesNoTrace(states: seq<State>, actions: seq<Action>, n: nat)
    requires IsRun(states, actions) && n < |actions|
    requires actions[n].Advance? && !actions[n].dialOk && states[n].callers[actions[n].id].Dialing?
    ensures var id := actions[n].id;
            var s' := states[n + 1];
            && s'.cache == states[n].cache && s'.stores == states[n].stores
            && Enabled(s', Advance(id, false))
            && (var done := Step(s', Advance(id, false));
                && done.cache == states[n].cache && done.mutex == None
                && done.callers[id] == Returned(states[n].callers[id].host, None))
  {
    RunKeepsInv(states, actions, n);
  }

  /** A caller never waits for a mutex that nobody will release: if the mutex is taken, its
      holder can take a step. */
  lemma HolderCanMove(states: seq<State>, actions: seq<Action>, n: nat, dialOk: bool)
    requires IsRun(states, actions) && n < |states|
    ensures states[n].mutex.Some? ==> Enabled(states[n], Advance(states[n].mutex.value, dialOk))
  {
    RunKeepsInv(states, actions, n);
  }

  // ---------- the method ----------

  /** The result of a call, and the cache it leaves behind, for the cache it finds at its last Load. */
  function Fetch(cache: map<Host, Client>, host: Host, dialed: Option<Client>): (Option<Client>, map<Host, Client>) {
    if host == "" then (None, cache)
    else if host in cache then (Some(cache[host]), cache)
    else
      match dialed
      case None => (None, cache)
      case Some(c) => (Some(c), cache[host := c])
  }

  class ProxyXEndorser {
    var clientCache: map<Host, Client>

    constructor ()
      ensures clientCache == map[]
    {
      clientCache := map[];
    }

    /** getClient as written. `others` is what other callers store while this one waits for the
        mutex (they change no entry, see EntriesArePermanent), and `dialed` what the dial gives. */
    method GetClient(host: Host, others: map<Host, Client>, dialed: Option<Client>) returns (r: Option<Client>)
      modifies this
      ensures var waited := host != "" && host !in old(clientCache);
              (r, clientCache) == Fetch(if waited then others + old(clientCache) else old(clientCache), host, dialed)
    {
      if host == "" {
        return None;
      }
      if host in clientCache {
        return Some(clientCache[host]);
      }
      clientCache := others + clientCache;
      if host in clientCache {
        return Some(clientCache[host]);
      }
      if dialed.None? {
        return None;
      }
      clientCache := clientCache[host := dialed.value];
      return dialed;
    }
  }

  /** Up to n steps of one caller, as far as it can go. */
  function Advances(s: State, id: nat, dialOk: bool, n: nat): (r: State)
    requires id in s.callers
    ensures id in r.callers
    decreases n
  {
    if n == 0 || !Enabled(s, Advance(id, dialOk)) then s else Advances(Step(s, Advance(id, dialOk)), id, dialOk, n - 1)
  }

  /** A call that need not wait is over at once: without a host it fails, and a cached client is returned by the
      first Load, whoever holds the mutex. Otherwise the caller begins to wait, and nothing has changed. */
  lemma ShortCallIsTheMethod(s: State, id: nat, host: Host, dialOk: bool)
    requires id !in s.callers
    ensures var called := Advances(Step(s, Call(id, host)), id, dialOk, 1);
            && called.callers[id] == (if host == "" || host in s.cache then Returned(host, Fetch(s.cache, host, None).0)
                                      else Missed(host))
            && called == s.(callers := s.callers[id := called.callers[id]])
  {
    var s1 := Step(s, Call(id, host));
    assert Advances(s1, id, dialOk, 1)
           == if Enabled(s1, Advance(id, dialOk)) then Advances(Step(s1, Advance(id, dialOk)), id, dialOk, 0) else s1;
    assert s.callers[id := Entered(host)][id := Missed(host)] == s.callers[id := Missed(host)];
  }

  /** The steps of a caller that has waited for the mutex are the rest of the method: from
      whatever cache it then finds, it returns the method's result and leaves the method's cache. */
  lemma StepsAreTheMethod(s: State, id: nat, host: Host, dialOk: bool)
    requires id in s.callers && s.callers[id] == Missed(host) && host != "" && s.mutex == None
    ensures var end := Advances(s, id, dialOk, 5);
            var fetched := Fetch(s.cache, host, if dialOk then Some(s.nextClient) else None);
            && (end.callers[id], end.cache) == (Returned(host, fetched.0), fetched.1)
            && end.mutex == None
            && forall other :: other in s.callers && other != id ==>
                 other in end.callers && end.callers[other] == s.callers[other]
  {
    var a := Advance(id, dialOk);
    var s1 := Step(s, a);
    var s2 := Step(s1, a);
    var s3 := Step(s2, a);
    assert Advances(s, id, dialOk, 5) == Advances(s1, id, dialOk, 4);
    assert Advances(s1, id, dialOk, 4) == Advances(s2, id, dialOk, 3) == Advances(s3, id, dialOk, 2);
  }

  // ---------- the method under interference ----------

  /** The mutex is this caller's in all the states from i to j. */
  ghost predicate HeldFrom(states: seq<State>, i: nat, j: nat, id: nat) {
    j < |states| && forall k :: i <= k <= j ==> states[k].mutex == Some(id)
  }

  /** What a caller that was waiting at m has done by n: it took the mutex at i, and found the cache of
      that moment; nobody else has written to the cache until j, where it was about to let go. */
  ghost predicate Traced(states: seq<State>, m: nat, n: nat, id: nat, host: Host, i: nat, j: nat,
                         dialed: Option<Client>)
    requires n < |states|
  {
    && id in states[n].callers
    && states[n].callers[id].host == host
    && match states[n].callers[id]
       case Entered(_) => false
       case Missed(_) => true
       case Holding(_) => m <= i <= j == n && HeldFrom(states, i, j, id) && states[n].cache == states[i].cache
       case Dialing(_) =>
         && m <= i <= j == n && HeldFrom(states, i, j, id)
         && states[n].cache == states[i].cache && host !in states[i].cache
       case Dialed(_, c) =>
         && m <= i <= j == n && HeldFrom(states, i, j, id)
         && states[n].cache == states[i].cache && host !in states[i].cache
       case Leaving(_, result) =>
         && m <= i <= j == n && HeldFrom(states, i, j, id)
         && (result, states[j].cache) == Fetch(states[i].cache, host, dialed)
       case Returned(_, result) =>
         && m <= i <= j < n && HeldFrom(states, i, j, id)
         && (result, states[j].cache) == Fetch(states[i].cache, host, dialed)
  }

  /** Other callers can neither write to the cache nor take the mutex while one holds it. */
  lemma OthersKeepOut(s: State, a: Action, id: nat)
    requires Inv(s) && Enabled(s, a) && id in s.callers && a.id != id
    ensures var s' := Step(s, a);
            && id in s'.callers && s'.callers[id] == s.callers[id]
            && (HoldsMutex(s.callers[id]) ==> s'.cache == s.cache && s'.mutex == s.mutex == Some(id))
  {
  }

  lemma {:induction false} TraceCall(states: seq<State>, actions: seq<Action>, m: nat, n: nat, id: nat, host: Host)
    returns (i: nat, j: nat, dialed: Option<Client>)
    requires IsRun(states, actions) && m <= n < |states| && host != ""
    requires id in states[m].callers && states[m].callers[id] == Missed(host)
    ensures Traced(states, m, n, id, host, i, j, dialed)
    decreases n
  {
    if n == m {
      return m, m, None;
    }
    i, j, dialed := TraceCall(states, actions, m, n - 1, id, host);
    var s, a := states[n - 1], actions[n - 1];
    RunKeepsInv(states, actions, n - 1);
    if a.id != id {
      OthersKeepOut(s, a, id);
      if HoldsMutex(s.callers[id]) {
        j := n;
      }
    } else {
      match s.callers[id] {
        case Missed(_) => i, j := n, n;
        case Holding(_) => j := n;
        case Dialing(_) =>
          j := n;
          dialed := None;
        case Dialed(_, c) =>
          j := n;
          dialed := Some(c);
        case _ =>
      }
    }
  }

  /** Under every interleaving, a call that has to wait (and so names a host) and then returns has worked
      alone: from the moment it took the mutex to the moment before it let go, all that happened
      to the cache is what the method does to it. */
  lemma CallIsTheMethod(states: seq<State>, actions: seq<Action>, m: nat, n: nat, id: nat, host: Host)
    requires IsRun(states, actions) && m <= n < |states| && host != ""
    requires id in states[m].callers && states[m].callers[id] == Missed(host)
    requires id in states[n].callers && states[n].callers[id].Returned?
    ensures exists i: nat, j: nat, dialed ::
              && m <= i <= j < n && HeldFrom(states, i, j, id)
              && (states[n].callers[id].result, states[j].cache) == Fetch(states[i].cache, host, dialed)
  {
    var i, j, dialed := TraceCall(states, actions, m, n, id, host);
  }
}
