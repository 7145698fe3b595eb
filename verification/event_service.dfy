/** The per-address connection limit of service/rpc/event_service.go. */
module EventService {

  import opened Wrappers

  datatype Error = ErrDisabled | ErrPeer | ErrMaxConn

  /** What connPermit does to the counter, and whether it permits. */
  predicate Permitted(counter: map<string, int>, maxConn: int, ip: string) {
    maxConn == 0 || ip !in counter || counter[ip] < maxConn
  }

  function AfterPermit(counter: map<string, int>, maxConn: int, ip: string): map<string, int> {
    if maxConn == 0 then counter
    else if ip !in counter then counter[ip := 1]
    else if counter[ip] >= maxConn then counter
    else counter[ip := counter[ip] + 1]
  }

  /** A missing key reads as zero in Go. */
  function Count(counter: map<string, int>, ip: string): int {
    if ip in counter then counter[ip] else 0
  }

  function AfterRelease(counter: map<string, int>, maxConn: int, ip: string): map<string, int> {
    if maxConn == 0 then counter
    else if Count(counter, ip) <= 1 then counter - {ip}
    else counter[ip := Count(counter, ip) - 1]
  }

  /** The service. `peer` is None when the remote address is missing or has no port. */
  class Service {
    const enableEvent: bool
    const maxConn: int
    var connCounter: map<string, int>

    constructor (enableEvent: bool, maxConn: int)
      ensures this.enableEvent == enableEvent && this.maxConn == maxConn && connCounter == map[]
    {
      this.enableEvent, this.maxConn, connCounter := enableEvent, maxConn, map[];
    }

    method ConnPermit(peer: Option<string>) returns (r: Result<string, Error>)
      modifies this
      ensures peer.None? ==> r == Failure(ErrPeer) && connCounter == old(connCounter)
      ensures peer.Some? ==>
                && connCounter == AfterPermit(old(connCounter), maxConn, peer.value)
                && r == if Permitted(old(connCounter), maxConn, peer.value) then Success(peer.value)
                        else Failure(ErrMaxConn)
    {
      if peer.None? {
        return Failure(ErrPeer);
      }
      var remoteIP := peer.value;
      if maxConn == 0 {
        return Success(remoteIP);
      }
      if remoteIP !in connCounter {
        connCounter := connCounter[remoteIP := 1];
        return Success(remoteIP);
      }
      var cnt := connCounter[remoteIP];
      if cnt >= maxConn {
        return Failure(ErrMaxConn);
      }
      connCounter := connCounter[remoteIP := connCounter[remoteIP] + 1];
      return Success(remoteIP);
    }

    method ReleaseConn(addr: string)
      modifies this
      ensures connCounter == AfterRelease(old(connCounter), maxConn, addr)
    {
      if maxConn == 0 {
        return;
      }
      if (if addr in connCounter then connCounter[addr] else 0) <= 1 {
        connCounter := connCounter - {addr};
        return;
      }
      connCounter := connCounter[addr := connCounter[addr] - 1];
    }

    /** Subscribe up to the point where the stream is live, or refused. */
    method Open(peer: Option<string>) returns (r: Result<string, Error>)
      modifies this
      ensures !enableEvent ==> r == Failure(ErrDisabled) && connCounter == old(connCounter)
      ensures enableEvent && peer.None? ==> r == Failure(ErrPeer) && connCounter == old(connCounter)
      ensures enableEvent && peer.Some? ==>
                && connCounter == AfterPermit(old(connCounter), maxConn, peer.value)
                && r == if Permitted(old(connCounter), maxConn, peer.value) then Success(peer.value)
                        else Failure(ErrMaxConn)
    {
      if !enableEvent {
        return Failure(ErrDisabled);
      }
      r := ConnPermit(peer);
    }
  }

  // ---------- runs ----------

  /** Subscribe calls arriving and streams ending, in any order; the two sections are under one mutex. */
  datatype Event = Arrive(peer: Option<string>) | End(ip: string)

  /** The counter, and the addresses of the live streams. */
  datatype State = State(counter: map<string, int>, live: multiset<string>)

  /** Only a live stream can end. */
  predicate Enabled(s: State, e: Event) {
    e.Arrive? || s.live[e.ip] > 0
  }

  function Step(s: State, maxConn: int, e: Event): State {
    match e
    case Arrive(None) => s
    case Arrive(Some(ip)) =>
      State(AfterPermit(s.counter, maxConn, ip),
            if Permitted(s.counter, maxConn, ip) then s.live + multiset{ip} else s.live)
    case End(ip) => State(AfterRelease(s.counter, maxConn, ip), s.live - multiset{ip})
  }

  ghost predicate IsRun(maxConn: int, events: seq<Event>, states: seq<State>) {
    && |states| == |events| + 1
    && states[0] == State(map[], multiset{})
    && forall i {:trigger events[i]} :: 0 <= i < |events| ==>
         Enabled(states[i], events[i]) && states[i + 1] == Step(states[i], maxConn, events[i])
  }

  /** How many streams an address may hold. A limit below zero admits one, since the
      first stream of an address is never compared with it. */
  function Limit(maxConn: int): int {
    if maxConn < 1 then 1 else maxConn
  }

  /** With a limit, the counter is exactly the number of live streams of each address: a key is
      there if and only if there is a stream, and no address exceeds the limit. Without one
      the counter stays empty. */
  ghost predicate Exact(s: State, maxConn: int) {
    if maxConn == 0 then s.counter == map[] else forall ip :: ExactAt(s, maxConn, ip)
  }

  lemma PermitAt(counter: map<string, int>, maxConn: int, ip: string, x: string)
    requires maxConn != 0 && (x in counter <==> Count(counter, x) >= 1)
    ensures var after := AfterPermit(counter, maxConn, ip);
            && Count(after, x) == Count(counter, x) + (if x == ip && Permitted(counter, maxConn, ip) then 1 else 0)
            && (x in after <==> Count(after, x) >= 1)
    ensures Permitted(counter, maxConn, x) <==> Count(counter, x) < Limit(maxConn)
  {
  }

  lemma ReleaseAt(counter: map<string, int>, maxConn: int, ip: string, x: string)
    requires maxConn != 0 && Count(counter, ip) >= 1 && (x in counter <==> Count(counter, x) >= 1)
    ensures var after := AfterRelease(counter, maxConn, ip);
            && Count(after, x) == Count(counter, x) - (if x == ip then 1 else 0)
            && (x in after <==> Count(after, x) >= 1)
  {
  }

  ghost predicate ExactAt(s: State, maxConn: int, ip: string) {
    Count(s.counter, ip) == s.live[ip] <= Limit(maxConn) && (ip in s.counter <==> s.live[ip] >= 1)
  }

  lemma StepKeepsExact(s: State, maxConn: int, e: Event)
    requires Exact(s, maxConn) && Enabled(s, e)
    ensures Exact(Step(s, maxConn, e), maxConn)
  {
    if maxConn != 0 {
      forall x: string
        ensures ExactAt(Step(s, maxConn, e), maxConn, x)
      {
        assert ExactAt(s, maxConn, x);
        match e {
          case Arrive(None) =>
          case Arrive(Some(ip)) =>
            PermitAt(s.counter, maxConn, ip, x);
          case End(ip) =>
            assert ExactAt(s, maxConn, ip);
            ReleaseAt(s.counter, maxConn, ip, x);
        }
      }
    }
  }

  lemma {:induction false} CounterIsExact(maxConn: int, events: seq<Event>, states: seq<State>, n: nat)
    requires IsRun(maxConn, events, states) && n < |states|
    ensures Exact(states[n], maxConn)
  {
    if n > 0 {
      CounterIsExact(maxConn, events, states, n - 1);
      StepKeepsExact(states[n - 1], maxConn, events[n - 1]);
    }
  }

  /** In every reachable state a new stream is refused if and only if there is a limit and the
      address already holds that many live streams; a refusal changes nothing. */
  lemma RefusedExactlyAtLimit(maxConn: int, events: seq<Event>, states: seq<State>, n: nat, ip: string)
    requires IsRun(maxConn, events, states) && n < |states|
    ensures !Permitted(states[n].counter, maxConn, ip) <==> maxConn != 0 && states[n].live[ip] == Limit(maxConn)
    ensures !Permitted(states[n].counter, maxConn, ip) ==> Step(states[n], maxConn, Arrive(Some(ip))) == states[n]
  {
    CounterIsExact(maxConn, events, states, n);
    assert maxConn != 0 ==> ExactAt(states[n], maxConn, ip);
  }

  /** Once all streams have ended the map is empty again, whatever happened in between. */
  lemma EmptyWhenIdle(maxConn: int, events: seq<Event>, states: seq<State>, n: nat)
    requires IsRun(maxConn, events, states) && n < |states|
    ensures states[n].live == multiset{} ==> states[n].counter == map[]
  {
    CounterIsExact(maxConn, events, states, n);
    if states[n].live == multiset{} && maxConn != 0 {
      assert forall ip :: ip in states[n].counter ==> ExactAt(states[n], maxConn, ip);
    }
  }

  /** A stream that arrives and then ends leaves the counter as it was. */
  lemma ArriveThenEnd(maxConn: int, events: seq<Event>, states: seq<State>, n: nat, ip: string)
    requires IsRun(maxConn, events, states) && n < |states|
    requires Permitted(states[n].counter, maxConn, ip)
    ensures Step(Step(states[n], maxConn, Arrive(Some(ip))), maxConn, End(ip)) == states[n]
  {
    CounterIsExact(maxConn, events, states, n);
    var s := states[n];
    assert maxConn != 0 ==> ExactAt(s, maxConn, ip);
    var s' := Step(Step(s, maxConn, Arrive(Some(ip))), maxConn, End(ip));
    assert s'.live == s.live;
    assert s'.counter == s.counter;
  }
}
