/** Startup and exit of the node (cmd/xchain/cmd/startup.go) with the service manager's
    fan-in (service/manage.go), as atomic steps of their goroutines. All channels are
    unbuffered, so a receive is one step of sender and receiver together. */
module Startup {

  /** A goroutine that runs something and then sends once on a channel. */
  datatype Sender = Running | Sending | Sent

  /** What has an Exit method: the engine, and the service manager for its servers. */
  datatype Part = Engine | Servers

  datatype State = State(
    engine: Sender,          // the goroutine of runEngine
    servers: seq<Sender>,    // the goroutines of ServMG.Run, one per server
    exitCnt: nat,            // ServMG.Run's loop counter
    manager: Sender,         // the goroutine of runServ; Running while ServMG.Run runs
    chClosed: bool,          // ServMG.Run's channel
    pending: set<Part>,      // the Exit calls that the select goroutine is inside of
    told: set<Part>,         // whose Exit has been called
    signalled: bool,         // a signal has been received
    wg: int,                 // the wait group
    returned: bool,          // StartupXchain has returned
    panicked: bool)          // a send met a closed channel, or the wait group went negative

  datatype Action =
    | EngineReturns | ServerReturns(i: nat) | ManagerReceives(i: nat) | ManagerReturns
    | SelectEngine | SelectServ | SelectSignal | ExitsDone | MainReturns

  function Initial(n: nat): State {
    State(Running, seq(n, _ => Running), 0, Running, false, {}, {}, false, 2, false, false)
  }

  /** Nothing runs after StartupXchain has returned: the process ends with it. */
  predicate Enabled(s: State, a: Action) {
    && !s.returned
    && match a
       case EngineReturns => s.engine == Running
       case ServerReturns(i) => i < |s.servers| && s.servers[i] == Running
       case ManagerReceives(i) =>
         s.manager == Running && s.exitCnt < |s.servers| && i < |s.servers| && s.servers[i] == Sending
       case ManagerReturns => s.manager == Running && s.exitCnt >= |s.servers|
       case SelectEngine => s.pending == {} && s.engine == Sending
       case SelectServ => s.pending == {} && s.manager == Sending
       case SelectSignal => s.pending == {}
       case ExitsDone => s.pending != {}
       case MainReturns => s.wg == 0
  }

  function Step(s: State, a: Action): State
    requires Enabled(s, a)
  {
    match a
    case EngineReturns => s.(engine := Sending)
    case ServerReturns(i) => s.(servers := s.servers[i := Sending], panicked := s.panicked || s.chClosed)
    case ManagerReceives(i) => s.(servers := s.servers[i := Sent], exitCnt := s.exitCnt + 1)
    case ManagerReturns =>
      // the deferred close: a sender still blocked on the channel would panic
      s.(manager := Sending, chClosed := true, panicked := s.panicked || Sending in s.servers)
    case SelectEngine => s.(engine := Sent, wg := s.wg - 1, pending := {Servers}, panicked := s.panicked || s.wg < 1)
    case SelectServ => s.(manager := Sent, wg := s.wg - 1, pending := {Engine}, panicked := s.panicked || s.wg < 1)
    case SelectSignal => s.(signalled := true, pending := {Servers, Engine})
    case ExitsDone => s.(told := s.told + s.pending, pending := {})
    case MainReturns => s.(returned := true)
  }

  ghost predicate IsRun(n: nat, states: seq<State>, actions: seq<Action>) {
    && |states| == |actions| + 1
    && states[0] == Initial(n)
    && forall i {:trigger actions[i]} :: 0 <= i < |actions| ==>
         Enabled(states[i], actions[i]) && states[i + 1] == Step(states[i], actions[i])
  }

  // ---------- the invariant ----------

  function CountSent(servers: seq<Sender>): nat {
    if servers == [] then 0
    else CountSent(servers[..|servers| - 1]) + if servers[|servers| - 1] == Sent then 1 else 0
  }

  function Done(x: Sender): int { if x == Sent then 1 else 0 }

  ghost predicate Inv(s: State, n: nat) {
    && |s.servers| == n
    && s.exitCnt == CountSent(s.servers) <= n
    && s.wg == 2 - Done(s.engine) - Done(s.manager)
    && (s.chClosed <==> s.manager != Running)
    && (s.chClosed ==> forall i :: 0 <= i < n ==> s.servers[i] == Sent)
    && (Servers in s.told + s.pending <==> s.engine == Sent || s.signalled)
    && (Engine in s.told + s.pending <==> s.manager == Sent || s.signalled)
    && (s.returned ==> s.wg == 0)
    && !s.panicked
  }

  lemma {:induction false} CountUpdated(servers: seq<Sender>, i: nat, x: Sender)
    requires i < |servers| && servers[i] != Sent
    ensures CountSent(servers[i := x]) == CountSent(servers) + Done(x)
  {
    var front, k := servers[..|servers| - 1], |servers| - 1;
    if i == k {
      assert servers[i := x][..k] == front;
    } else {
      CountUpdated(front, i, x);
      assert servers[i := x][..k] == front[i := x];
    }
  }

  lemma {:induction false} CountBounds(servers: seq<Sender>)
    ensures CountSent(servers) <= |servers|
    ensures CountSent(servers) == |servers| <==> forall i :: 0 <= i < |servers| ==> servers[i] == Sent
  {
    if servers != [] {
      CountBounds(servers[..|servers| - 1]);
    }
  }

  lemma {:induction false} NoneSent(n: nat)
    ensures CountSent(seq(n, _ => Running)) == 0
  {
    if n > 0 {
      NoneSent(n - 1);
      assert seq(n, _ => Running)[..n - 1] == seq(n - 1, _ => Running);
    }
  }

  lemma StepKeepsInv(s: State, a: Action, n: nat)
    requires Inv(s, n) && Enabled(s, a)
    ensures Inv(Step(s, a), n)
  {
    match a {
      case ServerReturns(i) => CountUpdated(s.servers, i, Sending);
      case ManagerReceives(i) => CountUpdated(s.servers, i, Sent); CountBounds(s.servers[i := Sent]);
      case ManagerReturns => CountBounds(s.servers);
      case _ =>
    }
  }

  lemma {:induction false} RunKeepsInv(n: nat, states: seq<State>, actions: seq<Action>, k: nat)
    requires IsRun(n, states, actions) && k < |states|
    ensures Inv(states[k], n)
  {
    if k == 0 {
      NoneSent(n);
    } else {
      RunKeepsInv(n, states, actions, k - 1);
      StepKeepsInv(states[k - 1], actions[k - 1], n);
    }
  }

  // ---------- safety ----------

  /** Under every interleaving nothing panics: the wait group never goes below zero, and no
      server's send meets the closed channel, neither blocked on it nor still to come. */
  lemma NeverPanics(n: nat, states: seq<State>, actions: seq<Action>, k: nat)
    requires IsRun(n, states, actions) && k < |states|
    ensures !states[k].panicked && 0 <= states[k].wg <= 2
    ensures states[k].chClosed ==> forall i :: 0 <= i < n ==> i < |states[k].servers| && states[k].servers[i] == Sent
  {
    RunKeepsInv(n, states, actions, k);
  }

  /** StartupXchain returns only after the engine's Run, the manager's Run and every server's
      Run have returned. */
  lemma ReturnsOnlyAfterAll(n: nat, states: seq<State>, actions: seq<Action>, k: nat)
    requires IsRun(n, states, actions) && k < |states| && states[k].returned
    ensures states[k].engine == Sent && states[k].manager == Sent
    ensures |states[k].servers| == n && forall i :: 0 <= i < n ==> states[k].servers[i] == Sent
  {
    RunKeepsInv(n, states, actions, k);
  }

  /** Whenever no Exit call is under way, the servers have been told to exit if and only if the end of the
      engine or a signal was received, and the engine if and only if the end of the servers or a signal was. */
  lemma ToldToExit(n: nat, states: seq<State>, actions: seq<Action>, k: nat)
    requires IsRun(n, states, actions) && k < |states| && states[k].pending == {}
    ensures Servers in states[k].told <==> states[k].engine == Sent || states[k].signalled
    ensures Engine in states[k].told <==> states[k].manager == Sent || states[k].signalled
  {
    RunKeepsInv(n, states, actions, k);
  }

  /** Nothing is missed: while the process runs, Runs may return at any time, and between Exit calls the select
      hears a signal, the end of the engine, and the end of the servers, whatever was heard before. */
  lemma AlwaysHeard(n: nat, states: seq<State>, actions: seq<Action>, k: nat)
    requires IsRun(n, states, actions) && k < |states| && !states[k].returned
    ensures var s := states[k];
            && |s.servers| == n
            && (s.engine == Running ==> Enabled(s, EngineReturns))
            && (forall i: nat :: i < n && s.servers[i] == Running ==> Enabled(s, ServerReturns(i)))
            && (s.pending == {} ==>
                  && Enabled(s, SelectSignal)
                  && (s.engine == Sending ==> Enabled(s, SelectEngine))
                  && (s.manager == Sending ==> Enabled(s, SelectServ)))
  {
    RunKeepsInv(n, states, actions, k);
  }

  // ---------- and it can always finish ----------

  function Left(x: Sender): nat { match x case Running => 2 case Sending => 1 case Sent => 0 }

  /** Steps still to be taken once everything that runs has returned. */
  function Work(s: State): nat {
    (if s.pending != {} then 1 else 0) + 2 * Left(s.engine) + 2 * Left(s.manager)
    + (if CountSent(s.servers) <= |s.servers| then 2 * (|s.servers| - CountSent(s.servers)) else 0)
    + if s.returned then 0 else 1
  }

  function Exec(s: State, actions: seq<Action>): (r: State)
    requires CanExec(s, actions)
    decreases |actions|
  {
    if actions == [] then s else Exec(Step(s, actions[0]), actions[1..])
  }

  predicate CanExec(s: State, actions: seq<Action>)
    decreases |actions|
  {
    actions == [] || (Enabled(s, actions[0]) && CanExec(Step(s, actions[0]), actions[1..]))
  }

  /** The next step of the drain: never a signal, never a new return of Run. */
  lemma NextDrainStep(s: State, n: nat) returns (a: Action)
    requires Inv(s, n) && !s.returned
    requires s.engine != Running && forall i :: 0 <= i < n ==> s.servers[i] != Running
    ensures Enabled(s, a) && !a.SelectSignal? && !a.EngineReturns? && !a.ServerReturns?
    ensures Work(Step(s, a)) < Work(s)
    ensures Step(s, a).engine != Running
    ensures forall i :: 0 <= i < n ==> i < |Step(s, a).servers| && Step(s, a).servers[i] != Running
  {
    CountBounds(s.servers);
    if s.pending != {} {
      a := ExitsDone;
    } else if s.engine == Sending {
      a := SelectEngine;
    } else if s.manager == Sending {
      a := SelectServ;
    } else if s.manager == Sent {
      a := MainReturns;
    } else if s.exitCnt == n {
      a := ManagerReturns;
    } else {
      var i :| 0 <= i < n && s.servers[i] != Sent;
      CountUpdated(s.servers, i, Sent);
      a := ManagerReceives(i);
    }
  }

  /** No deadlock: from every reachable state in which the engine's Run and the servers' Runs
      have returned, at most Work(s) further steps of the program's own goroutines make
      StartupXchain return. */
  lemma {:induction false} AlwaysCanReturn(s: State, n: nat) returns (actions: seq<Action>)
    requires Inv(s, n)
    requires s.engine != Running && forall i :: 0 <= i < n ==> s.servers[i] != Running
    ensures CanExec(s, actions) && Exec(s, actions).returned && |actions| <= Work(s)
    ensures forall a :: a in actions ==> !a.SelectSignal? && !a.EngineReturns? && !a.ServerReturns?
    decreases Work(s)
  {
    if s.returned {
      actions := [];
    } else {
      var a := NextDrainStep(s, n);
      StepKeepsInv(s, a, n);
      var rest := AlwaysCanReturn(Step(s, a), n);
      actions := [a] + rest;
      assert actions[1..] == rest;
    }
  }
}
