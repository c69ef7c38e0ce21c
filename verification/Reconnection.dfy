/**
 The resilient Redis client as a step system: commands, reconnection attempts and
 the caller's own close overlap freely.

 Clients and attempts are numbered in the order they come to be. An attempt asks
 the current client to close, waits for that, then connects a new client; a client
 may stop or start being ready at any moment.
 */
module Reconnection {
  import opened Histories
  import opened Wrappers

  /** A reconnection promise. */
  datatype Attempt = Closing | Connecting | Connected(client: nat) | Failed

  predicate Settled(a: Attempt) {
    a.Connected? || a.Failed?
  }

  /** A command waiting for `getClient`, or what it got. */
  datatype Command = Waiting(attempt: nat) | Got(client: nat) | Rejected

  /** `closes[i]` counts the close requests made on client `i`. */
  datatype State = State(
    client: nat,
    reconnecting: Option<nat>,
    ready: seq<bool>,
    closes: seq<nat>,
    attempts: seq<Attempt>,
    commands: map<nat, Command>)
  {
    function RequestClose(): State {
      if client < |closes| then this.(closes := closes[client := closes[client] + 1]) else this
    }
  }

  /** The first client is connected before anything else can happen. */
  function Init(ready: bool): State {
    State(0, None, [ready], [0], [], map[])
  }

  datatype Event =
    | Command(command: nat)
    | ReadyChanges(changed: nat, ready: bool)
    | CloseSettles
    | ConnectSettles(ok: bool, ready: bool)
    | Deliver(command: nat)
    | CallerClose

  predicate Enabled(s: State, e: Event) {
    match e
    case Command(c) => c !in s.commands
    case ReadyChanges(i, _) => i < |s.ready|
    case CloseSettles =>
      s.reconnecting.Some? && s.reconnecting.value < |s.attempts| && s.attempts[s.reconnecting.value].Closing?
    case ConnectSettles(_, _) =>
      s.reconnecting.Some? && s.reconnecting.value < |s.attempts| && s.attempts[s.reconnecting.value].Connecting?
    case Deliver(c) =>
      c in s.commands && s.commands[c].Waiting? && s.commands[c].attempt < |s.attempts|
      && Settled(s.attempts[s.commands[c].attempt])
    case CallerClose => true
  }

  predicate IsReady(s: State) {
    s.client < |s.ready| && s.ready[s.client]
  }

  function Apply(s: State, e: Event): State
    requires Enabled(s, e)
  {
    match e
    case Command(c) =>
      if IsReady(s) then s.(commands := s.commands[c := Got(s.client)])
      else if s.reconnecting.Some? then s.(commands := s.commands[c := Waiting(s.reconnecting.value)])
      else
        var k := |s.attempts|;
        s.RequestClose().(reconnecting := Some(k), attempts := s.attempts + [Closing],
          commands := s.commands[c := Waiting(k)])
    case ReadyChanges(i, ready) => s.(ready := s.ready[i := ready])
    case CloseSettles => s.(attempts := s.attempts[s.reconnecting.value := Connecting])
    case ConnectSettles(ok, ready) =>
      if ok then
        var n := |s.closes|;
        s.(client := n, reconnecting := None, ready := s.ready + [ready], closes := s.closes + [0],
           attempts := s.attempts[s.reconnecting.value := Connected(n)])
      else s.(reconnecting := None, attempts := s.attempts[s.reconnecting.value := Failed])
    case Deliver(c) =>
      (match s.attempts[s.commands[c].attempt]
       case Connected(n) => s.(commands := s.commands[c := Got(n)])
       case _ => s.(commands := s.commands[c := Rejected]))
    case CallerClose => s.RequestClose()
  }

  ghost predicate Behavior(states: seq<State>, events: seq<Event>) {
    && |states| == |events| + 1
    && states[0] == Init(states[0].ready == [true])
    && forall i :: 0 <= i < |events| ==> Enabled(states[i], events[i]) && states[i + 1] == Apply(states[i], events[i])
  }

  // ------------------------------------------------------------------ invariant

  /** Only the attempt in `reconnectPromise` is unsettled. */
  ghost predicate SingleFlight(s: State) {
    && (s.reconnecting.Some? ==> s.reconnecting.value < |s.attempts| && !Settled(s.attempts[s.reconnecting.value]))
    && forall k :: 0 <= k < |s.attempts| && !Settled(s.attempts[k]) ==> s.reconnecting == Some(k)
  }

  /** Every client but the current one was asked to close; so was the current one while it is being replaced. */
  ghost predicate ClientsFit(s: State) {
    && |s.ready| == |s.closes|
    && s.client + 1 == |s.closes|
    && (forall i :: 0 <= i < s.client ==> s.closes[i] > 0)
    && (s.reconnecting.Some? ==> s.closes[s.client] > 0)
  }

  ghost predicate WaitersFit(s: State) {
    && (forall c :: c in s.commands && s.commands[c].Waiting? ==> s.commands[c].attempt < |s.attempts|)
    && (forall k :: 0 <= k < |s.attempts| && s.attempts[k].Connected? ==> s.attempts[k].client < |s.closes|)
    && (forall c :: c in s.commands && s.commands[c].Got? ==> s.commands[c].client < |s.closes|)
  }

  ghost predicate Inv(s: State) {
    SingleFlight(s) && ClientsFit(s) && WaitersFit(s)
  }

  lemma FlightStep(s: State, e: Event)
    requires SingleFlight(s) && Enabled(s, e)
    ensures SingleFlight(Apply(s, e))
  {
  }

  lemma ClientsStep(s: State, e: Event)
    requires ClientsFit(s) && Enabled(s, e)
    ensures ClientsFit(Apply(s, e))
  {
  }

  lemma WaitersStep(s: State, e: Event)
    requires Inv(s) && Enabled(s, e)
    ensures WaitersFit(Apply(s, e))
  {
  }

  lemma InvStep(s: State, e: Event)
    requires Inv(s) && Enabled(s, e)
    ensures Inv(Apply(s, e))
  {
    FlightStep(s, e);
    ClientsStep(s, e);
    WaitersStep(s, e);
  }

  lemma {:induction false} InvAt(states: seq<State>, events: seq<Event>, i: nat)
    requires Behavior(states, events) && i < |states|
    ensures Inv(states[i])
  {
    if i > 0 {
      InvAt(states, events, i - 1);
      InvStep(states[i - 1], events[i - 1]);
    }
  }

  // ------------------------------------------------------------------- theorems

  /** At any moment at most one reconnection runs. */
  lemma OneReconnection(states: seq<State>, events: seq<Event>, i: nat, j: nat, k: nat)
    requires Behavior(states, events) && i < |states| && j < |states[i].attempts| && k < |states[i].attempts|
    requires !Settled(states[i].attempts[j]) && !Settled(states[i].attempts[k])
    ensures j == k && states[i].reconnecting == Some(j)
  {
    InvAt(states, events, i);
  }

  /** The clients obtained that nobody has asked to close. */
  function Open(closes: seq<nat>): nat {
    if closes == [] then 0
    else Open(closes[..|closes| - 1]) + if closes[|closes| - 1] == 0 then 1 else 0
  }

  lemma {:induction false} NoneOpen(closes: seq<nat>)
    requires forall i :: 0 <= i < |closes| ==> closes[i] > 0
    ensures Open(closes) == 0
  {
    if closes != [] {
      NoneOpen(closes[..|closes| - 1]);
    }
  }

  /**
   There is never more than one open client, and none while it is being replaced, whether or
   not the caller closes too.
   */
  lemma AtMostOneOpen(states: seq<State>, events: seq<Event>, i: nat)
    requires Behavior(states, events) && i < |states|
    ensures Open(states[i].closes) <= 1
    ensures states[i].reconnecting.Some? ==> Open(states[i].closes) == 0
  {
    InvAt(states, events, i);
    var s := states[i];
    NoneOpen(s.closes[..s.client]);
    assert s.closes[..|s.closes| - 1] == s.closes[..s.client];
  }

  lemma {:induction false} OutcomeKept(states: seq<State>, events: seq<Event>, i: nat, j: nat, k: nat)
    requires Behavior(states, events) && i <= j < |states| && k < |states[i].attempts| && Settled(states[i].attempts[k])
    ensures k < |states[j].attempts| && states[j].attempts[k] == states[i].attempts[k]
    decreases j - i
  {
    if i < j {
      InvAt(states, events, i);
      OutcomeKept(states, events, i + 1, j, k);
    }
  }

  /** What a command that waited for an attempt gets from it. */
  function OutcomeOf(a: Attempt): Command
    requires Settled(a)
  {
    if a.Connected? then Got(a.client) else Rejected
  }

  /** Every caller that waits on one reconnection gets the same outcome, whenever it hears of it. */
  lemma SameOutcome(states: seq<State>, events: seq<Event>, i: nat, j: nat, c: nat, d: nat)
    requires Behavior(states, events) && i <= j < |events|
    requires events[i] == Deliver(c) && events[j] == Deliver(d)
    requires states[i].commands[c] == states[j].commands[d]
    ensures states[i + 1].commands[c] == states[j + 1].commands[d]
  {
    OutcomeKept(states, events, i, j, states[i].commands[c].attempt);
    assert states[i + 1].commands[c] == OutcomeOf(states[i].attempts[states[i].commands[c].attempt]);
    assert states[j + 1].commands[d] == OutcomeOf(states[j].attempts[states[j].commands[d].attempt]);
  }

  /** A waiting command is never stuck: its attempt has settled, or is the one in flight and has a step to take. */
  lemma WaiterCanAdvance(states: seq<State>, events: seq<Event>, i: nat, c: nat) returns (e: Event)
    requires Behavior(states, events) && i < |states| && c in states[i].commands && states[i].commands[c].Waiting?
    ensures Enabled(states[i], e)
    ensures e == Deliver(c) ||
      (states[i].reconnecting == Some(states[i].commands[c].attempt) && (e.CloseSettles? || e.ConnectSettles?))
  {
    InvAt(states, events, i);
    e := match states[i].attempts[states[i].commands[c].attempt]
      case Closing => CloseSettles
      case Connecting => ConnectSettles(true, true)
      case _ => Deliver(c);
  }

  /**
   After a failed attempt the next command that finds the client down starts a new
   one; a command never starts one while another runs.
   */
  lemma StartsIffIdleAndDown(states: seq<State>, events: seq<Event>, i: nat, c: nat)
    requires Behavior(states, events) && i < |events| && events[i] == Command(c)
    ensures |states[i + 1].attempts| == |states[i].attempts| + 1 <==>
      !IsReady(states[i]) && forall k :: 0 <= k < |states[i].attempts| ==> Settled(states[i].attempts[k])
  {
    InvAt(states, events, i);
  }

  /**
   What opens and closes clients, exactly: a successful reconnection leaves one open
   client; starting a reconnection, or the caller's close, leaves none; nothing else
   matters. So a close does not cancel the attempt in flight, which still opens one.
   */
  lemma OpenAfter(states: seq<State>, events: seq<Event>, i: nat)
    requires Behavior(states, events) && i < |events|
    ensures Open(states[i + 1].closes) ==
      if events[i].ConnectSettles? && events[i].ok then 1
      else if events[i].CallerClose? || |states[i + 1].attempts| > |states[i].attempts| then 0
      else Open(states[i].closes)
  {
    InvAt(states, events, i);
    var s, s' := states[i], states[i + 1];
    if events[i].ConnectSettles? && events[i].ok {
      NoneOpen(s.closes);
      assert s'.closes[..|s'.closes| - 1] == s.closes;
    } else if events[i].CallerClose? || |s'.attempts| > |s.attempts| {
      NoneOpen(s'.closes);
    }
  }

  /** So it happens: the caller closes during a reconnection, and the client that this opens is never asked to close. */
  lemma ClosedYetOpen() returns (states: seq<State>, events: seq<Event>)
    ensures Behavior(states, events) && CallerClose in events
    ensures var s := states[|events|]; Open(s.closes) == 1 && IsReady(s) && s.reconnecting.None?
  {
    var s0 := Init(false);
    var s1 := Apply(s0, Event.Command(0));
    var s2 := Apply(s1, CallerClose);
    var s3 := Apply(s2, CloseSettles);
    var s4 := Apply(s3, ConnectSettles(true, true));
    states, events := [s0, s1, s2, s3, s4], [Event.Command(0), CallerClose, CloseSettles, ConnectSettles(true, true)];
    NoneOpen(s3.closes);
    assert s4.closes[..|s4.closes| - 1] == s3.closes;
  }

  // ------------------------------------------------------------------ what commands get

  /** The command has just been given this client. */
  predicate Given(s: State, s': State, c: nat, n: nat) {
    c in s'.commands && s'.commands[c] == Got(n) && !(c in s.commands && s.commands[c] == Got(n))
  }

  /** The attempt ended with this client as the current one. */
  predicate Connects(s: State, s': State, e: Event, attempt: nat, n: nat) {
    && e.ConnectSettles? && e.ok && s.reconnecting == Some(attempt)
    && s'.client == n && n == |s.closes| && s'.ready == s.ready + [e.ready]
  }

  predicate ConnectedTo(s: State, attempt: nat, n: nat) {
    attempt < |s.attempts| && s.attempts[attempt] == Connected(n)
  }

  lemma ConnectedStep(s: State, e: Event, attempt: nat, n: nat)
    requires Enabled(s, e) && !ConnectedTo(s, attempt, n) && ConnectedTo(Apply(s, e), attempt, n)
    ensures Connects(s, Apply(s, e), e, attempt, n)
  {
  }

  /** A connected attempt made its client the current one when it settled. */
  lemma ConnectedSince(states: seq<State>, events: seq<Event>, i: nat, attempt: nat, n: nat) returns (k: nat)
    requires Behavior(states, events) && i < |states| && ConnectedTo(states[i], attempt, n)
    ensures k < i && Connects(states[k], states[k + 1], events[k], attempt, n)
  {
    var holds := seq(|states|, j requires 0 <= j < |states| => ConnectedTo(states[j], attempt, n));
    k := Begins(holds, i);
    ConnectedStep(states[k], events[k], attempt, n);
  }

  /**
   A command gets the current client, if that is ready when it is given; else the
   client that the attempt it waited for connected.
   */
  lemma GivenClient(states: seq<State>, events: seq<Event>, i: nat, c: nat, n: nat) returns (k: nat)
    requires Behavior(states, events) && i < |events| && Given(states[i], states[i + 1], c, n)
    ensures events[i] == Command(c) || events[i] == Deliver(c)
    ensures events[i] == Command(c) ==> n == states[i].client && IsReady(states[i])
    ensures events[i] == Deliver(c) ==>
      && c in states[i].commands && states[i].commands[c].Waiting?
      && k < i && Connects(states[k], states[k + 1], events[k], states[i].commands[c].attempt, n)
  {
    k := 0;
    if events[i] == Deliver(c) {
      k := ConnectedSince(states, events, i, states[i].commands[c].attempt, n);
    }
  }

  /** A command that finds the current client ready gets it. */
  lemma ReadyIsGiven(states: seq<State>, events: seq<Event>, i: nat, c: nat)
    requires Behavior(states, events) && i < |events| && events[i] == Command(c)
    ensures c in states[i + 1].commands
    ensures IsReady(states[i]) ==> states[i + 1].commands[c] == Got(states[i].client)
    ensures !IsReady(states[i]) ==> states[i + 1].commands[c].Waiting?
  {
  }
}
