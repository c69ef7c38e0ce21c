/**
 The object behind `createResilientRedisClient`: its two variables, and its functions as
 methods that take one step of `Reconnection` each.
 */
module ResilientClient {
  import opened Wrappers
  import opened Reconnection

  class ResilientClient {
    var client: nat
    var reconnectPromise: Option<nat>

    // What is outside the two variables: the clients, the promises and the commands waiting on them.
    var ready: seq<bool>
    var closes: seq<nat>
    var attempts: seq<Attempt>
    var commands: map<nat, Command>

    function Snapshot(): State
      reads this
    {
      State(client, reconnectPromise, ready, closes, attempts, commands)
    }

    ghost predicate Valid()
      reads this
    {
      Inv(Snapshot())
    }

    constructor (isReady: bool)
      ensures Valid() && Snapshot() == Init(isReady)
    {
      client, reconnectPromise := 0, None;
      ready, closes, attempts, commands := [isReady], [0], [], map[];
    }

    /** `closeConnection` of a client. */
    method CloseConnection(i: nat)
      requires Valid() && i < |closes|
      modifies this`closes
      ensures closes == old(closes)[i := old(closes)[i] + 1]
    {
      closes := closes[i := closes[i] + 1];
    }

    method GetClient(command: nat)
      requires Valid() && Enabled(Snapshot(), Command(command))
      modifies this
      ensures Valid() && Snapshot() == Apply(old(Snapshot()), Command(command))
      // A ready client is handed out; else the command waits, for the attempt there is or for a new one.
      ensures old(ready[client]) ==>
        commands == old(commands)[command := Got(client)] && attempts == old(attempts) && closes == old(closes)
      ensures !old(ready[client]) && old(reconnectPromise).Some? ==>
        && commands == old(commands)[command := Waiting(old(reconnectPromise).value)]
        && attempts == old(attempts) && closes == old(closes)
      ensures !old(ready[client]) && old(reconnectPromise).None? ==>
        && commands == old(commands)[command := Waiting(|old(attempts)|)]
        && attempts == old(attempts) + [Closing] && closes == old(closes)[client := old(closes)[client] + 1]
    {
      InvStep(Snapshot(), Command(command));
      if ready[client] {
        commands := commands[command := Got(client)];
        return;
      }
      if reconnectPromise.None? {
        CloseConnection(client);
        reconnectPromise := Some(|attempts|);
        attempts := attempts + [Closing];
      }
      commands := commands[command := Waiting(reconnectPromise.value)];
    }

    /** The old client has closed, or could not; a new one is connected either way. */
    method CloseSettled()
      requires Valid() && Enabled(Snapshot(), CloseSettles)
      modifies this
      ensures Valid() && Snapshot() == Apply(old(Snapshot()), CloseSettles)
    {
      InvStep(Snapshot(), CloseSettles);
      attempts := attempts[reconnectPromise.value := Connecting];
    }

    method ConnectSettled(ok: bool, isReady: bool)
      requires Valid() && Enabled(Snapshot(), ConnectSettles(ok, isReady))
      modifies this
      ensures Valid() && Snapshot() == Apply(old(Snapshot()), ConnectSettles(ok, isReady))
      ensures reconnectPromise.None?
      ensures if ok
              then client == |old(closes)| && ready == old(ready) + [isReady] && closes == old(closes) + [0]
              else client == old(client) && ready == old(ready) && closes == old(closes)
      ensures attempts ==
        old(attempts)[old(reconnectPromise).value := if ok then Connected(client) else Attempt.Failed]
    {
      InvStep(Snapshot(), ConnectSettles(ok, isReady));
      var attempt := reconnectPromise.value;
      if ok {
        var newClient := |closes|;
        closes, ready := closes + [0], ready + [isReady];
        client := newClient;
        reconnectPromise := None;
        attempts := attempts[attempt := Connected(newClient)];
      } else {
        reconnectPromise := None;
        attempts := attempts[attempt := Failed];
      }
    }

    /**
     A reconnection with nothing else going on: a command finds the client down, and
     either there is one open client, a new one, or none and the next command may try
     again. The command waits for this very attempt.
     */
    method Reconnect(command: nat, ok: bool, isReady: bool)
      requires Valid() && command !in commands && !ready[client] && reconnectPromise.None?
      modifies this
      ensures Valid() && reconnectPromise.None?
      ensures client == if ok then |old(closes)| else old(client)
      ensures Open(closes) == if ok then 1 else 0
      ensures command in commands && commands[command] == Waiting(|old(attempts)|)
      ensures |attempts| == |old(attempts)| + 1
      ensures attempts[|old(attempts)|] == if ok then Connected(client) else Attempt.Failed
    {
      GetClient(command);
      CloseSettled();
      NoneOpen(closes);
      ghost var before := closes;
      ConnectSettled(ok, isReady);
      if ok {
        assert closes[..|closes| - 1] == before;
      }
    }

    /** The caller's own `closeConnection`. */
    method CallerClosed()
      requires Valid()
      modifies this
      ensures Valid() && Snapshot() == Apply(old(Snapshot()), CallerClose)
      ensures closes == old(closes)[client := old(closes)[client] + 1] && reconnectPromise == old(reconnectPromise)
    {
      InvStep(Snapshot(), CallerClose);
      CloseConnection(client);
    }
  }
}
