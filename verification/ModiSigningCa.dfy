/**
 Which CA a P3 response is verified with, and how old it is. The code says that the
 CA is refreshed alongside the credentials, with the same 24 hours; but it has no
 expiry of its own, and a refresh that fails leaves the CA of an earlier one.
 */
module ModiSigningCa {
  import opened Wrappers
  import opened Histories
  import opened ModiProtocol
  import opened ModiSafety
  import opened ModiCaches

  // ------------------------------------------------------------------ where it is from

  /** The CA fetch that the event brings to a good end. */
  function CaStored(s: State, e: Event): Option<nat> {
    if e.Resume? && e.call in s.calls && s.calls[e.call].FetchingCa? && e.reply.ok then Some(s.calls[e.call].fetch)
    else None
  }

  lemma CaChange(cfg: Config, s: State, e: Event)
    requires Enabled(s, e)
    ensures Apply(cfg, s, e).signingCa == if CaStored(s, e).Some? then CaStored(s, e) else s.signingCa
  {
  }

  /** A CA that is known is that of the last fetch that succeeded. */
  lemma LastCa(cfg: Config, states: seq<State>, events: seq<Event>, i: nat) returns (k: nat)
    requires Behavior(cfg, states, events) && i < |states| && states[i].signingCa.Some?
    ensures k < i && CaStored(states[k], events[k]) == states[i].signingCa
    ensures forall n :: k < n < i ==> CaStored(states[n], events[n]).None?
  {
    var values := seq(|states|, n requires 0 <= n < |states| => states[n].signingCa);
    var gives := seq(|events|, n requires 0 <= n < |events| => CaStored(states[n], events[n]));
    forall n | 0 <= n < i
      ensures values[n + 1] == if gives[n].Some? then gives[n] else values[n]
    {
      CaChange(cfg, states[n], events[n]);
    }
    k := LastGiven(values, gives, i);
    assert forall n :: k < n < i ==> gives[n] == CaStored(states[n], events[n]);
  }

  // ------------------------------------------------------------------- when it began

  predicate AwaitsCa(s: State, t: nat, f: nat) {
    t in s.calls && s.calls[t].FetchingCa? && s.calls[t].fetch == f
  }

  /** A call begins to fetch the CA when it stores its credentials. */
  lemma CaFetchBegins(cfg: Config, s: State, e: Event, t: nat, f: nat)
    requires Inv(cfg, s) && Enabled(s, e) && !AwaitsCa(s, t, f) && AwaitsCa(Apply(cfg, s, e), t, f)
    ensures e.call == t && StoresSigning(s, e) && BegunAt(Apply(cfg, s, e), f, Apply(cfg, s, e).now)
  {
    OnlyItsStep(cfg, s, e, t, f);
    OwnCaFetch(cfg, s, e);
  }

  lemma OnlyItsStep(cfg: Config, s: State, e: Event, t: nat, f: nat)
    requires Inv(cfg, s) && Enabled(s, e) && !AwaitsCa(s, t, f) && AwaitsCa(Apply(cfg, s, e), t, f)
    ensures e.call == t
  {
    StepIsGood(cfg, s, e);
  }

  lemma OwnCaFetch(cfg: Config, s: State, e: Event)
    requires Enabled(s, e) && Apply(cfg, s, e).calls[e.call].FetchingCa?
    ensures StoresSigning(s, e)
    ensures BegunAt(Apply(cfg, s, e), Apply(cfg, s, e).calls[e.call].fetch, Apply(cfg, s, e).now)
  {
  }

  /** The step since which a call has been fetching the CA. */
  lemma CaFetchSince(cfg: Config, states: seq<State>, events: seq<Event>, k: nat, t: nat) returns (h: nat)
    requires Behavior(cfg, states, events) && k < |states| && t in states[k].calls && states[k].calls[t].FetchingCa?
    ensures h < k && StoresSigning(states[h], events[h]) && events[h].call == t
    ensures BegunAt(states[k], states[k].calls[t].fetch, states[h + 1].now)
  {
    var f := states[k].calls[t].fetch;
    var holds := seq(|states|, n requires 0 <= n < |states| => AwaitsCa(states[n], t, f));
    h := Begins(holds, k);
    InvAt(cfg, states, events, h);
    CaFetchBegins(cfg, states[h], events[h], t, f);
    BegunStays(cfg, states, events, h + 1, k, f);
  }

  lemma CaAge(cfg: Config, states: seq<State>, events: seq<Event>, i: nat, ca: nat, begun: nat)
    requires Behavior(cfg, states, events) && i < |states| && BegunAt(states[i], ca, begun)
    ensures Fresh(states[i], ca, states[i].now) <==> states[i].now < begun + CACHE_TTL
  {
    InvAt(cfg, states, events, i);
  }

  /**
   A P3 response is verified with the CA of the last fetch that succeeded before it
   arrived. That CA is not older than 24 hours then if and only if the call that
   fetched it stored its own credentials within the 24 hours before.
   */
  lemma VerifiesWithLastCa(cfg: Config, states: seq<State>, events: seq<Event>, i: nat, t: nat) returns (h: nat, k: nat)
    requires Behavior(cfg, states, events) && i < |events| && events[i].call == t && events[i].Resume?
    requires states[i].calls[t].Sending? && states[i + 1].calls[t].Verifying? && states[i + 1].calls[t].ca.Some?
    ensures h < k < i && StoresSigning(states[h], events[h]) && events[h].call == events[k].call
    ensures CaStored(states[k], events[k]) == states[i + 1].calls[t].ca
    ensures forall n :: k < n < i ==> CaStored(states[n], events[n]).None?
    ensures states[i + 1].calls[t].ca.value < |states[i + 1].fetches|
    ensures Fresh(states[i + 1], states[i + 1].calls[t].ca.value, states[i + 1].now) <==>
      states[i + 1].now < states[h + 1].now + CACHE_TTL
  {
    var ca := states[i + 1].calls[t].ca;
    assert ca == states[i].signingCa;
    k := LastCa(cfg, states, events, i);
    h := CaFetchSince(cfg, states, events, k, events[k].call);
    BegunStays(cfg, states, events, k, i + 1, ca.value);
    CaAge(cfg, states, events, i + 1, ca.value, states[h + 1].now);
  }

  // ---------------------------------------------------------------- a CA that is older

  const NO := Reply(0, false, None)

  /** A state in which one call has the credentials and the CA. */
  function Refreshed(m: Message): State {
    State(0, None, Some(CachedSigning(0, CACHE_TTL)), Some(1),
          [Fetch(SigningKey, 0, 0, Succeeded), Fetch(SigningCa, 0, 0, Succeeded)], map[0 := Signing(m, 0, 0, true)])
  }

  lemma FirstRefresh(cfg: Config, request: Request) returns (states: seq<State>, events: seq<Event>)
    requires cfg.profile.P3? && Build(cfg, request).Some?
    ensures Behavior(cfg, states, events) && states[|events|] == Refreshed(Build(cfg, request).value)
  {
    var m := Build(cfg, request).value;
    var s0 := Init(0);
    var s1 := Apply(cfg, s0, Call(0, request, 0));
    var s2 := Apply(cfg, s1, Resume(0, YES));
    assert s2.calls == map[0 := FetchingCa(m, 0, 1)];
    var s3 := Apply(cfg, s2, Resume(0, YES));
    assert s3.calls == Refreshed(m).calls;
    states, events := [s0, s1, s2, s3], [Call(0, request, 0), Resume(0, YES), Resume(0, YES)];
  }

  /** A day later another call refreshes the credentials, and fails to refresh the CA. */
  lemma CaRefreshFails(cfg: Config, request: Request) returns (states: seq<State>, events: seq<Event>)
    requires cfg.profile.P3? && Build(cfg, request).Some?
    ensures Behavior(cfg, states, events)
    ensures var s := states[|events|];
      && s.now == CACHE_TTL && s.signing == Some(CachedSigning(2, 2 * CACHE_TTL)) && s.signingCa == Some(1)
      && s.dispatcher.None? && s.calls.Keys == {0, 1} && |s.fetches| == 4 && BegunAt(s, 1, 0)
  {
    states, events := FirstRefresh(cfg, request);
    var s := states[|events|];
    var call := Call(1, request, CACHE_TTL);
    Extend(cfg, states, events, call);
    var s1 := Apply(cfg, s, call);
    states, events := states + [s1], events + [call];
    Extend(cfg, states, events, Resume(1, YES));
    var s2 := Apply(cfg, s1, Resume(1, YES));
    states, events := states + [s2], events + [Resume(1, YES)];
    Extend(cfg, states, events, Resume(1, NO));
    states, events := states + [Apply(cfg, s2, Resume(1, NO))], events + [Resume(1, NO)];
  }

  /** A call that waits for its response, or for the dispatcher. */
  lemma ReachesSending(cfg: Config, request: Request) returns (states: seq<State>, events: seq<Event>)
    requires cfg.profile.P3? && Build(cfg, request).Some?
    ensures Behavior(cfg, states, events)
    ensures var s := states[|events|];
      && s.now == CACHE_TTL && s.signingCa == Some(1) && BegunAt(s, 1, 0)
      && 2 in s.calls && s.calls[2].Sending? && s.calls[2].m.digest.Some?
  {
    states, events := CaRefreshFails(cfg, request);
    var s := states[|events|];
    Extend(cfg, states, events, Call(2, request, 0));
    var s1 := Apply(cfg, s, Call(2, request, 0));
    states, events := states + [s1], events + [Call(2, request, 0)];
    Extend(cfg, states, events, Resume(2, YES));
    var s2 := Apply(cfg, s1, Resume(2, YES));
    states, events := states + [s2], events + [Resume(2, YES)];
    if cfg.mtls {
      Extend(cfg, states, events, Resume(2, YES));
      states, events := states + [Apply(cfg, s2, Resume(2, YES))], events + [Resume(2, YES)];
    }
  }

  /**
   The age can be missed: the refresh of the CA fails a day after it was first
   fetched, and the next call is answered all the same, verified with the old one.
   */
  lemma StaleCaAccepted(cfg: Config, request: Request) returns (states: seq<State>, events: seq<Event>)
    requires cfg.profile.P3? && Build(cfg, request).Some?
    ensures Behavior(cfg, states, events)
    ensures var s := states[|events|];
      && 2 in s.calls && s.calls[2].Ended? && s.calls[2].answer.Response? && s.calls[2].answer.proof.Some?
      && s.calls[2].answer.proof.value.ca < |s.fetches| && !Fresh(s, s.calls[2].answer.proof.value.ca, s.now)
  {
    states, events := ReachesSending(cfg, request);
    var s := states[|events|];
    var arrives := Resume(2, Reply(0, true, s.calls[2].m.digest));
    Extend(cfg, states, events, arrives);
    var s1 := Apply(cfg, s, arrives);
    states, events := states + [s1], events + [arrives];
    Extend(cfg, states, events, Resume(2, YES));
    states, events := states + [Apply(cfg, s1, Resume(2, YES))], events + [Resume(2, YES)];
  }
}
