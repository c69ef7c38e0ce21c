/** The guarantees of the ModI signed fetch over every run of overlapping calls, and where they end. */
module ModiCaches {
  import opened Wrappers
  import opened Histories
  import opened ModiProtocol
  import opened ModiSafety

  // ------------------------------------------------------------------------ age

  /**
   With mTLS configured every call sends with material, and it was fetched within the 24
   hours before its cache look-up.
   */
  lemma DispatcherAge(cfg: Config, states: seq<State>, events: seq<Event>, i: nat, t: nat)
    requires Behavior(cfg, states, events) && i < |states| && t in states[i].calls
    requires states[i].calls[t].Sending?
    ensures states[i].calls[t].dispatcher.Some? <==> cfg.mtls
    ensures cfg.mtls ==>
      var f, at := states[i].calls[t].dispatcher.value, states[i].calls[t].readAt;
      IsFetch(states[i], f, Tls, Succeeded) &&
        states[i].fetches[f].begun <= at < states[i].fetches[f].begun + 86_400_000
  {
    InvAt(cfg, states, events, i);
    assert PhaseFits(cfg, states[i], t, states[i].calls[t]);
  }

  /**
   So were the signing credentials, if they were cached at the look-up or the call fetched
   them itself, as it always does in P2.
   */
  lemma SigningAge(cfg: Config, states: seq<State>, events: seq<Event>, i: nat, t: nat)
    requires Behavior(cfg, states, events) && i < |states| && t in states[i].calls && states[i].calls[t].Signing?
    ensures var phase := states[i].calls[t];
      && IsFetch(states[i], phase.credentials, SigningKey, Succeeded)
      && (phase.own ==>
            var begun := states[i].fetches[phase.credentials].begun;
            begun <= phase.readAt < begun + 86_400_000)
      && (cfg.profile.P2? ==> phase.own)
  {
    InvAt(cfg, states, events, i);
    assert PhaseFits(cfg, states[i], t, states[i].calls[t]);
  }

  /** The event stores new signing credentials. */
  predicate StoresSigning(s: State, e: Event) {
    e.Resume? && e.call in s.calls && s.calls[e.call].FetchingSigning? && e.reply.ok
  }

  /** No event from `i` up to `j` stores credentials. */
  ghost predicate Undisturbed(states: seq<State>, events: seq<Event>, i: nat, j: nat)
    requires j <= |events| <= |states|
  {
    forall k :: i <= k < j ==> !StoresSigning(states[k], events[k])
  }

  lemma SigningStep(cfg: Config, s: State, e: Event, own: nat)
    requires Inv(cfg, s) && Enabled(s, e) && s.signing.Some? && IsFetch(s, own, SigningKey, Succeeded)
    ensures var s' := Apply(cfg, s, e);
      && s'.signing.Some? && IsFetch(s', own, SigningKey, Succeeded)
      && (s'.signing.value.credentials == own <==> s.signing.value.credentials == own && !StoresSigning(s, e))
  {
    StepIsGood(cfg, s, e);
    assert IsFetch(Apply(cfg, s, e), own, SigningKey, Succeeded);
    SigningChange(cfg, s, e);
    if StoresSigning(s, e) {
      assert PhaseFits(cfg, s, e.call, s.calls[e.call]);
    }
  }

  /** The cached credentials change exactly when a call stores its own. */
  lemma SigningChange(cfg: Config, s: State, e: Event)
    requires Enabled(s, e)
    ensures StoresSigning(s, e) ==>
      Apply(cfg, s, e).signing.Some? && Apply(cfg, s, e).signing.value.credentials == s.calls[e.call].fetch
    ensures !StoresSigning(s, e) ==> Apply(cfg, s, e).signing == s.signing
  {
  }

  /** Credentials that were fetched stay so, and are the cached ones until others are stored. */
  lemma SigningStepAt(cfg: Config, states: seq<State>, events: seq<Event>, j: nat, own: nat)
    requires Behavior(cfg, states, events) && j < |events|
    requires states[j].signing.Some? && IsFetch(states[j], own, SigningKey, Succeeded)
    ensures states[j + 1].signing.Some? && IsFetch(states[j + 1], own, SigningKey, Succeeded)
    ensures states[j + 1].signing.value.credentials == own <==>
      states[j].signing.value.credentials == own && !StoresSigning(states[j], events[j])
  {
    InvAt(cfg, states, events, j);
    SigningStep(cfg, states[j], events[j], own);
  }

  predicate Fetched(s: State, own: nat) {
    s.signing.Some? && IsFetch(s, own, SigningKey, Succeeded)
  }

  predicate Cached(s: State, own: nat) {
    s.signing.Some? && s.signing.value.credentials == own
  }

  lemma FetchedStays(cfg: Config, states: seq<State>, events: seq<Event>, i: nat, j: nat, own: nat)
    requires Behavior(cfg, states, events) && i <= j < |states| && Fetched(states[i], own)
    ensures Fetched(states[j], own)
  {
    var holds := seq(|states|, k requires 0 <= k < |states| => Fetched(states[k], own));
    forall k | i <= k < j && holds[k]
      ensures holds[k + 1]
    {
      SigningStepAt(cfg, states, events, k, own);
    }
    Lasts(holds, i, j);
  }

  /** Credentials are the cached ones until others are stored, and never again after. */
  lemma CachedUntilOvertaken(cfg: Config, states: seq<State>, events: seq<Event>, i: nat, j: nat, own: nat)
    requires Behavior(cfg, states, events) && i <= j < |states| && Fetched(states[i], own) && Cached(states[i], own)
    ensures Fetched(states[j], own)
    ensures Cached(states[j], own) <==> Undisturbed(states, events, i, j)
  {
    var there := seq(|states|, k requires 0 <= k < |states| => Cached(states[k], own));
    var takes := seq(|events|, k requires 0 <= k < |events| => StoresSigning(states[k], events[k]));
    forall k | i <= k < j
      ensures there[k + 1] <==> there[k] && !takes[k]
    {
      FetchedStays(cfg, states, events, i, k, own);
      SigningStepAt(cfg, states, events, k, own);
    }
    ThereUntilTaken(there, takes, i, j);
    FetchedStays(cfg, states, events, i, j, own);
    assert forall k :: i <= k < j ==> (takes[k] <==> StoresSigning(states[k], events[k]));
  }

  /**
   In P3 a call that fetched credentials signs with them exactly if no other call
   stored its own while this one waited for the CA; otherwise it signs with those.
   */
  lemma OwnIffNotOvertaken(cfg: Config, states: seq<State>, events: seq<Event>, i: nat, j: nat, t: nat)
    requires Behavior(cfg, states, events) && i < j < |events| && cfg.profile.P3?
    requires StoresSigning(states[i], events[i]) && events[i].call == t
    requires t in states[j].calls && states[j].calls[t] == states[i + 1].calls[t]
    requires events[j].Resume? && events[j].call == t && events[j].reply.ok
    ensures states[j + 1].calls[t].Signing?
    ensures states[j + 1].calls[t].own <==> Undisturbed(states, events, i + 1, j)
  {
    InvAt(cfg, states, events, i);
    assert PhaseFits(cfg, states[i], t, states[i].calls[t]);
    InvAt(cfg, states, events, i + 1);
    CachedUntilOvertaken(cfg, states, events, i + 1, j, states[i].calls[t].fetch);
  }

  /** The event after which no other stored credentials before `j`: the last of those from `i` on. */
  lemma LastStore(states: seq<State>, events: seq<Event>, i: nat, j: nat) returns (k: nat)
    requires i < j <= |events| <= |states| && StoresSigning(states[i], events[i])
    ensures i <= k < j && StoresSigning(states[k], events[k]) && Undisturbed(states, events, k + 1, j)
  {
    var marks := seq(|events|, n requires 0 <= n < |events| => StoresSigning(states[n], events[n]));
    k := LastOf(marks, i, j);
    assert forall n :: k < n < j ==> (marks[n] <==> StoresSigning(states[n], events[n]));
  }

  /** The fetch of the credentials that the event stores, and the clock reading at which its call looked them up. */
  function StoredFetch(s: State, e: Event): nat
    requires StoresSigning(s, e)
  {
    s.calls[e.call].fetch
  }

  function LookUp(s: State, e: Event): nat
    requires StoresSigning(s, e) && StoredFetch(s, e) < |s.fetches|
  {
    s.fetches[StoredFetch(s, e)].begun
  }

  lemma StoreFacts(cfg: Config, states: seq<State>, events: seq<Event>, k: nat)
    requires Behavior(cfg, states, events) && k < |events| && StoresSigning(states[k], events[k])
    ensures StoredFetch(states[k], events[k]) < |states[k].fetches|
    ensures IsFetch(states[k + 1], StoredFetch(states[k], events[k]), SigningKey, Succeeded)
    ensures states[k + 1].fetches[StoredFetch(states[k], events[k])].begun == LookUp(states[k], events[k])
    ensures states[k + 1].signing.Some? && states[k + 1].signing.value.credentials == StoredFetch(states[k], events[k])
  {
    InvAt(cfg, states, events, k);
    assert PhaseFits(cfg, states[k], events[k].call, states[k].calls[events[k].call]);
  }

  predicate BegunAt(s: State, f: nat, begun: nat) {
    f < |s.fetches| && s.fetches[f].begun == begun
  }

  lemma BegunKept(cfg: Config, states: seq<State>, events: seq<Event>, k: nat, f: nat, begun: nat)
    requires Behavior(cfg, states, events) && k < |events| && BegunAt(states[k], f, begun)
    ensures BegunAt(states[k + 1], f, begun)
  {
    InvAt(cfg, states, events, k);
    StepIsGood(cfg, states[k], events[k]);
  }

  /** When a fetch began does not change. */
  lemma BegunStays(cfg: Config, states: seq<State>, events: seq<Event>, i: nat, j: nat, f: nat)
    requires Behavior(cfg, states, events) && i <= j < |states| && f < |states[i].fetches|
    ensures f < |states[j].fetches| && states[j].fetches[f].begun == states[i].fetches[f].begun
  {
    var begun := states[i].fetches[f].begun;
    var holds := seq(|states|, k requires 0 <= k < |states| => BegunAt(states[k], f, begun));
    forall k | i <= k < j && holds[k]
      ensures holds[k + 1]
    {
      BegunKept(cfg, states, events, k, f, begun);
    }
    Lasts(holds, i, j);
  }

  lemma CaSettles(cfg: Config, s: State, e: Event, own: nat)
    requires Enabled(s, e) && e.Resume? && s.calls[e.call].FetchingCa? && s.calls[e.call].signing == own && e.reply.ok
    ensures Apply(cfg, s, e).calls[e.call].Signing?
    ensures Apply(cfg, s, e).calls[e.call].credentials == s.signing.value.credentials
    ensures Apply(cfg, s, e).calls[e.call].readAt == s.fetches[own].begun
    ensures Apply(cfg, s, e).calls[e.call].own <==> s.signing.value.credentials == own
  {
  }

  /**
   Which credentials a P3 call that fetched some signs with, and how old they are: those
   of the last call that stored any before the CA arrived, itself or another. They are
   no older than 24 hours, and no younger, at its own look-up if and only if that
   call's look-up falls in the 24 hours before it.
   */
  lemma SignsWithLastStored(cfg: Config, states: seq<State>, events: seq<Event>, i: nat, j: nat, t: nat)
    returns (k: nat)
    requires Behavior(cfg, states, events) && i < j < |events| && cfg.profile.P3?
    requires StoresSigning(states[i], events[i]) && events[i].call == t
    requires t in states[j].calls && states[j].calls[t] == states[i + 1].calls[t]
    requires events[j].Resume? && events[j].call == t && events[j].reply.ok
    ensures i <= k < j && StoresSigning(states[k], events[k]) && Undisturbed(states, events, k + 1, j)
    ensures StoredFetch(states[i], events[i]) < |states[i].fetches|
    ensures StoredFetch(states[k], events[k]) < |states[k].fetches|
    ensures var phase := states[j + 1].calls[t];
      && phase.Signing? && phase.credentials == StoredFetch(states[k], events[k])
      && phase.readAt == LookUp(states[i], events[i])
      && phase.credentials < |states[j + 1].fetches|
      && (Fresh(states[j + 1], phase.credentials, phase.readAt) <==>
            phase.readAt - CACHE_TTL < LookUp(states[k], events[k]) <= phase.readAt)
  {
    k := LastStore(states, events, i, j);
    StoreFacts(cfg, states, events, i);
    StoreFacts(cfg, states, events, k);
    CachedUntilOvertaken(cfg, states, events, k + 1, j, StoredFetch(states[k], events[k]));
    BegunStays(cfg, states, events, i + 1, j, StoredFetch(states[i], events[i]));
    BegunStays(cfg, states, events, k + 1, j + 1, StoredFetch(states[k], events[k]));
    CaSettles(cfg, states[j], events[j], StoredFetch(states[i], events[i]));
  }

  lemma Extend(cfg: Config, states: seq<State>, events: seq<Event>, e: Event)
    requires Behavior(cfg, states, events) && Enabled(states[|events|], e)
    ensures Behavior(cfg, states + [Apply(cfg, states[|events|], e)], events + [e])
  {
  }

  const YES := Reply(0, true, None)

  /** Two calls fetch credentials, the second a millisecond after the first. */
  lemma TwoCalls(cfg: Config, request: Request) returns (states: seq<State>, events: seq<Event>)
    requires cfg.profile.P3? && Build(cfg, request).Some?
    ensures Behavior(cfg, states, events) && |events| == 2
    ensures var m := Build(cfg, request).value;
      states[2] == State(1, None, None, None, [Fetch(SigningKey, 0, 0, Pending), Fetch(SigningKey, 1, 1, Pending)],
                         map[0 := FetchingSigning(m, 0), 1 := FetchingSigning(m, 1)])
  {
    var m := Build(cfg, request).value;
    var s0 := Init(0);
    var s1 := Apply(cfg, s0, Call(0, request, 0));
    var s2 := Apply(cfg, s1, Call(1, request, 1));
    assert s2.calls == map[0 := FetchingSigning(m, 0), 1 := FetchingSigning(m, 1)];
    states, events := [s0, s1, s2], [Call(0, request, 0), Call(1, request, 1)];
  }

  /** The age can be missed: a call signs with credentials looked up after its own look-up. */
  lemma OvertakenIsNotFresh(cfg: Config, request: Request) returns (states: seq<State>, events: seq<Event>)
    requires cfg.profile.P3? && Build(cfg, request).Some?
    ensures Behavior(cfg, states, events) && |events| == 5
    ensures 0 in states[5].calls && states[5].calls[0].Signing?
    ensures var phase := states[5].calls[0];
      phase.credentials < |states[5].fetches| && !Fresh(states[5], phase.credentials, phase.readAt)
  {
    var first, both := TwoCalls(cfg, request);
    var s2 := first[2];
    Extend(cfg, first, both, Resume(0, YES));
    var s3 := Apply(cfg, s2, Resume(0, YES));
    Extend(cfg, first + [s3], both + [Resume(0, YES)], Resume(1, YES));
    var s4 := Apply(cfg, s3, Resume(1, YES));
    Extend(cfg, first + [s3] + [s4], both + [Resume(0, YES)] + [Resume(1, YES)], Resume(0, YES));
    states := first + [s3] + [s4] + [Apply(cfg, s4, Resume(0, YES))];
    events := both + [Resume(0, YES)] + [Resume(1, YES)] + [Resume(0, YES)];
  }

  // ------------------------------------------------------------- verification

  /** A response is verified with a CA if and only if a CA fetch has succeeded before it arrives. */
  lemma VerifiesWithCaIff(cfg: Config, states: seq<State>, events: seq<Event>, i: nat, t: nat)
    requires Behavior(cfg, states, events) && i < |events| && events[i].call == t && events[i].Resume?
    requires states[i].calls[t].Sending? && states[i + 1].calls[t].Verifying?
    ensures states[i + 1].calls[t].ca.Some? <==> CaArrived(states[i])
  {
    InvAt(cfg, states, events, i);
  }

  predicate WaitsFor(phase: Phase, k: nat) {
    (phase.FetchingSigning? || phase.FetchingCa? || phase.FetchingTls?) && phase.fetch == k
  }

  /** Every fetch that has not come back has a call that waits for it. */
  ghost predicate PendingAwaited(s: State) {
    forall k :: 0 <= k < |s.fetches| && s.fetches[k].outcome.Pending? ==>
      s.fetches[k].call in s.calls && WaitsFor(s.calls[s.fetches[k].call], k)
  }

  /**
   The fetches a step leaves pending are those pending before that its call did not wait
   for, and one it waits for now.
   */
  lemma PendingAfter(cfg: Config, s: State, e: Event, k: nat)
    requires Inv(cfg, s) && Enabled(s, e) && k < |Apply(cfg, s, e).fetches|
    requires Apply(cfg, s, e).fetches[k].outcome.Pending?
    ensures var s' := Apply(cfg, s, e);
      || (s'.fetches[k].call == e.call && e.call in s'.calls && WaitsFor(s'.calls[e.call], k))
      || (k < |s.fetches| && s.fetches[k].outcome.Pending? && !(e.Resume? && WaitsFor(s.calls[e.call], k)))
  {
    if e.Resume? {
      assert PhaseFits(cfg, s, e.call, s.calls[e.call]);
    }
  }

  /** A fetch of another call that was awaited still is. */
  lemma StillAwaited(cfg: Config, s: State, s': State, t: nat, k: nat)
    requires GoodStep(cfg, s, s', t) && k < |s.fetches| && s.fetches[k].call != t
    requires s.fetches[k].call in s.calls && WaitsFor(s.calls[s.fetches[k].call], k)
    ensures s'.fetches[k].call in s'.calls && WaitsFor(s'.calls[s'.fetches[k].call], k)
  {
  }

  lemma PendingStep(cfg: Config, s: State, e: Event, k: nat)
    requires Inv(cfg, s) && Enabled(s, e) && PendingAwaited(s)
    requires k < |Apply(cfg, s, e).fetches| && Apply(cfg, s, e).fetches[k].outcome.Pending?
    ensures var s' := Apply(cfg, s, e); s'.fetches[k].call in s'.calls && WaitsFor(s'.calls[s'.fetches[k].call], k)
  {
    PendingAfter(cfg, s, e, k);
    if k < |s.fetches| && s.fetches[k].call != e.call {
      StepIsGood(cfg, s, e);
      StillAwaited(cfg, s, Apply(cfg, s, e), e.call, k);
    }
  }

  lemma {:induction false} PendingAt(cfg: Config, states: seq<State>, events: seq<Event>, i: nat)
    requires Behavior(cfg, states, events) && i < |states|
    ensures PendingAwaited(states[i])
  {
    if i > 0 {
      PendingAt(cfg, states, events, i - 1);
      InvAt(cfg, states, events, i - 1);
      forall k | 0 <= k < |states[i].fetches| && states[i].fetches[k].outcome.Pending?
        ensures states[i].fetches[k].call in states[i].calls && WaitsFor(states[i].calls[states[i].fetches[k].call], k)
      {
        PendingStep(cfg, states[i - 1], events[i - 1], k);
      }
    }
  }

  /** No other call is under way. */
  ghost predicate Alone(s: State, t: nat) {
    forall u :: u in s.calls && u != t ==> s.calls[u].Ended?
  }

  ghost predicate NoCaFailed(s: State) {
    forall k: nat :: IsCaFetch(s, k) ==> !s.fetches[k].outcome.Failing?
  }

  /** When its response finds no other call under way, and no CA fetch has failed, a call verifies it with a CA. */
  lemma VerifiesWithCa(cfg: Config, states: seq<State>, events: seq<Event>, i: nat, t: nat)
    requires Behavior(cfg, states, events) && i < |events| && events[i].call == t && events[i].Resume?
    requires states[i].calls[t].Sending? && states[i + 1].calls[t].Verifying?
    requires Alone(states[i], t) && NoCaFailed(states[i])
    ensures states[i + 1].calls[t].ca.Some?
  {
    InvAt(cfg, states, events, i);
    PendingAt(cfg, states, events, i);
    assert PhaseFits(cfg, states[i], t, states[i].calls[t]);
    var k :| IsCaFetch(states[i], k);
    assert IsFetch(states[i], k, SigningCa, Succeeded);
  }

  /**
   Every response that reaches the caller: the request carried a JWT claiming the
   headers and the digest that were sent, and in P3 the response was verified with a
   CA that was really fetched and answers exactly that digest.
   */
  lemma ResponsesAreChecked(cfg: Config, states: seq<State>, events: seq<Event>, i: nat, t: nat)
    requires Behavior(cfg, states, events) && i < |states| && t in states[i].calls
    requires states[i].calls[t].Ended? && states[i].calls[t].answer.Response?
    ensures var m, proof := states[i].calls[t].answer.message, states[i].calls[t].answer.proof;
      && SignedRight(cfg, states[i], m)
      && (cfg.profile.P3? <==> proof.Some?)
      && (m.jwt.Some? <==> !cfg.profile.P1?)
      && (m.jwt.Some? ==>
            && IsFetch(states[i], m.jwt.value.credentials, SigningKey, Succeeded)
            && m.jwt.value == Claims(m.jwt.value.credentials, m.codiceUfficio, m.contentType, m.digest, m.userId)
            && m.digest == Some("SHA-256=" + cfg.sha256(Digested(m.body))))
      && (proof.Some? ==>
            IsFetch(states[i], proof.value.ca, SigningCa, Succeeded) && m.digest == Some(proof.value.digest))
  {
    InvAt(cfg, states, events, i);
    assert PhaseFits(cfg, states[i], t, states[i].calls[t]);
  }

  predicate Listed(body: Body) {
    body.Text? || body.Buffer? || body.ArrayBuffer? || body.Uint8Array?
  }

  lemma DigestInjective(cfg: Config, a: Bytes, b: Bytes)
    requires cfg.sha256(a) == cfg.sha256(b) ==> a == b
    ensures ComputeDigest(cfg, a) == ComputeDigest(cfg, b) <==> a == b
  {
    var prefix := "SHA-256=";
    assert ComputeDigest(cfg, a)[|prefix|..] == cfg.sha256(a) && ComputeDigest(cfg, b)[|prefix|..] == cfg.sha256(b);
  }

  /**
   The digest is that of the body sent if and only if the body is of one of the four kinds
   the code looks at, or is empty.
   */
  lemma DigestCoversIff(cfg: Config, body: Body)
    requires cfg.sha256(Digested(body)) == cfg.sha256(Sent(body)) ==> Digested(body) == Sent(body)
    ensures ComputeDigest(cfg, Digested(body)) == ComputeDigest(cfg, Sent(body)) <==> Listed(body) || Sent(body) == []
  {
    DigestInjective(cfg, Digested(body), Sent(body));
  }

  // --------------------------------------------------------------- the CA outage

  /** Credentials are cached until `until`, but no CA is known and no call is about to fetch one. */
  ghost predicate Stranded(s: State, until: nat) {
    && s.signingCa.None? && s.signing.Some? && s.signing.value.expiresAt == until
    && forall t :: t in s.calls ==> !s.calls[t].FetchingSigning? && !s.calls[t].FetchingCa?
  }

  lemma StrandedStep(cfg: Config, s: State, e: Event, until: nat)
    requires Enabled(s, e) && Stranded(s, until) && cfg.profile.P3? && Apply(cfg, s, e).now < until
    ensures Stranded(Apply(cfg, s, e), until)
  {
    match e
    case Call(_, _, _) =>
    case Resume(t, _) => assert !s.calls[t].FetchingSigning? && !s.calls[t].FetchingCa?;
  }

  lemma StrandedStepAt(cfg: Config, states: seq<State>, events: seq<Event>, j: nat, until: nat)
    requires Behavior(cfg, states, events) && j < |events| && cfg.profile.P3?
    ensures states[j].now <= states[j + 1].now
    ensures Stranded(states[j], until) && states[j + 1].now < until ==> Stranded(states[j + 1], until)
  {
    if Stranded(states[j], until) && states[j + 1].now < until {
      StrandedStep(cfg, states[j], events[j], until);
    }
  }

  lemma StrandedUntil(cfg: Config, states: seq<State>, events: seq<Event>, i: nat, j: nat, until: nat)
    requires Behavior(cfg, states, events) && i <= j < |states| && cfg.profile.P3?
    requires Stranded(states[i], until) && states[j].now < until
    ensures Stranded(states[j], until)
  {
    var clock := seq(|states|, k requires 0 <= k < |states| => states[k].now);
    var holds := seq(|states|, k requires 0 <= k < |states| => Stranded(states[k], until));
    forall k | 0 <= k < j
      ensures clock[k] <= clock[k + 1] && (holds[k] && clock[k + 1] < until ==> holds[k + 1])
    {
      StrandedStepAt(cfg, states, events, k, until);
    }
    LastsUntil(clock, holds, i, j, until);
  }

  /**
   The code stores credentials before it fetches the CA. Once they are cached
   without one, no call is ever answered before they expire, 24 hours on.
   */
  lemma NoAnswerUntilExpiry(cfg: Config, states: seq<State>, events: seq<Event>, i: nat, j: nat, until: nat, t: nat)
    requires Behavior(cfg, states, events) && i <= j < |states| && cfg.profile.P3?
    requires Stranded(states[i], until) && states[j].now < until && t in states[j].calls
    ensures states[j].calls[t].Ended? ==> states[j].calls[t].answer == Failed
  {
    StrandedUntil(cfg, states, events, i, j, until);
    InvAt(cfg, states, events, j);
    assert PhaseFits(cfg, states[j], t, states[j].calls[t]);
  }

  /** It happens: a first call gets its credentials and then fails to fetch the CA. */
  lemma FirstCallStrands(cfg: Config, request: Request) returns (states: seq<State>, events: seq<Event>)
    requires cfg.profile.P3? && Build(cfg, request).Some?
    ensures Behavior(cfg, states, events) && |events| == 3 && Stranded(states[3], CACHE_TTL)
  {
    var call := Call(0, request, 0);
    var yes, no := Resume(0, Reply(0, true, None)), Resume(0, Reply(0, false, None));
    var s0 := Init(0);
    var s1 := Apply(cfg, s0, call);
    var s2 := Apply(cfg, s1, yes);
    var s3 := Apply(cfg, s2, no);
    states, events := [s0, s1, s2, s3], [call, yes, no];
  }
}
