/** What the ModI caches guarantee, in every interleaving of calls. */
module ModiSafety {
  import opened Wrappers
  import opened ModiProtocol

  // ------------------------------------------------------------------ invariant

  predicate IsFetch(s: State, k: nat, kind: Kind, outcome: Outcome) {
    k < |s.fetches| && s.fetches[k].kind == kind && s.fetches[k].outcome == outcome
  }

  /** Fetch `k` is one that call `t` began and waits for. */
  predicate Awaits(s: State, t: nat, k: nat, kind: Kind) {
    IsFetch(s, k, kind, Pending) && s.fetches[k].call == t
  }

  /** What fetch `k` returned is not older than 24 hours at clock reading `at`. */
  predicate Fresh(s: State, k: nat, at: nat)
    requires k < |s.fetches|
  {
    s.fetches[k].begun <= at < s.fetches[k].begun + CACHE_TTL
  }

  /** P2 and P3 carry the digest; P1 carries none. */
  predicate DigestFits(cfg: Config, m: Message) {
    m.digest == if cfg.profile.P1? then None else Some("SHA-256=" + cfg.sha256(Digested(m.body)))
  }

  /** The claims are what is sent, each as what it is. */
  predicate ClaimsMatch(m: Message, claims: Claims) {
    && claims.userId == m.userId && claims.codiceUfficio == m.codiceUfficio
    && claims.contentType == m.contentType && claims.digest == m.digest
  }

  /** P2 and P3 carry a JWT that claims the very headers that are sent; P1 carries none. */
  predicate SignedRight(cfg: Config, s: State, m: Message) {
    && DigestFits(cfg, m)
    && (cfg.profile.P1? <==> m.jwt.None?)
    && (m.jwt.Some? ==> s.signing.Some?)
    && (m.jwt.Some? ==> ClaimsMatch(m, m.jwt.value) && IsFetch(s, m.jwt.value.credentials, SigningKey, Succeeded))
  }

  predicate PhaseFits(cfg: Config, s: State, t: nat, phase: Phase) {
    match phase
    case FetchingSigning(m, f) => Awaits(s, t, f, SigningKey) && DigestFits(cfg, m) && !cfg.profile.P1?
    case FetchingCa(m, own, f) =>
      && Awaits(s, t, f, SigningCa) && DigestFits(cfg, m) && cfg.profile.P3?
      && IsFetch(s, own, SigningKey, Succeeded) && s.signing.Some?
    case Signing(m, k, readAt, own) =>
      && IsFetch(s, k, SigningKey, Succeeded) && DigestFits(cfg, m) && !cfg.profile.P1? && s.signing.Some?
      && (own ==> Fresh(s, k, readAt)) && (cfg.profile.P2? ==> own)
    case FetchingTls(m, f) => Awaits(s, t, f, Tls) && SignedRight(cfg, s, m) && cfg.mtls
    case Sending(m, d, readAt) =>
      && SignedRight(cfg, s, m) && (d.Some? <==> cfg.mtls)
      && (d.Some? ==> IsFetch(s, d.value, Tls, Succeeded) && Fresh(s, d.value, readAt))
    case Verifying(m, ca, _) =>
      SignedRight(cfg, s, m) && cfg.profile.P3? && (ca.Some? ==> IsFetch(s, ca.value, SigningCa, Succeeded))
    case Ended(Failed) => true
    case Ended(Response(m, proof)) =>
      && SignedRight(cfg, s, m) && (cfg.profile.P3? <==> proof.Some?)
      && (proof.Some? ==> IsFetch(s, proof.value.ca, SigningCa, Succeeded) && m.digest == Some(proof.value.digest))
  }

  ghost predicate PhasesFit(cfg: Config, s: State) {
    forall t :: t in s.calls ==> PhaseFits(cfg, s, t, s.calls[t])
  }

  ghost predicate FetchesFit(s: State) {
    forall k :: 0 <= k < |s.fetches| ==> s.fetches[k].begun <= s.now
  }

  /** A cached value expires 24 hours after its fetch began. */
  predicate CachesFit(cfg: Config, s: State) {
    && (s.dispatcher.Some? ==> (s.dispatcher.value.dispatcher.Some? <==> cfg.mtls))
    && (s.dispatcher.Some? && s.dispatcher.value.dispatcher.Some? ==>
          && IsFetch(s, s.dispatcher.value.dispatcher.value, Tls, Succeeded)
          && s.dispatcher.value.expiresAt == s.fetches[s.dispatcher.value.dispatcher.value].begun + CACHE_TTL)
    && (s.signing.Some? ==>
          && IsFetch(s, s.signing.value.credentials, SigningKey, Succeeded)
          && s.signing.value.expiresAt == s.fetches[s.signing.value.credentials].begun + CACHE_TTL)
    && (s.signingCa.Some? ==> IsFetch(s, s.signingCa.value, SigningCa, Succeeded))
  }

  ghost predicate CaArrived(s: State) {
    exists k :: IsFetch(s, k, SigningCa, Succeeded)
  }

  predicate IsCaFetch(s: State, k: nat) {
    k < |s.fetches| && s.fetches[k].kind.SigningCa?
  }

  /**
   There is a CA exactly once a fetch of it has succeeded; P3 credentials are never cached
   without one being begun.
   */
  ghost predicate CaFits(cfg: Config, s: State) {
    && (s.signingCa.Some? <==> CaArrived(s))
    && (cfg.profile.P3? && s.signing.Some? ==> exists k :: IsCaFetch(s, k))
  }

  ghost predicate Inv(cfg: Config, s: State) {
    PhasesFit(cfg, s) && FetchesFit(s) && CachesFit(cfg, s) && CaFits(cfg, s)
  }

  // ------------------------------------------------------------------- one step

  /** What a step of call `t` can do to the fetches and to the clock. */
  ghost predicate Later(s: State, s': State, t: nat) {
    && s.now <= s'.now
    && |s.fetches| <= |s'.fetches|
    && (s.signing.Some? ==> s'.signing.Some?)
    && forall k :: 0 <= k < |s.fetches| ==>
      && s'.fetches[k].kind == s.fetches[k].kind
      && s'.fetches[k].call == s.fetches[k].call
      && s'.fetches[k].begun == s.fetches[k].begun
      && (s.fetches[k].outcome != Pending || s.fetches[k].call != t ==> s'.fetches[k].outcome == s.fetches[k].outcome)
  }

  lemma OthersKept(cfg: Config, s: State, s': State, t: nat, u: nat, phase: Phase)
    requires Later(s, s', t) && u != t && PhaseFits(cfg, s, u, phase)
    ensures PhaseFits(cfg, s', u, phase)
  {
  }

  /** The state without the calls: the caches, and what is known of them. */
  ghost predicate StoreFits(cfg: Config, s: State) {
    FetchesFit(s) && CachesFit(cfg, s) && CaFits(cfg, s)
  }

  /** A step of call `t` from `s` to `s'` that keeps everything in order. */
  ghost predicate GoodStep(cfg: Config, s: State, s': State, t: nat) {
    && Later(s, s', t)
    && StoreFits(cfg, s')
    && t in s'.calls && PhaseFits(cfg, s', t, s'.calls[t])
    && (forall u :: u in s'.calls && u != t ==> u in s.calls && s'.calls[u] == s.calls[u])
    && (forall u :: u in s.calls ==> u in s'.calls)
  }

  // The fetches change in two ways: one is begun, or one settles.

  lemma FetchBegun(cfg: Config, s: State, t: nat, kind: Kind)
    requires StoreFits(cfg, s)
    ensures var s' := s.(fetches := s.fetches + [Fetch(kind, t, s.now, Pending)]);
      && Later(s, s', t) && StoreFits(cfg, s') && Awaits(s', t, |s.fetches|, kind)
      && (kind.SigningCa? ==> IsCaFetch(s', |s.fetches|))
  {
    var s' := s.(fetches := s.fetches + [Fetch(kind, t, s.now, Pending)]);
    assert forall k :: 0 <= k < |s.fetches| ==> s'.fetches[k] == s.fetches[k];
    assert s'.fetches[|s.fetches|] == Fetch(kind, t, s.now, Pending);
    CaFitsKept(cfg, s, s', t);
  }

  lemma FetchSettled(cfg: Config, s: State, t: nat, f: nat, kind: Kind, ok: bool)
    requires StoreFits(cfg, s) && Awaits(s, t, f, kind) && !(kind.SigningCa? && ok)
    ensures var s' := Settle(s, f, ok);
      Later(s, s', t) && StoreFits(cfg, s') && IsFetch(s', f, kind, if ok then Succeeded else Failing)
  {
    CaFitsKept(cfg, s, Settle(s, f, ok), t);
  }

  /** The CA stays known, or unknown, while no CA fetch succeeds. */
  lemma CaFitsKept(cfg: Config, s: State, s': State, t: nat)
    requires Later(s, s', t) && CaFits(cfg, s) && s'.signing == s.signing && s'.signingCa == s.signingCa
    requires forall k :: IsFetch(s', k, SigningCa, Succeeded) ==> IsFetch(s, k, SigningCa, Succeeded)
    ensures CaFits(cfg, s')
  {
    if CaArrived(s) {
      CaArrivedKept(s, s', t);
    }
    if exists k :: IsCaFetch(s, k) {
      var k :| IsCaFetch(s, k);
      assert IsCaFetch(s', k);
    }
  }

  lemma CaArrivedKept(s: State, s': State, t: nat)
    requires Later(s, s', t) && CaArrived(s)
    ensures CaArrived(s')
  {
    var k :| IsFetch(s, k, SigningCa, Succeeded);
    assert IsFetch(s', k, SigningCa, Succeeded);
  }

  /** A call that only moves to another phase. */
  lemma Moved(cfg: Config, s: State, t: nat, phase: Phase)
    requires StoreFits(cfg, s) && PhaseFits(cfg, s, t, phase)
    ensures GoodStep(cfg, s, Goto(s, t, phase), t)
  {
    CaFitsKept(cfg, s, Goto(s, t, phase), t);
  }

  lemma EnterDispatcherFits(cfg: Config, s: State, t: nat, m: Message)
    requires StoreFits(cfg, s) && SignedRight(cfg, s, m)
    ensures GoodStep(cfg, s, EnterDispatcher(cfg, s, t, m), t)
  {
    if s.dispatcher.Some? && s.dispatcher.value.expiresAt > s.now {
      Moved(cfg, s, t, Sending(m, s.dispatcher.value.dispatcher, s.now));
    } else if !cfg.mtls {
      Moved(cfg, s, t, Sending(m, None, s.now));
      var s' := EnterDispatcher(cfg, s, t, m);
      CaFitsKept(cfg, s, s', t);
    } else {
      var s1 := s.(fetches := s.fetches + [Fetch(Tls, t, s.now, Pending)]);
      FetchBegun(cfg, s, t, Tls);
      Moved(cfg, s1, t, FetchingTls(m, |s.fetches|));
      assert EnterDispatcher(cfg, s, t, m) == Goto(s1, t, FetchingTls(m, |s.fetches|));
    }
  }

  lemma EnterSigningFits(cfg: Config, s: State, t: nat, m: Message)
    requires StoreFits(cfg, s) && DigestFits(cfg, m) && !cfg.profile.P1?
    ensures GoodStep(cfg, s, EnterSigning(s, t, m), t)
  {
    if s.signing.Some? && s.signing.value.expiresAt > s.now {
      Moved(cfg, s, t, Signing(m, s.signing.value.credentials, s.now, true));
    } else {
      var s1 := s.(fetches := s.fetches + [Fetch(SigningKey, t, s.now, Pending)]);
      FetchBegun(cfg, s, t, SigningKey);
      Moved(cfg, s1, t, FetchingSigning(m, |s.fetches|));
      assert EnterSigning(s, t, m) == Goto(s1, t, FetchingSigning(m, |s.fetches|));
    }
  }

  lemma BeginFits(cfg: Config, s: State, t: nat, request: Request)
    requires StoreFits(cfg, s)
    ensures GoodStep(cfg, s, Begin(cfg, s, t, request), t)
  {
    var built := Build(cfg, request);
    if built.None? {
      Moved(cfg, s, t, Ended(Failed));
    } else if cfg.profile.P1? {
      EnterDispatcherFits(cfg, s, t, built.value);
    } else {
      EnterSigningFits(cfg, s, t, built.value);
    }
  }

  lemma FetchFailed(cfg: Config, s: State, t: nat, f: nat, kind: Kind)
    requires StoreFits(cfg, s) && Awaits(s, t, f, kind)
    ensures GoodStep(cfg, s, Goto(Settle(s, f, false), t, Ended(Failed)), t)
  {
    FetchSettled(cfg, s, t, f, kind, false);
    Moved(cfg, Settle(s, f, false), t, Ended(Failed));
  }

  lemma SigningFetchedFits(cfg: Config, s: State, t: nat, m: Message, f: nat, ok: bool)
    requires StoreFits(cfg, s) && PhaseFits(cfg, s, t, FetchingSigning(m, f))
    ensures GoodStep(cfg, s, SigningFetched(cfg, s, t, m, f, ok), t)
  {
    if !ok {
      FetchFailed(cfg, s, t, f, SigningKey);
    } else if cfg.profile.P3? {
      SigningStoredThenCa(cfg, s, t, m, f);
    } else {
      SigningStored(cfg, s, t, m, f);
    }
  }

  /** In P2 the credentials are cached, and that is all. */
  lemma SigningStored(cfg: Config, s: State, t: nat, m: Message, f: nat)
    requires StoreFits(cfg, s) && PhaseFits(cfg, s, t, FetchingSigning(m, f)) && cfg.profile.P2?
    ensures GoodStep(cfg, s, SigningFetched(cfg, s, t, m, f, true), t)
  {
    FetchSettled(cfg, s, t, f, SigningKey, true);
    CaUntouched(cfg, Settle(s, f, true), SigningFetched(cfg, s, t, m, f, true));
  }

  /** In P3 a fetch of the CA begins as well. */
  lemma SigningStoredThenCa(cfg: Config, s: State, t: nat, m: Message, f: nat)
    requires StoreFits(cfg, s) && PhaseFits(cfg, s, t, FetchingSigning(m, f)) && cfg.profile.P3?
    ensures GoodStep(cfg, s, SigningFetched(cfg, s, t, m, f, true), t)
  {
    FetchSettled(cfg, s, t, f, SigningKey, true);
    var s1 := Settle(s, f, true);
    FetchBegun(cfg, s1, t, SigningCa);
    var s2 := s1.(fetches := s1.fetches + [Fetch(SigningCa, t, s.now, Pending)]);
    CaBegun(cfg, s2, SigningFetched(cfg, s, t, m, f, true), |s.fetches|);
  }

  lemma CaBegun(cfg: Config, s: State, s': State, k: nat)
    requires CaFits(cfg, s) && s'.fetches == s.fetches && s'.signingCa == s.signingCa && IsCaFetch(s, k)
    ensures CaFits(cfg, s')
  {
    CaSame(s, s');
    assert IsCaFetch(s', k);
  }

  lemma CaUntouched(cfg: Config, s: State, s': State)
    requires CaFits(cfg, s) && s'.fetches == s.fetches && s'.signingCa == s.signingCa && !cfg.profile.P3?
    ensures CaFits(cfg, s')
  {
    CaSame(s, s');
  }

  lemma CaSame(s: State, s': State)
    requires s'.fetches == s.fetches
    ensures CaArrived(s) <==> CaArrived(s')
  {
    if CaArrived(s) {
      var k :| IsFetch(s, k, SigningCa, Succeeded);
      assert IsFetch(s', k, SigningCa, Succeeded);
    }
    if CaArrived(s') {
      var k :| IsFetch(s', k, SigningCa, Succeeded);
      assert IsFetch(s, k, SigningCa, Succeeded);
    }
  }

  lemma CaFetchedFits(cfg: Config, s: State, t: nat, m: Message, own: nat, f: nat, ok: bool)
    requires StoreFits(cfg, s) && PhaseFits(cfg, s, t, FetchingCa(m, own, f))
    ensures GoodStep(cfg, s, CaFetched(s, t, m, own, f, ok), t)
  {
    if !ok {
      FetchFailed(cfg, s, t, f, SigningCa);
    } else {
      var s' := CaFetched(s, t, m, own, f, true);
      assert IsFetch(s', f, SigningCa, Succeeded) && IsCaFetch(s', f);
    }
  }

  lemma TlsFetchedFits(cfg: Config, s: State, t: nat, m: Message, f: nat, ok: bool)
    requires StoreFits(cfg, s) && PhaseFits(cfg, s, t, FetchingTls(m, f))
    ensures GoodStep(cfg, s, TlsFetched(s, t, m, f, ok), t)
  {
    if !ok {
      FetchFailed(cfg, s, t, f, Tls);
    } else {
      FetchSettled(cfg, s, t, f, Tls, true);
      var s1 := Settle(s, f, true);
      Moved(cfg, s1, t, Sending(m, Some(f), s.fetches[f].begun));
      var s' := TlsFetched(s, t, m, f, true);
      CaFitsKept(cfg, s1, s', t);
    }
  }

  lemma SignatureMadeFits(cfg: Config, s: State, t: nat, m: Message, k: nat, ok: bool)
    requires StoreFits(cfg, s) && IsFetch(s, k, SigningKey, Succeeded)
    requires DigestFits(cfg, m) && !cfg.profile.P1? && s.signing.Some?
    ensures GoodStep(cfg, s, SignatureMade(cfg, s, t, m, k, ok), t)
  {
    if ok {
      EnterDispatcherFits(cfg, s, t, Sign(m, k));
    } else {
      Moved(cfg, s, t, Ended(Failed));
    }
  }

  lemma RespondedFits(cfg: Config, s: State, t: nat, m: Message, r: Reply)
    requires StoreFits(cfg, s) && SignedRight(cfg, s, m)
    ensures GoodStep(cfg, s, Responded(cfg, s, t, m, r), t)
  {
    if !r.ok || (cfg.profile.P3? && r.digest.None?) {
      Moved(cfg, s, t, Ended(Failed));
    } else if cfg.profile.P3? {
      Moved(cfg, s, t, Verifying(m, s.signingCa, r.digest.value));
    } else {
      Moved(cfg, s, t, Ended(Response(m, None)));
    }
  }

  lemma VerifiedFits(cfg: Config, s: State, t: nat, m: Message, ca: Option<nat>, digest: string, ok: bool)
    requires StoreFits(cfg, s) && PhaseFits(cfg, s, t, Verifying(m, ca, digest))
    ensures GoodStep(cfg, s, Verified(s, t, m, ca, digest, ok), t)
  {
    Moved(cfg, s, t,
      Ended(if ok && ca.Some? && m.digest == Some(digest) then Response(m, Some(Proof(ca.value, digest))) else Failed));
  }

  lemma ProceedFits(cfg: Config, s: State, t: nat, r: Reply)
    requires StoreFits(cfg, s) && Enabled(s, Resume(t, r)) && PhaseFits(cfg, s, t, s.calls[t])
    ensures GoodStep(cfg, s, Proceed(cfg, s, t, r), t)
  {
    match s.calls[t]
    case FetchingSigning(m, f) => SigningFetchedFits(cfg, s, t, m, f, r.ok);
    case FetchingCa(m, own, f) => CaFetchedFits(cfg, s, t, m, own, f, r.ok);
    case Signing(m, k, _, _) => SignatureMadeFits(cfg, s, t, m, k, r.ok);
    case FetchingTls(m, f) => TlsFetchedFits(cfg, s, t, m, f, r.ok);
    case Sending(m, _, _) => RespondedFits(cfg, s, t, m, r);
    case Verifying(m, ca, digest) => VerifiedFits(cfg, s, t, m, ca, digest, r.ok);
  }

  lemma WaitedFits(cfg: Config, s: State, t: nat, elapsed: nat)
    requires StoreFits(cfg, s)
    ensures StoreFits(cfg, Waited(s, elapsed)) && Later(s, Waited(s, elapsed), t)
    ensures t in s.calls && PhaseFits(cfg, s, t, s.calls[t]) ==> PhaseFits(cfg, Waited(s, elapsed), t, s.calls[t])
  {
    CaFitsKept(cfg, s, Waited(s, elapsed), t);
  }

  lemma StepIsGood(cfg: Config, s: State, e: Event)
    requires StoreFits(cfg, s) && Enabled(s, e) && (e.Resume? ==> PhaseFits(cfg, s, e.call, s.calls[e.call]))
    ensures GoodStep(cfg, s, Apply(cfg, s, e), e.call)
  {
    match e
    case Call(t, request, elapsed) =>
      WaitedFits(cfg, s, t, elapsed);
      BeginFits(cfg, Waited(s, elapsed), t, request);
    case Resume(t, r) =>
      WaitedFits(cfg, s, t, r.elapsed);
      ProceedFits(cfg, Waited(s, r.elapsed), t, r);
  }

  lemma InvStep(cfg: Config, s: State, e: Event)
    requires Inv(cfg, s) && Enabled(s, e)
    ensures Inv(cfg, Apply(cfg, s, e))
  {
    var s' := Apply(cfg, s, e);
    StepIsGood(cfg, s, e);
    forall u | u in s'.calls
      ensures PhaseFits(cfg, s', u, s'.calls[u])
    {
      if u != e.call {
        OthersKept(cfg, s, s', e.call, u, s.calls[u]);
      }
    }
  }

  lemma {:induction false} InvAt(cfg: Config, states: seq<State>, events: seq<Event>, i: nat)
    requires Behavior(cfg, states, events) && i < |states|
    ensures Inv(cfg, states[i])
  {
    if i > 0 {
      InvAt(cfg, states, events, i - 1);
      InvStep(cfg, states[i - 1], events[i - 1]);
    }
  }
}
