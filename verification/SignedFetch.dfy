/**
 The object behind `createSignedFetch`: its three cache variables, and its functions
 as methods that run uninterrupted. Each is proved to do what an uninterrupted run
 of `ModiProtocol` does, so what `ModiCaches` proves of runs holds of this code.
 */
module SignedFetch {
  import opened Wrappers
  import opened ModiProtocol
  import opened ModiRequests

  /** How each awaited operation of one call comes out, and how long it takes. */
  datatype Replies = Replies(signing: Reply, ca: Reply, jwt: Reply, tls: Reply, response: Reply, verification: Reply)
  {
    function For(phase: Phase): Reply {
      match phase
      case FetchingSigning(_, _) => signing
      case FetchingCa(_, _, _) => ca
      case Signing(_, _, _, _) => jwt
      case FetchingTls(_, _) => tls
      case Sending(_, _, _) => response
      case _ => verification
    }
  }

  function Left(phase: Phase): nat {
    match phase
    case FetchingSigning(_, _) => 6
    case FetchingCa(_, _, _) => 5
    case Signing(_, _, _, _) => 4
    case FetchingTls(_, _) => 3
    case Sending(_, _, _) => 2
    case Verifying(_, _, _) => 1
    case Ended(_) => 0
  }

  predicate Ready(s: State, t: nat) {
    t in s.calls && (s.calls[t].Ended? || Enabled(s, Resume(t, Reply(0, true, None))))
  }

  /** The state once call `t` has run to its end and nothing else has. */
  function Serve(cfg: Config, s: State, t: nat, replies: Replies): (s': State)
    requires Ready(s, t)
    ensures t in s'.calls && s'.calls[t].Ended?
    decreases Left(s.calls[t])
  {
    if s.calls[t].Ended? then s
    else
      var r := replies.For(s.calls[t]);
      Serve(cfg, Apply(cfg, s, Resume(t, r)), t, replies)
  }

  /** Serving a call is a run of the protocol. */
  lemma {:induction false} ServeIsRun(cfg: Config, states: seq<State>, events: seq<Event>, t: nat, replies: Replies)
    returns (states': seq<State>, events': seq<Event>)
    requires Behavior(cfg, states, events) && Ready(states[|events|], t)
    ensures Behavior(cfg, states', events') && states <= states'
    ensures states'[|events'|] == Serve(cfg, states[|events|], t, replies)
    decreases Left(states[|events|].calls[t])
  {
    var s := states[|events|];
    if s.calls[t].Ended? {
      states', events' := states, events;
    } else {
      var r := replies.For(s.calls[t]);
      var longer, steps := states + [Apply(cfg, s, Resume(t, r))], events + [Resume(t, r)];
      states', events' := ServeIsRun(cfg, longer, steps, t, replies);
    }
  }

  lemma ServeSteps(cfg: Config, s: State, t: nat, replies: Replies)
    requires t in s.calls && Enabled(s, Resume(t, replies.For(s.calls[t])))
    ensures var s' := Apply(cfg, s, Resume(t, replies.For(s.calls[t])));
      Ready(s', t) && Ready(s, t) && Serve(cfg, s, t, replies) == Serve(cfg, s', t, replies)
  {
  }

  lemma SigningServed(cfg: Config, s: State, t: nat, m: Message, f: nat, replies: Replies) returns (s': State)
    requires t in s.calls && s.calls[t] == FetchingSigning(m, f) && f < |s.fetches|
    ensures s' == SigningFetched(cfg, Waited(s, replies.signing.elapsed), t, m, f, replies.signing.ok)
    ensures Ready(s, t) && Ready(s', t) && Serve(cfg, s, t, replies) == Serve(cfg, s', t, replies)
  {
    s' := Apply(cfg, s, Resume(t, replies.signing));
    ServeSteps(cfg, s, t, replies);
  }

  /** Where a call was before it looks a dispatcher up does not matter. */
  lemma EntersAlike(cfg: Config, s: State, s': State, t: nat, m: Message)
    requires s' == s.(calls := s'.calls) && s.calls.Keys == s'.calls.Keys == {t}
    ensures EnterDispatcher(cfg, s, t, m) == EnterDispatcher(cfg, s', t, m)
  {
  }

  // What an uninterrupted call comes to, told by what is cached and how each awaited operation comes out.

  /** The call gets credentials: they are cached, or they and in P3 the CA can be fetched. */
  predicate SigningReady(cfg: Config, cached: Option<CachedSigning>, now: nat, replies: Replies) {
    (cached.Some? && cached.value.expiresAt > now) || (replies.signing.ok && (cfg.profile.P3? ==> replies.ca.ok))
  }

  /** How long that takes. */
  function SigningTakes(cfg: Config, cached: Option<CachedSigning>, now: nat, replies: Replies): nat {
    if cached.Some? && cached.value.expiresAt > now then 0
    else replies.signing.elapsed + if replies.signing.ok && cfg.profile.P3? then replies.ca.elapsed else 0
  }

  /** A CA is known after that. */
  predicate CaKnown(cfg: Config, cached: Option<CachedSigning>, ca: Option<nat>, now: nat, replies: Replies) {
    ca.Some? || (!(cached.Some? && cached.value.expiresAt > now) && cfg.profile.P3? && replies.signing.ok &&
      replies.ca.ok)
  }

  /** The call gets a dispatcher, or does without one. */
  predicate DispatcherReady(cfg: Config, cached: Option<CachedDispatcher>, now: nat, replies: Replies) {
    (cached.Some? && cached.value.expiresAt > now) || !cfg.mtls || replies.tls.ok
  }

  /** The response comes, and in P3 its JWT is there, verifies with a CA, and answers the digest sent. */
  predicate Accepted(cfg: Config, caKnown: bool, digest: Option<string>, replies: Replies) {
    && replies.response.ok
    && (cfg.profile.P3? ==>
          replies.response.digest.Some? && replies.verification.ok && caKnown && digest == replies.response.digest)
  }

  class SignedFetch {
    const cfg: Config
    var now: nat
    var cachedDispatcher: Option<CachedDispatcher>
    var cachedSigning: Option<CachedSigning>
    var cachedSigningCa: Option<nat>
    var fetches: seq<Fetch>  // every fetch from the credential provider so far

    /** The state with one call in it. */
    function With(t: nat, phase: Phase): State
      reads this
    {
      State(now, cachedDispatcher, cachedSigning, cachedSigningCa, fetches, map[t := phase])
    }

    /** The state with one call in it, which has just begun a fetch. */
    function Fetching(t: nat, phase: Phase, kind: Kind): State
      reads this
    {
      With(t, phase).(fetches := fetches + [ModiProtocol.Fetch.Fetch(kind, t, now, Pending)])
    }

    /** A fetch from the credential provider: it takes its time, and then succeeds or fails. */
    method FetchSecret(t: nat, kind: Kind, r: Reply) returns (fetch: nat)
      modifies this`now, this`fetches
      ensures now == old(now) + r.elapsed
      ensures fetch == |old(fetches)|
      ensures fetches ==
        old(fetches) + [ModiProtocol.Fetch.Fetch(kind, t, old(now), if r.ok then Succeeded else Failing)]
    {
      fetch := |fetches|;
      fetches := fetches + [ModiProtocol.Fetch.Fetch(kind, t, now, if r.ok then Succeeded else Failing)];
      now := now + r.elapsed;
    }

    /** The CA, fetched after the credentials were cached. */
    method RefreshCa(t: nat, m: Message, signing: nat, replies: Replies) returns (ok: bool)
      requires cachedSigning.Some? && signing < |fetches| && cachedSigning.value.credentials == signing
      modifies this`now, this`fetches, this`cachedSigningCa
      ensures |fetches| == |old(fetches)| + 1 && fetches[..|old(fetches)|] == old(fetches)
      ensures var before := old(Fetching(t, FetchingCa(m, signing, |fetches|), SigningCa));
        var after := With(t, if ok then Signing(m, signing, old(fetches)[signing].begun, true) else Ended(Failed));
        Ready(before, t) && Ready(after, t) && Serve(cfg, before, t, replies) == Serve(cfg, after, t, replies)
      ensures ok == replies.ca.ok && now == old(now) + replies.ca.elapsed
      ensures cachedSigningCa.Some? <==> old(cachedSigningCa).Some? || ok
      ensures !ok ==> cachedSigningCa == old(cachedSigningCa)
    {
      ghost var before := Fetching(t, FetchingCa(m, signing, |fetches|), SigningCa);
      ServeSteps(cfg, before, t, replies);
      var fetch := FetchSecret(t, SigningCa, replies.ca);
      assert Settle(before, fetch, replies.ca.ok).fetches == fetches;
      ok := replies.ca.ok;
      if ok {
        cachedSigningCa := Some(fetch);
      }
      assert Apply(cfg, before, Resume(t, replies.ca)) ==
        With(t, if ok then Signing(m, signing, old(fetches)[signing].begun, true) else Ended(Failed));
    }

    /** New credentials, cached as soon as they are there. */
    method CacheSigning(t: nat, m: Message, replies: Replies) returns (fetched: Option<nat>)
      modifies this`now, this`fetches, this`cachedSigning
      ensures var before := old(Fetching(t, FetchingSigning(m, |fetches|), SigningKey));
        var after :=
          if fetched.None? then With(t, Ended(Failed))
          else if cfg.profile.P3? then Fetching(t, FetchingCa(m, fetched.value, |fetches|), SigningCa)
          else With(t, Signing(m, fetched.value, old(now), true));
        Ready(before, t) && Ready(after, t) && Serve(cfg, before, t, replies) == Serve(cfg, after, t, replies)
      ensures now == old(now) + replies.signing.elapsed
      ensures fetched == if replies.signing.ok then Some(|old(fetches)|) else None
      ensures |fetches| == |old(fetches)| + 1 && fetches[|old(fetches)|].begun == old(now)
      ensures cachedSigning ==
        if fetched.Some? then Some(CachedSigning(fetched.value, old(now) + 86_400_000)) else old(cachedSigning)
    {
      var reading := now;
      ghost var before := Fetching(t, FetchingSigning(m, |fetches|), SigningKey);
      ghost var next := SigningServed(cfg, before, t, m, |fetches|, replies);
      var fetch := FetchSecret(t, SigningKey, replies.signing);
      assert Settle(before, fetch, replies.signing.ok).fetches == fetches;
      if !replies.signing.ok {
        assert next == With(t, Ended(Failed));
        return None;
      }
      cachedSigning := Some(CachedSigning(fetch, reading + CACHE_TTL));
      fetched := Some(fetch);
      if cfg.profile.P3? {
        assert next == Fetching(t, FetchingCa(m, fetch, |fetches|), SigningCa);
      } else {
        assert next == With(t, Signing(m, fetch, reading, true));
      }
    }

    /** New credentials, and in P3 the CA alongside. */
    method RefreshSigning(t: nat, m: Message, replies: Replies) returns (credentials: Option<nat>)
      modifies this`now, this`fetches, this`cachedSigning, this`cachedSigningCa
      ensures var before := old(Fetching(t, FetchingSigning(m, |fetches|), SigningKey));
        var after := With(t, if credentials.None? then Ended(Failed)
          else Signing(m, credentials.value, old(now), true));
        Ready(before, t) && Ready(after, t) && Serve(cfg, before, t, replies) == Serve(cfg, after, t, replies)
      ensures credentials.Some? <==> replies.signing.ok && (cfg.profile.P3? ==> replies.ca.ok)
      ensures now == old(now) + replies.signing.elapsed +
        if replies.signing.ok && cfg.profile.P3? then replies.ca.elapsed else 0
      ensures cachedSigningCa.Some? <==> old(cachedSigningCa).Some? || (cfg.profile.P3? && credentials.Some?)
      // Credentials that were fetched are cached for 24 hours, whatever comes of the CA.
      ensures if replies.signing.ok
              then cachedSigning.Some? && cachedSigning.value.expiresAt == old(now) + 86_400_000
              else cachedSigning == old(cachedSigning)
    {
      var fetched := CacheSigning(t, m, replies);
      if fetched.None? {
        return None;
      }
      if !cfg.profile.P3? {
        return fetched;
      }
      var ok := RefreshCa(t, m, fetched.value, replies);
      return if ok then Some(cachedSigning.value.credentials) else None;
    }

    method GetSigningCredentials(t: nat, m: Message, replies: Replies)
      returns (credentials: Option<nat>, ghost readAt: nat)
      modifies this`now, this`fetches, this`cachedSigning, this`cachedSigningCa
      ensures var before := EnterSigning(old(With(t, Ended(Failed))), t, m);
        var after := With(t, if credentials.None? then Ended(Failed) else Signing(m, credentials.value, readAt, true));
        Ready(before, t) && Ready(after, t) && Serve(cfg, before, t, replies) == Serve(cfg, after, t, replies)
      ensures credentials.Some? <==> SigningReady(cfg, old(cachedSigning), old(now), replies)
      ensures now == old(now) + SigningTakes(cfg, old(cachedSigning), old(now), replies)
      ensures credentials.Some? ==>
        (cachedSigningCa.Some? <==> CaKnown(cfg, old(cachedSigning), old(cachedSigningCa), old(now), replies))
      ensures old(cachedSigning).Some? && old(cachedSigning).value.expiresAt > old(now) ==>
        credentials == Some(old(cachedSigning).value.credentials) && fetches == old(fetches)
    {
      readAt := now;
      ghost var before := EnterSigning(With(t, Ended(Failed)), t, m);
      if cachedSigning.Some? && cachedSigning.value.expiresAt > now {
        assert before == With(t, Signing(m, cachedSigning.value.credentials, now, true));
        return Some(cachedSigning.value.credentials), readAt;
      }
      assert before == Fetching(t, FetchingSigning(m, |fetches|), SigningKey);
      credentials := RefreshSigning(t, m, replies);
    }

    /** A new dispatcher from new mTLS material. */
    method RefreshDispatcher(t: nat, m: Message, replies: Replies) returns (dispatcher: Option<nat>)
      modifies this`now, this`fetches, this`cachedDispatcher
      ensures var before := old(Fetching(t, FetchingTls(m, |fetches|), Tls));
        var after := With(t, if dispatcher.None? then Ended(Failed) else Sending(m, dispatcher, old(now)));
        Ready(before, t) && Ready(after, t) && Serve(cfg, before, t, replies) == Serve(cfg, after, t, replies)
      ensures dispatcher.Some? <==> replies.tls.ok
      ensures if replies.tls.ok
              then cachedDispatcher == Some(CachedDispatcher(dispatcher, old(now) + 86_400_000))
              else cachedDispatcher == old(cachedDispatcher)
    {
      var reading := now;
      ghost var before := Fetching(t, FetchingTls(m, |fetches|), Tls);
      ServeSteps(cfg, before, t, replies);
      ghost var next := Apply(cfg, before, Resume(t, replies.tls));
      var fetch := FetchSecret(t, Tls, replies.tls);
      assert Settle(before, fetch, replies.tls.ok).fetches == fetches;
      if !replies.tls.ok {
        assert next == With(t, Ended(Failed));
        return None;
      }
      cachedDispatcher := Some(CachedDispatcher(Some(fetch), reading + CACHE_TTL));
      assert next == With(t, Sending(m, Some(fetch), reading));
      return Some(fetch);
    }

    /** The dispatcher to send with, `None` inside for none; nothing at all if the material could not be fetched. */
    method GetDispatcher(t: nat, m: Message, replies: Replies)
      returns (dispatcher: Option<Option<nat>>, ghost readAt: nat)
      modifies this`now, this`fetches, this`cachedDispatcher
      ensures var before := EnterDispatcher(cfg, old(With(t, Ended(Failed))), t, m);
        var after := With(t, if dispatcher.None? then Ended(Failed) else Sending(m, dispatcher.value, readAt));
        Ready(before, t) && Ready(after, t) && Serve(cfg, before, t, replies) == Serve(cfg, after, t, replies)
      ensures dispatcher.Some? <==> DispatcherReady(cfg, old(cachedDispatcher), old(now), replies)
      ensures old(cachedDispatcher).Some? && old(cachedDispatcher).value.expiresAt > old(now) ==>
        dispatcher == Some(old(cachedDispatcher).value.dispatcher) && fetches == old(fetches)
      // That there is none is cached too.
      ensures !cfg.mtls && !(old(cachedDispatcher).Some? && old(cachedDispatcher).value.expiresAt > old(now)) ==>
        cachedDispatcher == Some(CachedDispatcher(None, old(now) + 86_400_000)) && fetches == old(fetches)
    {
      readAt := now;
      ghost var before := EnterDispatcher(cfg, With(t, Ended(Failed)), t, m);
      if cachedDispatcher.Some? && cachedDispatcher.value.expiresAt > now {
        assert before == With(t, Sending(m, cachedDispatcher.value.dispatcher, now));
        return Some(cachedDispatcher.value.dispatcher), readAt;
      }
      if !cfg.mtls {
        cachedDispatcher := Some(CachedDispatcher(None, now + CACHE_TTL));
        assert before == With(t, Sending(m, None, now));
        return Some(None), readAt;
      }
      assert before == Fetching(t, FetchingTls(m, |fetches|), Tls);
      var fetched := RefreshDispatcher(t, m, replies);
      dispatcher := if fetched.None? then None else Some(fetched);
    }

    /** The check of a P3 response. */
    method Verify(t: nat, m: Message, ca: Option<nat>, digest: string, replies: Replies) returns (answer: Answer)
      modifies this`now
      ensures var before := old(With(t, Verifying(m, ca, digest)));
        Ready(before, t) && With(t, Ended(answer)) == Serve(cfg, before, t, replies)
      ensures answer ==
        if replies.verification.ok && ca.Some? && m.digest == Some(digest)
          then Response(m, Some(Proof(ca.value, digest)))
        else Failed
    {
      ghost var before := With(t, Verifying(m, ca, digest));
      ServeSteps(cfg, before, t, replies);
      now := now + replies.verification.elapsed;
      if replies.verification.ok && ca.Some? && m.digest == Some(digest) {
        answer := Response(m, Some(Proof(ca.value, digest)));
      } else {
        answer := Failed;
      }
      assert Apply(cfg, before, Resume(t, replies.verification)) == With(t, Ended(answer));
    }

    /** The response, and in P3 its check. */
    method Receive(t: nat, m: Message, dispatcher: Option<nat>, ghost readAt: nat, replies: Replies)
      returns (answer: Answer)
      modifies this`now
      ensures var before := old(With(t, Sending(m, dispatcher, readAt)));
        Ready(before, t) && With(t, Ended(answer)) == Serve(cfg, before, t, replies)
      ensures answer.Response? <==> Accepted(cfg, cachedSigningCa.Some?, m.digest, replies)
      ensures answer.Response? ==> answer.message == m && (answer.proof.Some? <==> cfg.profile.P3?)
    {
      ghost var before := With(t, Sending(m, dispatcher, readAt));
      ServeSteps(cfg, before, t, replies);
      ghost var next := Apply(cfg, before, Resume(t, replies.response));
      now := now + replies.response.elapsed;
      if !replies.response.ok {
        assert next == With(t, Ended(Failed));
        return Failed;
      }
      if !cfg.profile.P3? {
        assert next == With(t, Ended(Response(m, None)));
        return Response(m, None);
      }
      if replies.response.digest.None? {
        assert next == With(t, Ended(Failed));
        return Failed;
      }
      assert next == With(t, Verifying(m, cachedSigningCa, replies.response.digest.value));
      answer := Verify(t, m, cachedSigningCa, replies.response.digest.value, replies);
    }

    /** The request from its dispatcher on. */
    method Send(t: nat, m: Message, replies: Replies) returns (answer: Answer)
      modifies this
      ensures var before := EnterDispatcher(cfg, old(With(t, Ended(Failed))), t, m);
        Ready(before, t) && With(t, Ended(answer)) == Serve(cfg, before, t, replies)
      ensures answer.Response? <==>
        && DispatcherReady(cfg, old(cachedDispatcher), old(now), replies)
        && Accepted(cfg, old(cachedSigningCa).Some?, m.digest, replies)
      ensures answer.Response? ==> answer.message == m
    {
      var dispatcher, readAt := GetDispatcher(t, m, replies);
      if dispatcher.None? {
        return Failed;
      }
      answer := Receive(t, m, dispatcher.value, readAt, replies);
    }

    /** The request JWT, made with the credentials the caches gave. */
    method SignRequest(t: nat, m: Message, credentials: nat, ghost readAt: nat, replies: Replies)
      returns (signed: Option<Message>)
      modifies this`now
      ensures signed.Some? ==>
        signed.value == m.(jwt := Some(Claims(credentials, m.codiceUfficio, m.contentType, m.digest, m.userId)))
      ensures (signed.Some? <==> replies.jwt.ok) && now == old(now) + replies.jwt.elapsed
      ensures var before := old(With(t, Signing(m, credentials, readAt, true)));
        var after := With(t, Ended(Failed));
        Ready(before, t) && Serve(cfg, before, t, replies) ==
          if signed.None? then after
          else
            var entered := EnterDispatcher(cfg, after, t, signed.value);
            Serve(cfg, entered, t, replies)
    {
      ghost var before := With(t, Signing(m, credentials, readAt, true));
      ServeSteps(cfg, before, t, replies);
      now := now + replies.jwt.elapsed;
      ghost var next := Apply(cfg, before, Resume(t, replies.jwt));
      if !replies.jwt.ok {
        assert next == With(t, Ended(Failed));
        return None;
      }
      EntersAlike(cfg, Waited(before, replies.jwt.elapsed), With(t, Ended(Failed)), t, Sign(m, credentials));
      return Some(Sign(m, credentials));
    }

    /** A P2 or P3 request from its signing on. */
    method SignAndSend(t: nat, m: Message, replies: Replies) returns (answer: Answer)
      modifies this
      ensures var before := EnterSigning(old(With(t, Ended(Failed))), t, m);
        Ready(before, t) && With(t, Ended(answer)) == Serve(cfg, before, t, replies)
      ensures answer.Response? <==>
        && SigningReady(cfg, old(cachedSigning), old(now), replies) && replies.jwt.ok
        && DispatcherReady(cfg, old(cachedDispatcher),
             old(now) + SigningTakes(cfg, old(cachedSigning), old(now), replies) + replies.jwt.elapsed, replies)
        && Accepted(cfg, CaKnown(cfg, old(cachedSigning), old(cachedSigningCa), old(now), replies), m.digest, replies)
      ensures answer.Response? ==> answer.message == m.(jwt := answer.message.jwt) && answer.message.jwt.Some?
      ensures answer.Response? ==>
        var claims := answer.message.jwt.value;
        claims == Claims(claims.credentials, m.codiceUfficio, m.contentType, m.digest, m.userId)
    {
      var credentials, readAt := GetSigningCredentials(t, m, replies);
      if credentials.None? {
        return Failed;
      }
      var signed := SignRequest(t, m, credentials.value, readAt, replies);
      if signed.None? {
        return Failed;
      }
      answer := Send(t, signed.value, replies);
    }

    /** The call: its headers, its digest, and then its profile's steps. */
    method Call(t: nat, request: Request, replies: Replies) returns (answer: Answer)
      modifies this
      ensures var before := Begin(cfg, old(With(t, Ended(Failed))), t, request);
        Ready(before, t) && With(t, Ended(answer)) == Serve(cfg, before, t, replies)
      // What is answered is an answer to the caller's own request.
      ensures answer.Response? ==> Carries(cfg, request, answer.message)
      ensures answer.Response? ==>
        && answer.message.digest ==
             (if cfg.profile.P1? then None else Some("SHA-256=" + cfg.sha256(Digested(request.body))))
        && (answer.message.jwt.Some? <==> !cfg.profile.P1?)
      // And it is answered exactly if there is a user and everything it waits for succeeds.
      ensures cfg.profile.P1? ==>
        (answer.Response? <==>
           && UserGiven(request) && DispatcherReady(cfg, old(cachedDispatcher), old(now), replies)
           && replies.response.ok)
      ensures !cfg.profile.P1? ==>
        (answer.Response? <==>
           && UserGiven(request) && SigningReady(cfg, old(cachedSigning), old(now), replies) && replies.jwt.ok
           && DispatcherReady(cfg, old(cachedDispatcher),
                old(now) + SigningTakes(cfg, old(cachedSigning), old(now), replies) + replies.jwt.elapsed, replies)
           && Accepted(cfg, CaKnown(cfg, old(cachedSigning), old(cachedSigningCa), old(now), replies),
                Some("SHA-256=" + cfg.sha256(Digested(request.body))), replies))
    {
      var contentType := if request.contentType.Some? then request.contentType.value else "application/json";
      if request.userId.None? || request.userId.value == "" {
        return Failed;
      }
      var codiceUfficio :=
        if request.codiceUfficio.Some? then request.codiceUfficio.value else cfg.defaultCodiceUfficio;
      var digest := None;
      if cfg.profile.P2? || cfg.profile.P3? {
        digest := Some(ComputeDigest(cfg, Digested(request.body)));
      }
      var m := Message(request.userId.value, codiceUfficio, contentType, request.body, digest, None);
      if cfg.profile.P1? {
        answer := Send(t, m, replies);
      } else {
        answer := SignAndSend(t, m, replies);
      }
    }
  }
}
