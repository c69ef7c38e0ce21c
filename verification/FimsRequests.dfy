/**
 What the caller of each FIMS use case is given, over every run of overlapping
 requests: whose data a session holds, where a redirect leads, and which token an
 exchange answers.
 */
module FimsRequests {
  import opened Histories
  import opened Wrappers
  import opened FimsProtocol
  import opened FimsSafety
  import opened FimsLogin

  // ---------------------------------------------------------------- from call to answer

  /** The session that a test user asks for. */
  function TestSession(cfg: Config, fiscalCode: string, familyName: string, givenName: string): Session {
    Session(cfg.Upper(fiscalCode), familyName, givenName)
  }

  predicate RefusedOr(phase: Phase, answer: Answer) {
    phase.Ended? && (phase.answer == Refused || phase.answer == answer)
  }

  /** Where a call of `InitiateAuth` can be. */
  predicate Initiating(t: nat, phase: Phase) {
    || phase == StoringNonce(Id(t, 0), Id(t, 1))
    || phase == FetchingUrl(Id(t, 0), Id(t, 1))
    || RefusedOr(phase, AuthorizationUrl(Id(t, 0), Id(t, 1)))
  }

  /** Where a callback can be, once its issuer was accepted. */
  predicate LoggingIn(t: nat, callback: Callback, phase: Phase) {
    match phase
    case ReadingNonce(c) => c == callback
    case DroppingNonce(c, _) => c == callback
    case Exchanging(c, _) => c == callback
    case AuditingExchange(c, _) => c == callback
    case Verifying(c, _) => c == callback && c.headers
    case AuditingLollipop(c, _) => c == callback
    case StoringSession(_, token, id) => token == Id(t, 0) && id == Id(t, 1)
    case StoringOtp(token, id) => token == Id(t, 0) && id == Id(t, 1)
    case Ended(_) => RefusedOr(phase, Redirect(Id(t, 1)))
    case _ => false
  }

  /** Where the call of a test user can be. */
  predicate Creating(t: nat, fiscalCode: string, session: Session, phase: Phase) {
    || phase == AuditingTest(fiscalCode, session)
    || phase == StoringSession(session, Id(t, 1), Id(t, 2))
    || phase == StoringOtp(Id(t, 1), Id(t, 2))
    || RefusedOr(phase, Redirect(Id(t, 2)))
  }

  /** Where an exchange can be. */
  predicate Redeeming(id: Id, phase: Phase) {
    match phase
    case ReadingOtp(i) => i == id
    case DroppingOtp(i, token) => i == id && Paired(token, id)
    case Ended(answer) => answer == Refused || (answer.Token? && Paired(answer.token, id))
    case _ => false
  }

  /** A call of a request is where that request can be. */
  predicate Serves(cfg: Config, t: nat, request: Request, phase: Phase) {
    match request
    case InitiateAuth => Initiating(t, phase)
    case HandleCallback(callback, iss) =>
      if iss == cfg.issuerUrl then LoggingIn(t, callback, phase) else phase == Ended(Refused)
    case CreateTestSession(fiscalCode, familyName, givenName) =>
      if cfg.IsTestUser(fiscalCode)
      then Creating(t, fiscalCode, TestSession(cfg, fiscalCode, familyName, givenName), phase)
      else phase == Ended(Refused)
    case ExchangeSessionId(id) => Redeeming(id, phase)
  }

  lemma ServesStep(cfg: Config, s: State, t: nat, r: Reply, request: Request)
    requires Enabled(s, Resume(t, r)) && Serves(cfg, t, request, s.tasks[t].phase) && KeysFit(s)
    ensures Serves(cfg, t, request, Continue(cfg, s, t, s.tasks[t].phase, r))
  {
    if s.tasks[t].phase.ReadingOtp? && Otp(s.tasks[t].phase.id) in s.temporaries {
      assert OtpFits(s, Otp(s.tasks[t].phase.id));
    }
  }

  predicate Served(cfg: Config, s: State, t: nat, request: Request) {
    t in s.tasks && Serves(cfg, t, request, s.tasks[t].phase)
  }

  lemma ServedStep(cfg: Config, states: seq<State>, events: seq<Event>, k: nat, t: nat, request: Request)
    requires Behavior(cfg, states, events) && k < |events| && Served(cfg, states[k], t, request)
    ensures Served(cfg, states[k + 1], t, request)
  {
    if events[k].Resume? && events[k].task == t {
      InvAt(cfg, states, events, k);
      ServesStep(cfg, states[k], t, events[k].reply, request);
    }
  }

  /** At every moment after it was called, a request is where it can be. */
  lemma ServedAt(cfg: Config, states: seq<State>, events: seq<Event>, c: nat, i: nat, t: nat, request: Request)
    requires Behavior(cfg, states, events) && c < i < |states| && events[c] == Call(t, request)
    ensures Served(cfg, states[i], t, request)
  {
    var holds := seq(|states|, k requires 0 <= k < |states| => Served(cfg, states[k], t, request));
    forall k | c < k < i && holds[k]
      ensures holds[k + 1]
    {
      ServedStep(cfg, states, events, k, t, request);
    }
    assert holds[c + 1];
    Lasts(holds, c + 1, i);
  }

  // ------------------------------------------------------------------ whose session it is

  /**
   A stored session of a login that is not a test user's own call: its user was given by the
   exchange of this callback, which brought the Lollipop headers unless the user is a test user.
   */
  ghost predicate SessionOfCallback(cfg: Config, trail: seq<Fact>, callback: Callback, session: Session) {
    exists user, nonce ::
      && Exchanged(callback.code, callback.state, nonce, user) in trail
      && session == Session(user.fiscalCode, user.familyName, user.givenName)
      && (cfg.IsTestUser(user.fiscalCode) || callback.headers)
  }

  /** What the sessions stored by a request hold. */
  ghost predicate SessionsServe(cfg: Config, s: State, t: nat, request: Request) {
    t in s.tasks && forall token :: token in s.sessions && token.request == t ==>
      match request
      case HandleCallback(callback, _) =>
        token == Id(t, 0) && SessionOfCallback(cfg, s.tasks[t].trail, callback, s.sessions[token].session)
      case CreateTestSession(fiscalCode, familyName, givenName) =>
        token == Id(t, 1) && s.sessions[token].session == TestSession(cfg, fiscalCode, familyName, givenName)
      case _ => false
  }

  /** The code that a login exchanged is that of its callback, and only a test user's call logs a test session. */
  ghost predicate TrailServes(request: Request, trail: seq<Fact>) {
    forall i :: 0 <= i < |trail| ==> FactServes(request, trail[i])
  }

  predicate FactServes(request: Request, fact: Fact) {
    match fact
    case Exchanged(code, state, _, _) =>
      request.HandleCallback? && code == request.callback.code && state == request.callback.state
    case Verified(_, _) => request.HandleCallback? && request.callback.headers
    case Audited(TestSessionAudit(fiscalCode)) =>
      request.CreateTestSession? && fiscalCode == request.fiscalCode
    case _ => true
  }

  lemma TrailServesStep(cfg: Config, s: State, t: nat, r: Reply, request: Request)
    requires Enabled(s, Resume(t, r)) && Serves(cfg, t, request, s.tasks[t].phase)
    requires TrailServes(request, s.tasks[t].trail)
    ensures TrailServes(request, Proceed(cfg, s, t, r).trail)
  {
  }

  lemma ByLoginServes(cfg: Config, t: nat, request: Request, trail: seq<Fact>, session: Session)
    requires TrailServes(request, trail) && ByLogin(cfg, trail, session)
    ensures request.HandleCallback? && SessionOfCallback(cfg, trail, request.callback, session)
  {
    var callback, user :| LoggedIn(cfg, trail, callback, user) && session == SessionOf(user);
    assert trail[2] == Exchanged(callback.code, callback.state, NonceOf(callback.state), user);
    assert FactServes(request, trail[2]);
    if !cfg.IsTestUser(user.fiscalCode) {
      assert FactServes(request, trail[4]);
    }
    assert Exchanged(request.callback.code, request.callback.state, NonceOf(callback.state), user) in trail;
  }

  /** The request is refused at once. */
  predicate Rejected(cfg: Config, request: Request) {
    || (request.HandleCallback? && request.iss != cfg.issuerUrl)
    || (request.CreateTestSession? && !cfg.IsTestUser(request.fiscalCode))
  }

  ghost predicate Holds(cfg: Config, s: State, t: nat, request: Request) {
    && Served(cfg, s, t, request) && TrailServes(request, s.tasks[t].trail) && SessionsServe(cfg, s, t, request)
    && (Rejected(cfg, request) ==> s.tasks[t].trail == [])
  }

  lemma SessionOfCallbackKept(cfg: Config, trail: seq<Fact>, more: seq<Fact>, callback: Callback, session: Session)
    requires SessionOfCallback(cfg, trail, callback, session)
    ensures SessionOfCallback(cfg, trail + more, callback, session)
  {
    var user, nonce :| && Exchanged(callback.code, callback.state, nonce, user) in trail
                       && session == Session(user.fiscalCode, user.familyName, user.givenName)
                       && (cfg.IsTestUser(user.fiscalCode) || callback.headers);
    assert Exchanged(callback.code, callback.state, nonce, user) in trail + more;
  }

  lemma OwnSessions(cfg: Config, s: State, t: nat, r: Reply, request: Request)
    requires Inv(cfg, s) && Enabled(s, Resume(t, r)) && Holds(cfg, s, t, request)
    ensures SessionsServe(cfg, Apply(cfg, s, Resume(t, r)), t, request)
  {
    var s', task := Apply(cfg, s, Resume(t, r)), s.tasks[t];
    assert TrailFits(cfg, t, task);
    forall token | token in s'.sessions && token.request == t
      ensures match request
              case HandleCallback(callback, _) =>
                token == Id(t, 0) && SessionOfCallback(cfg, s'.tasks[t].trail, callback, s'.sessions[token].session)
              case CreateTestSession(fiscalCode, familyName, givenName) =>
                token == Id(t, 1) && s'.sessions[token].session == TestSession(cfg, fiscalCode, familyName, givenName)
              case _ => false
    {
      if task.phase.StoringSession? && r.applied && token == task.phase.token {
        StoresOwn(cfg, s, t, request);
      }
      if request.HandleCallback? {
        var session := s'.sessions[token].session;
        assert SessionOfCallback(cfg, task.trail, request.callback, session);
        SessionOfCallbackKept(cfg, task.trail, Facts(cfg, s, task.phase, r), request.callback, session);
      }
    }
  }

  /** The session about to be stored is that of the request. */
  lemma StoresOwn(cfg: Config, s: State, t: nat, request: Request)
    requires t in s.tasks && s.tasks[t].phase.StoringSession? && Served(cfg, s, t, request)
    requires TrailFits(cfg, t, s.tasks[t]) && TrailServes(request, s.tasks[t].trail)
    ensures request.HandleCallback? ==>
      SessionOfCallback(cfg, s.tasks[t].trail, request.callback, s.tasks[t].phase.session)
  {
    if request.HandleCallback? {
      var trail, session := s.tasks[t].trail, s.tasks[t].phase.session;
      assert trail != [] ==> FactServes(request, trail[0]);
      if ByLogin(cfg, trail, session) {
        ByLoginServes(cfg, t, request, trail, session);
      }
    }
  }

  lemma HoldsStep(cfg: Config, states: seq<State>, events: seq<Event>, k: nat, t: nat, request: Request)
    requires Behavior(cfg, states, events) && k < |events| && Holds(cfg, states[k], t, request)
    ensures Holds(cfg, states[k + 1], t, request)
  {
    ServedStep(cfg, states, events, k, t, request);
    match events[k]
    case Resume(u, r) =>
      InvAt(cfg, states, events, k);
      if u == t {
        TrailServesStep(cfg, states[k], t, r, request);
        OwnSessions(cfg, states[k], t, r, request);
      } else {
        OtherSessions(cfg, states[k], u, r, t, request);
      }
    case _ =>
  }

  lemma OtherSessions(cfg: Config, s: State, u: nat, r: Reply, t: nat, request: Request)
    requires Enabled(s, Resume(u, r)) && u != t && TrailFits(cfg, u, s.tasks[u]) && SessionsServe(cfg, s, t, request)
    ensures SessionsServe(cfg, Apply(cfg, s, Resume(u, r)), t, request)
  {
  }

  /** Nothing is stored for a request before it is called. */
  lemma HoldsAtCall(cfg: Config, s: State, t: nat, request: Request)
    requires Inv(cfg, s) && t !in s.tasks
    ensures Holds(cfg, Apply(cfg, s, Call(t, request)), t, request)
  {
    forall token | token in s.sessions
      ensures token.request != t
    {
      assert SessionFits(cfg, s, token);
    }
  }

  lemma HoldsAt(cfg: Config, states: seq<State>, events: seq<Event>, c: nat, i: nat, t: nat, request: Request)
    requires Behavior(cfg, states, events) && c < i < |states| && events[c] == Call(t, request)
    ensures Holds(cfg, states[i], t, request)
  {
    var holds := seq(|states|, k requires 0 <= k < |states| => Holds(cfg, states[k], t, request));
    InvAt(cfg, states, events, c);
    HoldsAtCall(cfg, states[c], t, request);
    forall k | c < k < i && holds[k]
      ensures holds[k + 1]
    {
      HoldsStep(cfg, states, events, k, t, request);
    }
    assert holds[c + 1];
    Lasts(holds, c + 1, i);
  }

  /**
   Every session that a call stored is that of its request: for a callback with the
   right issuer the user that the exchange of its code gave, for a test user the data
   given, with the fiscal code in upper case. No other call stores a session.
   */
  lemma SessionsAreTheCallers(cfg: Config, states: seq<State>, events: seq<Event>, c: nat, i: nat, t: nat,
          request: Request, token: Id)
    requires Behavior(cfg, states, events) && c < i < |states| && events[c] == Call(t, request)
    requires token in states[i].sessions && token.request == t
    ensures var s := states[i];
      && t in s.tasks && (request.HandleCallback? || request.CreateTestSession?)
      && (request.HandleCallback? ==>
            && request.iss == cfg.issuerUrl
            && SessionOfCallback(cfg, s.tasks[t].trail, request.callback, s.sessions[token].session))
      && (request.CreateTestSession? ==>
            && cfg.IsTestUser(request.fiscalCode)
            && s.sessions[token].session ==
                 Session(cfg.Upper(request.fiscalCode), request.familyName, request.givenName))
  {
    HoldsAt(cfg, states, events, c, i, t, request);
    InvAt(cfg, states, events, i);
    assert SessionFits(cfg, states[i], token);
  }

  // ---------------------------------------------------------------------- the audit log

  /** The audits among some facts, in order. */
  function Logged(facts: seq<Fact>): seq<Audit> {
    if facts == [] then []
    else (if facts[0].Audited? then [facts[0].audit] else []) + Logged(facts[1..])
  }

  /** A step adds to the log what its request notes in its trail, once, and nothing else is ever logged. */
  lemma LoggedIsTrailed(cfg: Config, states: seq<State>, events: seq<Event>, i: nat)
    requires Behavior(cfg, states, events) && i < |events|
    ensures !events[i].Resume? ==> states[i + 1].audits == states[i].audits
    ensures events[i].Resume? ==>
      var before, after := states[i].tasks[events[i].task].trail, states[i + 1].tasks[events[i].task].trail;
      before <= after && states[i + 1].audits == states[i].audits + Logged(after[|before|..])
  {
    if events[i].Resume? {
      var facts := Facts(cfg, states[i], states[i].tasks[events[i].task].phase, events[i].reply);
      assert |facts| <= 1;
      assert facts != [] ==> facts == [facts[0]] && Logged(facts[1..]) == [];
      assert states[i + 1].audits == states[i].audits + Logged(facts);
    }
  }

  // ------------------------------------------------------------------- authorization URLs

  predicate UrlAhead(s: State, t: nat, state: Id, nonce: Id) {
    && t in s.tasks
    && (s.tasks[t].phase == FetchingUrl(state, nonce) || s.tasks[t].phase == Ended(AuthorizationUrl(state, nonce)))
  }

  /** The step at which a request stored the nonce that goes with its state. */
  predicate StoresNonce(s: State, s': State, e: Event, t: nat, state: Id, nonce: Id) {
    && e.Resume? && e.task == t && e.reply.ok && t in s.tasks && s.tasks[t].phase == StoringNonce(state, nonce)
    && Nonce(state) in s'.temporaries && s'.temporaries[Nonce(state)] == Temporary(nonce, s'.now)
    && state.request == t && nonce == NonceOf(state)
  }

  lemma UrlStep(cfg: Config, s: State, e: Event, t: nat, state: Id, nonce: Id)
    requires Inv(cfg, s) && Enabled(s, e) && !UrlAhead(s, t, state, nonce)
    requires UrlAhead(Apply(cfg, s, e), t, state, nonce)
    ensures StoresNonce(s, Apply(cfg, s, e), e, t, state, nonce)
  {
    assert e.Resume? && e.task == t;
    assert TrailFits(cfg, t, s.tasks[t]);
  }

  /** The URL that a caller is given carries a state and a nonce which its request stored together before. */
  lemma UrlCarriesNonce(cfg: Config, states: seq<State>, events: seq<Event>, i: nat, t: nat, state: Id, nonce: Id)
    returns (k: nat)
    requires Behavior(cfg, states, events) && i < |states| && t in states[i].tasks
    requires states[i].tasks[t].phase == Ended(AuthorizationUrl(state, nonce))
    ensures k < i && StoresNonce(states[k], states[k + 1], events[k], t, state, nonce)
  {
    var holds := seq(|states|, n requires 0 <= n < |states| => UrlAhead(states[n], t, state, nonce));
    k := Begins(holds, i);
    InvAt(cfg, states, events, k);
    UrlStep(cfg, states[k], events[k], t, state, nonce);
  }

  // ----------------------------------------------------------------- redirects and tokens

  /** The step at which a request stored its OTP: what the OTP leads to, and where its caller is sent. */
  ghost predicate StoresOtp(s: State, s': State, e: Event, t: nat, token: Id, id: Id) {
    && e.Resume? && e.task == t && e.reply.ok && t in s.tasks && s.tasks[t].phase == StoringOtp(token, id)
    && Otp(id) in s'.temporaries && s'.temporaries[Otp(id)] == Temporary(token, s'.now)
    && token in s'.sessions && token.request == t && token != id
  }

  predicate Redirected(s: State, t: nat, id: Id) {
    t in s.tasks && s.tasks[t].phase == Ended(Redirect(id))
  }

  lemma RedirectStep(cfg: Config, s: State, e: Event, t: nat, id: Id) returns (token: Id)
    requires Inv(cfg, s) && Enabled(s, e) && !Redirected(s, t, id) && Redirected(Apply(cfg, s, e), t, id)
    ensures StoresOtp(s, Apply(cfg, s, e), e, t, token, id) && Paired(token, id)
  {
    assert e.Resume? && e.task == t;
    assert TrailFits(cfg, t, s.tasks[t]);
    assert TokenKnown(s, s.tasks[t].phase);
    token := s.tasks[t].phase.token;
  }

  /**
   A caller is redirected only after its own request stored, under the identifier in
   the redirect, an OTP that leads to the session which that request stored; the
   identifier is not the session's token.
   */
  lemma RedirectCarriesOtp(cfg: Config, states: seq<State>, events: seq<Event>, i: nat, t: nat, id: Id)
    returns (k: nat, token: Id)
    requires Behavior(cfg, states, events) && i < |states| && Redirected(states[i], t, id)
    ensures k < i && StoresOtp(states[k], states[k + 1], events[k], t, token, id) && Paired(token, id)
  {
    var holds := seq(|states|, n requires 0 <= n < |states| => Redirected(states[n], t, id));
    k := Begins(holds, i);
    InvAt(cfg, states, events, k);
    token := RedirectStep(cfg, states[k], events[k], t, id);
  }

  /**
   A request that is about to store its session ends in a redirect exactly if the session
   and then the OTP are stored.
   */
  lemma RedirectedIffStored(cfg: Config, states: seq<State>, events: seq<Event>, i: nat, t: nat)
    requires Behavior(cfg, states, events) && i < |events| && events[i].Resume? && events[i].task == t
    requires states[i].tasks[t].phase.StoringSession? || states[i].tasks[t].phase.StoringOtp?
    ensures var phase, phase' := states[i].tasks[t].phase, states[i + 1].tasks[t].phase;
      && (!events[i].reply.ok ==> phase' == Ended(Refused))
      && (events[i].reply.ok && phase.StoringSession? ==> phase' == StoringOtp(phase.token, phase.id))
      && (events[i].reply.ok && phase.StoringOtp? ==> phase' == Ended(Redirect(phase.id)))
  {
  }

  /** An OTP is never stored for another session, and its session is in the store. */
  lemma OtpLeadsToItsSession(cfg: Config, states: seq<State>, events: seq<Event>, i: nat, id: Id)
    requires Behavior(cfg, states, events) && i < |states| && Otp(id) in states[i].temporaries
    ensures Paired(states[i].temporaries[Otp(id)].value, id)
    ensures states[i].temporaries[Otp(id)].value in states[i].sessions
  {
    InvAt(cfg, states, events, i);
    assert OtpFits(states[i], Otp(id));
  }

  /**
   A redirect is good for its session: whoever exchanges its identifier and gets past
   reading it found it live, and is given the token of that very session and no other,
   whether or not the OTP can then be deleted.
   */
  lemma RedirectIsRedeemed(cfg: Config, states: seq<State>, events: seq<Event>, h: nat, t: nat, i: nat, j: nat, u: nat,
          id: Id)
    returns (k: nat, token: Id)
    requires Behavior(cfg, states, events) && h <= i < j < |events|
    requires Redirected(states[h], t, id)
    requires events[i].Resume? && events[i].task == u && states[i].tasks[u].phase == ReadingOtp(id)
    requires events[j].Resume? && events[j].task == u && states[j].tasks[u] == states[i + 1].tasks[u]
    ensures k < h && StoresOtp(states[k], states[k + 1], events[k], t, token, id)
    ensures events[i].reply.ok && Live(cfg, states[i], Otp(id))
    ensures states[j + 1].tasks[u].phase == Ended(Token(token))
  {
    k, token := RedirectCarriesOtp(cfg, states, events, h, t, id);
    RedeemedOnlyIfLive(cfg, states, events, i, u, id);
    TokenGiven(cfg, states[j], events[j]);
  }

  lemma TokenGiven(cfg: Config, s: State, e: Event)
    requires Enabled(s, e) && e.Resume?
    ensures s.tasks[e.task].phase.DroppingOtp? ==>
      Apply(cfg, s, e).tasks[e.task].phase == Ended(Token(s.tasks[e.task].phase.token))
  {
  }

  /** An exchange that cannot read a live OTP is refused. */
  lemma RedeemedOnlyIfLive(cfg: Config, states: seq<State>, events: seq<Event>, i: nat, u: nat, id: Id)
    requires Behavior(cfg, states, events) && i < |events| && events[i].Resume? && events[i].task == u
    requires states[i].tasks[u].phase == ReadingOtp(id)
    ensures if events[i].reply.ok && Live(cfg, states[i], Otp(id))
            then states[i + 1].tasks[u].phase.DroppingOtp? && Paired(states[i + 1].tasks[u].phase.token, id)
            else states[i + 1].tasks[u].phase == Ended(Refused)
  {
    if Otp(id) in states[i].temporaries {
      OtpLeadsToItsSession(cfg, states, events, i, id);
    }
  }

  // ------------------------------------------------------------------------- lifetimes

  /**
   Without configuration a session lives for half an hour and a nonce or an OTP for a
   minute; else for as many seconds as told.
   */
  lemma Lifetimes(cfg: Config, s: State, key: Key, token: Id)
    requires key in s.temporaries && token in s.sessions
    ensures cfg.sessionTtlSeconds.None? ==>
      (SessionLive(cfg, s, token) <==> s.now < s.sessions[token].storedAt + 1_800_000)
    ensures cfg.otpTtlSeconds.None? ==> (Live(cfg, s, key) <==> s.now < s.temporaries[key].storedAt + 60_000)
    ensures cfg.sessionTtlSeconds.Some? ==>
      (SessionLive(cfg, s, token) <==> s.now < s.sessions[token].storedAt + 1000 * cfg.sessionTtlSeconds.value)
    ensures cfg.otpTtlSeconds.Some? ==>
      (Live(cfg, s, key) <==> s.now < s.temporaries[key].storedAt + 1000 * cfg.otpTtlSeconds.value)
  {
  }
}
