/**
 The FIMS use cases as the code runs them when nothing overlaps: one object holds
 the session store and the audit log, and each use case is a method with the
 code's order and early exits. Each is proved to leave what an uninterrupted run of
 `FimsProtocol` leaves, so the guarantees of `FimsLogin` are about this code.
 */
module Fims {
  import opened Wrappers
  import opened FimsProtocol
  import opened FimsLogin

  /** How each awaited call of one request comes out. */
  datatype Replies = Replies(
    nonce: Reply,
    url: Reply,
    read: Reply,
    drop: Reply,
    exchange: Reply,
    verify: Reply,
    exchangeAudit: Reply,
    lollipopAudit: Reply,
    testAudit: Reply,
    session: Reply,
    otp: Reply)
  {
    function For(phase: Phase): Reply {
      match phase
      case StoringNonce(_, _) => nonce
      case FetchingUrl(_, _) => url
      case ReadingNonce(_) => read
      case DroppingNonce(_, _) => drop
      case Exchanging(_, _) => exchange
      case AuditingExchange(_, _) => exchangeAudit
      case Verifying(_, _) => verify
      case AuditingLollipop(_, _) => lollipopAudit
      case AuditingTest(_, _) => testAudit
      case StoringSession(_, _, _) => session
      case StoringOtp(_, _) => otp
      case ReadingOtp(_) => read
      case DroppingOtp(_, _) => drop
      case Ended(_) => url
    }
  }

  /** A call that succeeds has taken effect. */
  ghost predicate Sound(replies: Replies) {
    forall phase: Phase :: replies.For(phase).ok ==> replies.For(phase).applied
  }

  /** How many awaits a request has ahead of it at most. */
  function Left(phase: Phase): nat {
    match phase
    case StoringNonce(_, _) => 2
    case FetchingUrl(_, _) => 1
    case ReadingNonce(_) => 8
    case DroppingNonce(_, _) => 7
    case Exchanging(_, _) => 6
    case AuditingExchange(_, _) => 5
    case Verifying(_, _) => 4
    case AuditingLollipop(_, _) => 3
    case AuditingTest(_, _) => 3
    case StoringSession(_, _, _) => 2
    case StoringOtp(_, _) => 1
    case ReadingOtp(_) => 2
    case DroppingOtp(_, _) => 1
    case Ended(_) => 0
  }

  /** The store, the log and the answer when request `t` runs from `phase` to its end uninterrupted. */
  function Serve(cfg: Config, s: State, t: nat, phase: Phase, replies: Replies): (State, Answer)
    decreases Left(phase)
  {
    if phase.Ended? then (s, phase.answer)
    else
      var r := replies.For(phase);
      Serve(cfg, State(s.now, Temporaries(s, phase, r), Sessions(s, phase, r), Audits(s, phase, r), s.tasks), t,
            Continue(cfg, s, t, phase, r), replies)
  }

  /** Two states that agree on all but the tasks. */
  predicate SameStore(s: State, s': State) {
    s.now == s'.now && s.temporaries == s'.temporaries && s.sessions == s'.sessions && s.audits == s'.audits
  }

  /** Serving a request is a run of the protocol: every reachable state with the request pending leads to it. */
  lemma {:induction false} ServeIsRun(cfg: Config, states: seq<State>, events: seq<Event>, t: nat, s: State,
          replies: Replies)
    returns (states': seq<State>, events': seq<Event>)
    requires Behavior(cfg, states, events) && t in states[|events|].tasks && Sound(replies)
    requires SameStore(s, states[|events|])
    ensures Behavior(cfg, states', events') && states <= states'
    ensures var (served, answer) := Serve(cfg, s, t, states[|events|].tasks[t].phase, replies);
      var last := states'[|events'|];
      SameStore(served, last) && t in last.tasks && last.tasks[t].phase == Ended(answer)
    decreases Left(states[|events|].tasks[t].phase)
  {
    var last := states[|events|];
    var phase := last.tasks[t].phase;
    if phase.Ended? {
      states', events' := states, events;
    } else {
      var r := replies.For(phase);
      Extend(cfg, states, events, Resume(t, r));
      var next := Apply(cfg, last, Resume(t, r));
      var s1 := State(s.now, Temporaries(s, phase, r), Sessions(s, phase, r), Audits(s, phase, r), s.tasks);
      SameStep(cfg, s, last, t, phase, r);
      states', events' := ServeIsRun(cfg, states + [next], events + [Resume(t, r)], t, s1, replies);
    }
  }

  lemma SameStep(cfg: Config, s: State, s': State, t: nat, phase: Phase, r: Reply)
    requires SameStore(s, s') && !phase.Ended?
    ensures Temporaries(s, phase, r) == Temporaries(s', phase, r) && Sessions(s, phase, r) == Sessions(s', phase, r)
    ensures Audits(s, phase, r) == Audits(s', phase, r)
    ensures Continue(cfg, s, t, phase, r) == Continue(cfg, s', t, phase, r)
  {
  }

  /** Everything that a login needs once the identity provider has answered. */
  predicate LogsIn(cfg: Config, callback: Callback, user: User, replies: Replies) {
    && replies.exchangeAudit.ok
    && (cfg.IsTestUser(user.fiscalCode) || (callback.headers && replies.verify.ok && replies.lollipopAudit.ok))
    && replies.session.ok && replies.otp.ok
  }

  class SessionStore {
    const cfg: Config
    var now: nat
    var temporaries: map<Key, Temporary>
    var sessions: map<Id, Stored>
    var audits: seq<Audit>

    function Contents(): State
      reads this
    {
      State(now, temporaries, sessions, audits, map[])
    }

    /** The value of an entry that has not expired, or a failed call. */
    method GetTemporary(key: Key, r: Reply) returns (value: Result<Option<Id>, ()>)
      ensures value ==
        if !r.ok then Err(()) else if Live(cfg, Contents(), key) then Ok(Some(temporaries[key].value)) else Ok(None)
    {
      if !r.ok {
        value := Err(());
      } else if key in temporaries && now < temporaries[key].storedAt + cfg.OtpTtl() {
        value := Ok(Some(temporaries[key].value));
      } else {
        value := Ok(None);
      }
    }

    method DeleteTemporary(key: Key, r: Reply)
      modifies this`temporaries
      ensures temporaries == if r.applied then old(temporaries) - {key} else old(temporaries)
    {
      if r.applied {
        temporaries := temporaries - {key};
      }
    }

    method StoreTemporary(key: Key, value: Id, r: Reply) returns (ok: bool)
      modifies this`temporaries
      ensures ok == r.ok
      ensures temporaries == if r.applied then old(temporaries)[key := Temporary(value, now)] else old(temporaries)
    {
      if r.applied {
        temporaries := temporaries[key := Temporary(value, now)];
      }
      ok := r.ok;
    }

    method StoreSession(token: Id, session: Session, r: Reply) returns (ok: bool)
      modifies this`sessions
      ensures ok == r.ok
      ensures sessions == if r.applied then old(sessions)[token := Stored(session, now, |audits|)] else old(sessions)
    {
      if r.applied {
        sessions := sessions[token := Stored(session, now, |audits|)];
      }
      ok := r.ok;
    }

    method Log(audit: Audit, r: Reply) returns (ok: bool)
      modifies this`audits
      ensures ok == r.ok
      ensures audits == if r.applied then old(audits) + [audit] else old(audits)
    {
      if r.applied {
        audits := audits + [audit];
      }
      ok := r.ok;
    }

    method BuildSessionAndRedirect(t: nat, session: Session, token: Id, id: Id, replies: Replies)
      returns (answer: Answer)
      modifies this
      ensures (Contents(), answer) == Serve(cfg, old(Contents()), t, StoringSession(session, token, id), replies)
      // The redirect carries the OTP, which leads to the session.
      ensures answer == if replies.session.ok && replies.otp.ok then Redirect(id) else Refused
      ensures sessions ==
        if replies.session.applied then old(sessions)[token := Stored(session, now, |audits|)] else old(sessions)
      ensures temporaries ==
        if replies.session.ok && replies.otp.applied then old(temporaries)[Otp(id) := Temporary(token, now)]
        else old(temporaries)
      ensures audits == old(audits) && now == old(now)
    {
      ghost var whole := Serve(cfg, Contents(), t, StoringSession(session, token, id), replies);
      var stored := StoreSession(token, session, replies.session);
      assert stored ==> whole == Serve(cfg, Contents(), t, StoringOtp(token, id), replies);
      if !stored {
        return Refused;
      }
      var otp := StoreTemporary(Otp(id), token, replies.otp);
      assert whole == Serve(cfg, Contents(), t, Ended(if otp then Redirect(id) else Refused), replies);
      if !otp {
        return Refused;
      }
      return Redirect(id);
    }

    method InitiateAuth(t: nat, replies: Replies) returns (answer: Answer)
      modifies this
      ensures (Contents(), answer) == Serve(cfg, old(Contents()), t, Begin(cfg, t, FimsProtocol.InitiateAuth), replies)
      // The URL carries the state and the nonce that were stored.
      ensures answer == if replies.nonce.ok && replies.url.ok then AuthorizationUrl(Id(t, 0), Id(t, 1)) else Refused
      ensures replies.nonce.applied ==>
        Nonce(Id(t, 0)) in temporaries && temporaries[Nonce(Id(t, 0))].value == Id(t, 1)
      ensures sessions == old(sessions) && audits == old(audits)
    {
      var state, nonce := Id(t, 0), Id(t, 1);
      ghost var whole := Serve(cfg, Contents(), t, StoringNonce(state, nonce), replies);
      var stored := StoreTemporary(Nonce(state), nonce, replies.nonce);
      if !stored {
        return Refused;
      }
      assert whole == Serve(cfg, Contents(), t, FetchingUrl(state, nonce), replies);
      assert whole ==
        Serve(cfg, Contents(), t, Ended(if replies.url.ok then AuthorizationUrl(state, nonce) else Refused), replies);
      return if replies.url.ok then AuthorizationUrl(state, nonce) else Refused;
    }

    method HandleCallback(t: nat, callback: Callback, iss: string, replies: Replies) returns (answer: Answer)
      modifies this
      ensures (Contents(), answer) ==
        Serve(cfg, old(Contents()), t, Begin(cfg, t, FimsProtocol.HandleCallback(callback, iss)), replies)
      // A login ends in a redirect exactly if all of this goes well; else it is refused.
      ensures answer ==
        if && iss == cfg.issuerUrl
           && replies.read.ok && Live(cfg, old(Contents()), Nonce(callback.state)) && replies.exchange.ok
           && LogsIn(cfg, callback, replies.exchange.user, replies)
        then Redirect(Id(t, 1)) else Refused
      // The nonce is deleted whatever comes after.
      ensures iss == cfg.issuerUrl && replies.read.ok && replies.drop.applied ==>
        (Live(cfg, old(Contents()), Nonce(callback.state)) ==> Nonce(callback.state) !in temporaries)
    {
      if iss != cfg.issuerUrl {
        return Refused;
      }
      var nonce := GetTemporary(Nonce(callback.state), replies.read);
      if nonce.Err? || nonce.value.None? {
        return Refused;
      }
      ghost var whole := Serve(cfg, Contents(), t, DroppingNonce(callback, nonce.value.value), replies);
      DeleteTemporary(Nonce(callback.state), replies.drop);
      assert whole == Serve(cfg, Contents(), t, Exchanging(callback, nonce.value.value), replies);
      assert !replies.exchange.ok ==> whole == Serve(cfg, Contents(), t, Ended(Refused), replies);
      if !replies.exchange.ok {
        return Refused;
      }
      answer := LogIn(t, callback, replies.exchange.user, replies);
    }

    /** The callback once the identity provider has answered. */
    method LogIn(t: nat, callback: Callback, user: User, replies: Replies) returns (answer: Answer)
      modifies this
      ensures (Contents(), answer) == Serve(cfg, old(Contents()), t, AuditingExchange(callback, user), replies)
      ensures answer == if LogsIn(cfg, callback, user, replies) then Redirect(Id(t, 1)) else Refused
      ensures answer.Redirect? && replies.session.applied && replies.otp.applied ==>
        && Otp(answer.id) in temporaries && temporaries[Otp(answer.id)].value == Id(t, 0) && Id(t, 0) in sessions
        && sessions[Id(t, 0)].session == Session(user.fiscalCode, user.familyName, user.givenName)
      ensures forall key :: key in temporaries && key.Nonce? ==> key in old(temporaries)
    {
      ghost var whole := Serve(cfg, Contents(), t, AuditingExchange(callback, user), replies);
      var logged := Log(ExchangeAudit(callback.code, user.fiscalCode), replies.exchangeAudit);
      if !logged {
        return Refused;
      }
      if !cfg.IsTestUser(user.fiscalCode) {
        if !callback.headers {
          return Refused;
        }
        assert whole == Serve(cfg, Contents(), t, Verifying(callback, user), replies);
        assert !replies.verify.ok ==> whole == Serve(cfg, Contents(), t, Ended(Refused), replies);
        if !replies.verify.ok {
          return Refused;
        }
        assert whole == Serve(cfg, Contents(), t, AuditingLollipop(callback, user), replies);
        logged := Log(LollipopAudit(user.fiscalCode, user.lollipop), replies.lollipopAudit);
        assert !logged ==> whole == Serve(cfg, Contents(), t, Ended(Refused), replies);
        if !logged {
          return Refused;
        }
      }
      answer := BuildSessionAndRedirect(t, SessionOf(user), Id(t, 0), Id(t, 1), replies);
    }

    method CreateTestSession(t: nat, fiscalCode: string, familyName: string, givenName: string, replies: Replies)
      returns (answer: Answer)
      modifies this
      ensures (Contents(), answer) ==
        Serve(cfg, old(Contents()), t,
          Begin(cfg, t, FimsProtocol.CreateTestSession(fiscalCode, familyName, givenName)), replies)
      ensures answer ==
        if cfg.IsTestUser(fiscalCode) && replies.testAudit.ok && replies.session.ok && replies.otp.ok
        then Redirect(Id(t, 2)) else Refused
      ensures answer.Redirect? && replies.session.applied && replies.otp.applied ==>
        && Otp(answer.id) in temporaries && temporaries[Otp(answer.id)].value == Id(t, 1) && Id(t, 1) in sessions
        && sessions[Id(t, 1)].session == Session(cfg.Upper(fiscalCode), familyName, givenName)
    {
      if !cfg.IsTestUser(fiscalCode) {
        return Refused;
      }
      var logged := Log(TestSessionAudit(fiscalCode), replies.testAudit);
      if !logged {
        return Refused;
      }
      answer := BuildSessionAndRedirect(t, Session(cfg.Upper(fiscalCode), familyName, givenName), Id(t, 1),
        Id(t, 2), replies);
    }

    method ExchangeSessionId(t: nat, id: Id, replies: Replies) returns (answer: Answer)
      modifies this
      ensures (Contents(), answer) ==
        Serve(cfg, old(Contents()), t, Begin(cfg, t, FimsProtocol.ExchangeSessionId(id)), replies)
      // A live OTP gives its token and is deleted; nothing else does anything.
      ensures var redeemed := replies.read.ok && Live(cfg, old(Contents()), Otp(id));
        && answer == (if redeemed then Token(old(temporaries)[Otp(id)].value) else Refused)
        && temporaries == (if redeemed && replies.drop.applied then old(temporaries) - {Otp(id)} else old(temporaries))
      ensures sessions == old(sessions) && audits == old(audits)
    {
      var token := GetTemporary(Otp(id), replies.read);
      if token.Err? || token.value.None? {
        return Refused;
      }
      ghost var whole := Serve(cfg, Contents(), t, DroppingOtp(id, token.value.value), replies);
      DeleteTemporary(Otp(id), replies.drop);
      assert whole == Serve(cfg, Contents(), t, Ended(Token(token.value.value)), replies);
      return Token(token.value.value);
    }
  }
}
