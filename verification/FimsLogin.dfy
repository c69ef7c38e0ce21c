/** The guarantees of the FIMS login, over every run of overlapping requests. */
module FimsLogin {
  import opened Wrappers
  import opened FimsProtocol
  import opened FimsSafety

  // ---------------------------------------------------------------- audit trail

  lemma {:induction false} AuditsOnlyAppended(cfg: Config, states: seq<State>, events: seq<Event>, i: nat, j: nat)
    requires Behavior(cfg, states, events) && i <= j < |states|
    ensures states[i].audits <= states[j].audits
    decreases j - i
  {
    if i < j {
      assert states[i].audits <= Apply(cfg, states[i], events[i]).audits;
      AuditsOnlyAppended(cfg, states, events, i + 1, j);
    }
  }

  /** The log as it was when the session was stored. */
  function AuditsBefore(s: State, token: Id): seq<Audit>
    requires token in s.sessions && s.sessions[token].audits <= |s.audits|
  {
    s.audits[..s.sessions[token].audits]
  }

  ghost predicate LoginAudited(cfg: Config, trail: seq<Fact>, before: seq<Audit>, session: Session) {
    exists callback, user ::
      && LoggedIn(cfg, trail, callback, user)
      && session == Session(user.fiscalCode, user.familyName, user.givenName)
      && ExchangeAudit(callback.code, user.fiscalCode) in before
      && (!cfg.IsTestUser(user.fiscalCode) ==> LollipopAudit(user.fiscalCode, user.lollipop) in before)
  }

  ghost predicate TestAudited(cfg: Config, before: seq<Audit>, session: Session) {
    && cfg.IsTestUser(session.fiscalCode)
    && exists fiscalCode :: session.fiscalCode == cfg.Upper(fiscalCode) && TestSessionAudit(fiscalCode) in before
  }

  lemma TestTrail(cfg: Config, trail: seq<Fact>, before: seq<Audit>, session: Session)
    requires ByTest(cfg, trail, session)
    requires forall i :: 0 <= i < |trail| && trail[i].Audited? ==> trail[i].audit in before
    ensures TestAudited(cfg, before, session)
  {
    var fiscalCode :| trail == [Audited(TestSessionAudit(fiscalCode))] && cfg.IsTestUser(fiscalCode) &&
      session.fiscalCode == cfg.Upper(fiscalCode);
    assert trail[0].Audited?;
    UpperIsTestUser(cfg, fiscalCode);
  }

  /**
   The audit trail, in every interleaving and whatever fails: when a session is
   stored, either its request took a nonce and asked for it to be deleted, exchanged the
   code for this very user and logged the exchange, and, unless it is a test user's, verified the
   Lollipop proof and logged that; or the session is a test user's and its creation
   was logged. All of this stands in the log from before the session was stored.
   */
  lemma SessionsAreAudited(cfg: Config, states: seq<State>, events: seq<Event>, i: nat, token: Id)
    requires Behavior(cfg, states, events) && i < |states| && token in states[i].sessions
    ensures var s := states[i];
      && token.request in s.tasks && s.sessions[token].audits <= |s.audits|
      && (LoginAudited(cfg, s.tasks[token.request].trail, AuditsBefore(s, token), s.sessions[token].session)
          || TestAudited(cfg, AuditsBefore(s, token), s.sessions[token].session))
  {
    InvAt(cfg, states, events, i);
    var s := states[i];
    assert SessionFits(cfg, s, token);
    var trail, session := s.tasks[token.request].trail, s.sessions[token].session;
    if ByLogin(cfg, trail, session) {
    } else {
      TestTrail(cfg, trail, AuditsBefore(s, token), session);
    }
  }

  /** A token handed out belongs to a session in the store, so to one with its audit trail. */
  lemma TokensHaveSessions(cfg: Config, states: seq<State>, events: seq<Event>, i: nat, t: nat)
    requires Behavior(cfg, states, events) && i < |states| && t in states[i].tasks
    requires states[i].tasks[t].phase.Ended? && states[i].tasks[t].phase.answer.Token?
    ensures states[i].tasks[t].phase.answer.token in states[i].sessions
  {
    InvAt(cfg, states, events, i);
    assert TokenKnown(states[i], states[i].tasks[t].phase);
  }

  // -------------------------------------------------------------- lifetimes

  /** How long after its session an OTP was stored. */
  function StoreDelay(s: State, id: Id): int
    requires Otp(id) in s.temporaries && s.temporaries[Otp(id)].value in s.sessions
  {
    s.temporaries[Otp(id)].storedAt - s.sessions[s.temporaries[Otp(id)].value].storedAt
  }

  /** Whether the OTP can be accepted at some later time at which its session is gone. */
  ghost predicate CanOutlive(cfg: Config, s: State, id: Id)
    requires Otp(id) in s.temporaries
  {
    exists elapsed: nat ::
      var later := Apply(cfg, s, Tick(elapsed));
      Live(cfg, later, Otp(id)) && !SessionLive(cfg, later, s.temporaries[Otp(id)].value)
  }

  /**
   OTP validity: in every reachable state, a live OTP can outlive its session if
   and only if the two were stored more than sessionTtl - otpTtl apart.
   */
  lemma OutlivesIffStoredLate(cfg: Config, states: seq<State>, events: seq<Event>, i: nat, id: Id)
    requires Behavior(cfg, states, events) && i < |states| && Live(cfg, states[i], Otp(id))
    ensures states[i].temporaries[Otp(id)].value in states[i].sessions && StoreDelay(states[i], id) >= 0
    ensures CanOutlive(cfg, states[i], id) <==> StoreDelay(states[i], id) > cfg.SessionTtl() - cfg.OtpTtl()
  {
    InvAt(cfg, states, events, i);
    var s := states[i];
    assert OtpFits(s, Otp(id));
    var token := s.temporaries[Otp(id)].value;
    if StoreDelay(s, id) > cfg.SessionTtl() - cfg.OtpTtl() {
      var ends := s.sessions[token].storedAt + cfg.SessionTtl();
      var elapsed := if s.now < ends then ends - s.now else 0;
      var later := Apply(cfg, s, Tick(elapsed));
      assert Live(cfg, later, Otp(id)) && !SessionLive(cfg, later, token);
    }
  }

  /**
   With the default lifetimes an OTP stored within 1740 seconds of its session is only ever
   accepted while the session is live.
   */
  lemma AcceptedSessionIsLive(cfg: Config, states: seq<State>, events: seq<Event>, i: nat, id: Id)
    requires Behavior(cfg, states, events) && i < |states| && Live(cfg, states[i], Otp(id))
    requires cfg.sessionTtlSeconds.None? && cfg.otpTtlSeconds.None?
    requires Otp(id) in states[i].temporaries && states[i].temporaries[Otp(id)].value in states[i].sessions
    requires StoreDelay(states[i], id) <= 1_740_000
    ensures SessionLive(cfg, states[i], states[i].temporaries[Otp(id)].value)
  {
    OutlivesIffStoredLate(cfg, states, events, i, id);
    assert Apply(cfg, states[i], Tick(0)) == states[i];
  }

  // ------------------------------------------------------------- accepted once

  /** The key a request is about to read, and the one it has taken and is about to delete. */
  function Reading(phase: Phase): Option<Key> {
    match phase
    case ReadingNonce(callback) => Some(Nonce(callback.state))
    case ReadingOtp(id) => Some(Otp(id))
    case _ => None
  }

  function Dropping(phase: Phase): Option<Key> {
    match phase
    case DroppingNonce(callback, _) => Some(Nonce(callback.state))
    case DroppingOtp(id, _) => Some(Otp(id))
    case _ => None
  }

  predicate Took(task: Task, key: Key) {
    task.trail != [] && task.trail[0] == Taken(key)
  }

  /** A key can be taken again only while its last taker has yet to delete it, or when that delete failed. */
  lemma TakenAgain(cfg: Config, s: State, key: Key, t: nat)
    requires Inv(cfg, s) && key in s.temporaries && t in s.tasks && Took(s.tasks[t], key)
    ensures Dropping(s.tasks[t].phase) == Some(key) ||
      (|s.tasks[t].trail| > 1 && s.tasks[t].trail[1] == Dropped(key, false))
  {
    var task := s.tasks[t];
    assert TrailFits(cfg, t, task);
    assert DropsNext(task, 0);
    assert Consumed(s, t);
  }

  /** No other request stands between reading this key and deleting it. */
  ghost predicate Alone(s: State, t: nat)
    requires t in s.tasks
  {
    forall u :: u in s.tasks && u != t && Dropping(s.tasks[u].phase).Some? ==>
      Dropping(s.tasks[u].phase) != Reading(s.tasks[t].phase)
  }

  /** The step neither overlaps two readers of a key nor fails to delete one. */
  ghost predicate Orderly(s: State, e: Event)
    requires Enabled(s, e)
  {
    e.Resume? ==> Alone(s, e.task) && (Dropping(s.tasks[e.task].phase).Some? ==> e.reply.applied)
  }

  ghost predicate TakenOnce(s: State) {
    && (forall t, u, key :: t in s.tasks && u in s.tasks && Took(s.tasks[t], key) && Took(s.tasks[u], key) ==> t == u)
    && (forall t :: t in s.tasks && |s.tasks[t].trail| > 1 && s.tasks[t].trail[1].Dropped? ==>
          s.tasks[t].trail[1].applied)
  }

  lemma TakenOnceStep(cfg: Config, s: State, t: nat, r: Reply)
    requires Inv(cfg, s) && Enabled(s, Resume(t, r)) && Orderly(s, Resume(t, r)) && TakenOnce(s)
    ensures TakenOnce(Apply(cfg, s, Resume(t, r)))
  {
    var s' := Apply(cfg, s, Resume(t, r));
    TakeFirst(cfg, s, t, r);
    forall u, key | u in s'.tasks && u != t && Took(s'.tasks[u], key) && Took(s'.tasks[t], key)
      ensures false
    {
      if !Took(s.tasks[t], key) {
        TakenAgain(cfg, s, key, u);
      }
    }
  }

  lemma TakeFirst(cfg: Config, s: State, t: nat, r: Reply)
    requires Inv(cfg, s) && Enabled(s, Resume(t, r)) && Orderly(s, Resume(t, r)) && TakenOnce(s)
    ensures var task' := Apply(cfg, s, Resume(t, r)).tasks[t];
      && (forall key :: Took(task', key) && !Took(s.tasks[t], key) ==>
            key in s.temporaries && Reading(s.tasks[t].phase) == Some(key))
      && (|task'.trail| > 1 && task'.trail[1].Dropped? ==> task'.trail[1].applied)
  {
    assert TrailFits(cfg, t, s.tasks[t]);
  }

  /**
   One-shot keys: as long as no two requests stand between reading and deleting the
   same key and no delete fails, each nonce and each OTP is accepted by one request
   at most.
   */
  lemma {:induction false} AcceptedOnce(cfg: Config, states: seq<State>, events: seq<Event>, i: nat)
    requires Behavior(cfg, states, events) && i < |states|
    requires forall k :: 0 <= k < i ==> Orderly(states[k], events[k])
    ensures TakenOnce(states[i])
  {
    if i > 0 {
      AcceptedOnce(cfg, states, events, i - 1);
      InvAt(cfg, states, events, i - 1);
      match events[i - 1]
      case Resume(t, r) => TakenOnceStep(cfg, states[i - 1], t, r);
      case _ =>
    }
  }

  /** So a nonce mints the sessions of one login only. */
  lemma NonceMintsOneLogin(cfg: Config, states: seq<State>, events: seq<Event>, i: nat, a: Id, b: Id, state: Id)
    requires Behavior(cfg, states, events) && i < |states|
    requires forall k :: 0 <= k < i ==> Orderly(states[k], events[k])
    requires a in states[i].sessions && a.request in states[i].tasks
    requires b in states[i].sessions && b.request in states[i].tasks
    requires NonceUsed(states[i].tasks[a.request].trail, state)
    requires NonceUsed(states[i].tasks[b.request].trail, state)
    ensures a.request == b.request
  {
    AcceptedOnce(cfg, states, events, i);
    assert Took(states[i].tasks[a.request], Nonce(state)) && Took(states[i].tasks[b.request], Nonce(state));
  }

  // ---------------------------------------------------------- and exactly when

  lemma Extend(cfg: Config, states: seq<State>, events: seq<Event>, e: Event)
    requires Behavior(cfg, states, events) && Enabled(states[|events|], e)
    ensures Behavior(cfg, states + [Apply(cfg, states[|events|], e)], events + [e])
  {
  }

  const YES := Reply(true, true, User("", "", "", ""))

  /** A request that reads the key. */
  function Reader(cfg: Config, key: Key): Request {
    match key
    case Nonce(state) => HandleCallback(Callback("", state, false), cfg.issuerUrl)
    case Otp(id) => ExchangeSessionId(id)
  }

  function DroppingPhase(s: State, key: Key): Phase
    requires key in s.temporaries
  {
    match key
    case Nonce(state) => DroppingNonce(Callback("", state, false), s.temporaries[key].value)
    case Otp(id) => DroppingOtp(id, s.temporaries[key].value)
  }

  /** Whoever took it before: a live key is taken by the next request that reads it. */
  lemma NextReaderTakes(cfg: Config, states: seq<State>, events: seq<Event>, t: nat, key: Key)
    returns (states': seq<State>, events': seq<Event>)
    requires Behavior(cfg, states, events) && t !in states[|events|].tasks && Live(cfg, states[|events|], key)
    ensures Behavior(cfg, states', events')
    ensures var s, s' := states[|events|], states'[|events'|];
      s' == s.(tasks := s.tasks[t := Task(DroppingPhase(s, key), [Taken(key)])])
  {
    var s := states[|events|];
    Extend(cfg, states, events, Call(t, Reader(cfg, key)));
    var s1 := Apply(cfg, s, Call(t, Reader(cfg, key)));
    Extend(cfg, states + [s1], events + [Call(t, Reader(cfg, key))], Resume(t, YES));
    var s2 := Apply(cfg, s1, Resume(t, YES));
    states', events' := states + [s1] + [s2], events + [Call(t, Reader(cfg, key))] + [Resume(t, YES)];
    assert Live(cfg, s1, key) && s1.tasks[t].trail == [] && Reading(s1.tasks[t].phase) == Some(key);
    assert s2.tasks[t].phase == DroppingPhase(s, key);
    assert s2.tasks[t].trail == [Taken(key)];
    assert s2.tasks == s.tasks[t := Task(DroppingPhase(s, key), [Taken(key)])];
  }

  /** Two requests that read a live key, nonce or OTP, before either deletes it both take it. */
  lemma OverlapTakesTwice(cfg: Config, states: seq<State>, events: seq<Event>, t: nat, u: nat, key: Key)
    returns (states': seq<State>, events': seq<Event>)
    requires Behavior(cfg, states, events) && Live(cfg, states[|events|], key)
    requires t != u && t !in states[|events|].tasks && u !in states[|events|].tasks
    ensures Behavior(cfg, states', events')
    ensures var s' := states'[|events'|];
      t in s'.tasks && u in s'.tasks && Took(s'.tasks[t], key) && Took(s'.tasks[u], key)
  {
    states', events' := NextReaderTakes(cfg, states, events, t, key);
    states', events' := NextReaderTakes(cfg, states', events', u, key);
  }

  const NO := Reply(false, false, User("", "", "", ""))

  lemma TookWhatItDrops(cfg: Config, states: seq<State>, events: seq<Event>, t: nat, key: Key)
    requires Behavior(cfg, states, events) && t in states[|events|].tasks
    requires Dropping(states[|events|].tasks[t].phase) == Some(key)
    ensures Took(states[|events|].tasks[t], key)
  {
    InvAt(cfg, states, events, |events|);
    assert TrailFits(cfg, t, states[|events|].tasks[t]);
  }

  /** A key whose delete fails while it is live is taken again, though the two requests do not overlap. */
  lemma FailedDeleteTakesTwice(cfg: Config, states: seq<State>, events: seq<Event>, t: nat, u: nat, key: Key)
    returns (states': seq<State>, events': seq<Event>)
    requires Behavior(cfg, states, events) && Live(cfg, states[|events|], key) && t in states[|events|].tasks
    requires Dropping(states[|events|].tasks[t].phase) == Some(key) && u !in states[|events|].tasks
    ensures Behavior(cfg, states', events')
    ensures var s' := states'[|events'|];
      && t in s'.tasks && Took(s'.tasks[t], key) && Dropping(s'.tasks[t].phase).None?
      && u in s'.tasks && Took(s'.tasks[u], key)
  {
    TookWhatItDrops(cfg, states, events, t, key);
    Extend(cfg, states, events, Resume(t, NO));
    var s1 := Apply(cfg, states[|events|], Resume(t, NO));
    states', events' := NextReaderTakes(cfg, states + [s1], events + [Resume(t, NO)], u, key);
  }

  /** The delete that follows it, and the answer. */
  lemma Answer(cfg: Config, states: seq<State>, events: seq<Event>, t: nat, id: Id, token: Id)
    returns (states': seq<State>, events': seq<Event>)
    requires Behavior(cfg, states, events) && t in states[|events|].tasks
    requires states[|events|].tasks[t].phase == DroppingOtp(id, token)
    ensures Behavior(cfg, states', events')
    ensures var s, s' := states[|events|], states'[|events'|];
      && s'.tasks.Keys == s.tasks.Keys && s'.tasks[t].phase == Ended(Token(token))
      && (forall u :: u in s.tasks && u != t ==> s'.tasks[u] == s.tasks[u])
  {
    Extend(cfg, states, events, Resume(t, YES));
    states', events' := states + [Apply(cfg, states[|events|], Resume(t, YES))], events + [Resume(t, YES)];
  }

  /**
   The overlap that `AcceptedOnce` excludes: whenever an OTP is live, two requests
   that both read it before either deletes it are both given its token, although
   both deletes succeed.
   */
  lemma OverlapRedeemsTwice(cfg: Config, states: seq<State>, events: seq<Event>, t: nat, u: nat, id: Id)
    returns (states': seq<State>, events': seq<Event>)
    requires Behavior(cfg, states, events) && Live(cfg, states[|events|], Otp(id))
    requires t != u && t !in states[|events|].tasks && u !in states[|events|].tasks
    ensures Behavior(cfg, states', events')
    ensures var token, s' := states[|events|].temporaries[Otp(id)].value, states'[|events'|];
      t in s'.tasks && u in s'.tasks && s'.tasks[t].phase == s'.tasks[u].phase == Ended(Token(token))
  {
    var token := states[|events|].temporaries[Otp(id)].value;
    states', events' := NextReaderTakes(cfg, states, events, t, Otp(id));
    states', events' := NextReaderTakes(cfg, states', events', u, Otp(id));
    states', events' := Answer(cfg, states', events', t, id, token);
    states', events' := Answer(cfg, states', events', u, id, token);
  }

  /** A test user's login leaves a live OTP, so the overlap can happen. */
  lemma TestLogin(cfg: Config, fiscalCode: string) returns (states: seq<State>, events: seq<Event>)
    requires cfg.IsTestUser(fiscalCode) && cfg.OtpTtl() > 0
    ensures Behavior(cfg, states, events) && Live(cfg, states[|events|], Otp(Id(0, 2)))
    ensures states[|events|].tasks.Keys == {0}
  {
    var call := Call(0, CreateTestSession(fiscalCode, "", ""));
    var s0 := Init(0);
    var s1 := Apply(cfg, s0, call);
    var s2 := Apply(cfg, s1, Resume(0, YES));
    var s3 := Apply(cfg, s2, Resume(0, YES));
    var s4 := Apply(cfg, s3, Resume(0, YES));
    states, events := [s0, s1, s2, s3, s4], [call, Resume(0, YES), Resume(0, YES), Resume(0, YES)];
  }
}
