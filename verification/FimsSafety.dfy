/** What every interleaving of the FIMS login keeps. */
module FimsSafety {
  import opened FimsProtocol

  // ------------------------------------------------------------------ invariant

  /** The request took its nonce and asked for it to be deleted, then exchanged the code. */
  predicate NonceUsed(trail: seq<Fact>, state: Id) {
    && |trail| >= 2
    && trail[0] == Taken(Nonce(state))
    && trail[1].Dropped? && trail[1].key == Nonce(state)
  }

  /** The nonce that the request which drew the state stored under it. */
  function NonceOf(state: Id): Id {
    Id(state.request, 1)
  }

  /** The code was exchanged with the state of the callback and the nonce stored under it. */
  predicate ExchangeSeen(trail: seq<Fact>, callback: Callback, user: User) {
    && |trail| >= 3 && NonceUsed(trail, callback.state)
    && trail[2] == Exchanged(callback.code, callback.state, NonceOf(callback.state), user)
  }

  predicate ExchangeLogged(trail: seq<Fact>, callback: Callback, user: User) {
    |trail| >= 4 && ExchangeSeen(trail, callback, user) && trail[3] == Audited(ExchangeAuditOf(callback, user))
  }

  /** What a login must have done before its session is stored, in this order. */
  predicate LoggedIn(cfg: Config, trail: seq<Fact>, callback: Callback, user: User) {
    && ExchangeLogged(trail, callback, user)
    && (if cfg.IsTestUser(user.fiscalCode) then |trail| == 4
        else |trail| == 6 && trail[4] == Verified(user, callback.state) && trail[5] == Audited(LollipopAuditOf(user)))
  }

  ghost predicate ByLogin(cfg: Config, trail: seq<Fact>, session: Session) {
    exists callback, user :: LoggedIn(cfg, trail, callback, user) && session == SessionOf(user)
  }

  ghost predicate ByTest(cfg: Config, trail: seq<Fact>, session: Session) {
    exists fiscalCode ::
      trail == [Audited(TestSessionAudit(fiscalCode))] && cfg.IsTestUser(fiscalCode) &&
        session.fiscalCode == cfg.Upper(fiscalCode)
  }

  ghost predicate Justified(cfg: Config, trail: seq<Fact>, session: Session) {
    ByLogin(cfg, trail, session) || ByTest(cfg, trail, session)
  }

  /** The identifiers that a login draws: of its session, and after it of its OTP. */
  predicate Paired(token: Id, id: Id) {
    id == Id(token.request, token.draw + 1)
  }

  /** What a suspended request has done so far. */
  ghost predicate TrailFits(cfg: Config, t: nat, task: Task) {
    var trail := task.trail;
    match task.phase
    case StoringNonce(state, nonce) => trail == [] && state == Id(t, 0) && nonce == NonceOf(state)
    case FetchingUrl(_, _) => trail == []
    case ReadingNonce(_) => trail == []
    case DroppingNonce(callback, nonce) => trail == [Taken(Nonce(callback.state))] && nonce == NonceOf(callback.state)
    case Exchanging(callback, nonce) =>
      |trail| == 2 && NonceUsed(trail, callback.state) && nonce == NonceOf(callback.state)
    case AuditingExchange(callback, user) => |trail| == 3 && ExchangeSeen(trail, callback, user)
    case Verifying(callback, user) =>
      |trail| == 4 && ExchangeLogged(trail, callback, user) && !cfg.IsTestUser(user.fiscalCode)
    case AuditingLollipop(callback, user) =>
      |trail| == 5 && ExchangeLogged(trail, callback, user) && !cfg.IsTestUser(user.fiscalCode) &&
        trail[4] == Verified(user, callback.state)
    case AuditingTest(fiscalCode, session) =>
      trail == [] && cfg.IsTestUser(fiscalCode) && session.fiscalCode == cfg.Upper(fiscalCode)
    case StoringSession(session, token, id) => token.request == t && Paired(token, id) && Justified(cfg, trail, session)
    case StoringOtp(token, id) => token.request == t && Paired(token, id)
    case ReadingOtp(_) => trail == []
    case DroppingOtp(id, _) => trail == [Taken(Otp(id))]
    case Ended(_) => true
  }

  ghost predicate TrailsFit(cfg: Config, s: State) {
    forall t :: t in s.tasks ==> TrailFits(cfg, t, s.tasks[t])
  }

  /** Every audit a request made is in the log. */
  ghost predicate AuditsKept(s: State) {
    forall t, i :: t in s.tasks && 0 <= i < |s.tasks[t].trail| && s.tasks[t].trail[i].Audited? ==>
      s.tasks[t].trail[i].audit in s.audits
  }

  /** A request past the storing of its session. */
  predicate SessionWritten(phase: Phase) {
    phase.StoringOtp? || phase.Ended?
  }

  ghost predicate SessionFits(cfg: Config, s: State, token: Id)
    requires token in s.sessions
  {
    && token.request in s.tasks
    && var task := s.tasks[token.request];
    && var stored := s.sessions[token];
    && SessionWritten(task.phase)
    && stored.storedAt <= s.now
    && stored.audits <= |s.audits|
    && Justified(cfg, task.trail, stored.session)
    && forall i :: 0 <= i < |task.trail| && task.trail[i].Audited? ==> task.trail[i].audit in s.audits[..stored.audits]
  }

  /** The token a request holds, or hands out, is in the store. */
  predicate TokenKnown(s: State, phase: Phase) {
    && (phase.StoringOtp? || phase.DroppingOtp? ==> phase.token in s.sessions)
    && (phase.Ended? && phase.answer.Token? ==> phase.answer.token in s.sessions)
  }

  ghost predicate TokensKnown(s: State) {
    forall t :: t in s.tasks ==> TokenKnown(s, s.tasks[t].phase)
  }

  ghost predicate SessionsFit(cfg: Config, s: State) {
    TokensKnown(s) && forall token :: token in s.sessions ==> SessionFits(cfg, s, token)
  }

  /** A request that will store no more keys. */
  predicate KeysWritten(phase: Phase) {
    phase.FetchingUrl? || phase.Ended?
  }

  ghost predicate KeySpent(s: State, key: Key) {
    key.id.request in s.tasks && KeysWritten(s.tasks[key.id.request].phase)
  }

  /** An OTP leads to the session that its own request stored, no later, and a nonce is that of its state. */
  ghost predicate OtpFits(s: State, key: Key)
    requires key in s.temporaries
  {
    var otp := s.temporaries[key];
    otp.value in s.sessions && Paired(otp.value, key.id) && s.sessions[otp.value].storedAt <= otp.storedAt
  }

  ghost predicate KeysFit(s: State) {
    forall key :: key in s.temporaries ==>
      && KeySpent(s, key) && s.temporaries[key].storedAt <= s.now && (key.Otp? ==> OtpFits(s, key))
      && (key.Nonce? ==> s.temporaries[key].value == NonceOf(key.id))
  }

  /** A key that a request took was stored once; a key that was deleted stays deleted. */
  ghost predicate Consumed(s: State, t: nat)
    requires t in s.tasks
  {
    forall i :: 0 <= i < |s.tasks[t].trail| ==>
      var fact := s.tasks[t].trail[i];
      && (fact.Taken? ==> KeySpent(s, fact.key))
      && (fact.Dropped? ==> KeySpent(s, fact.key) && (fact.applied ==> fact.key !in s.temporaries))
  }

  /** A key is the first thing a request takes, and the next thing its request deletes, or tries to. */
  predicate DropsNext(task: Task, i: nat)
    requires i < |task.trail|
  {
    task.trail[i].Taken? ==>
      i == 0 && if i + 1 < |task.trail| then task.trail[i + 1].Dropped? && task.trail[i + 1].key == task.trail[i].key
      else task.phase.DroppingNonce? || task.phase.DroppingOtp?
  }

  ghost predicate TakenThenDropped(task: Task) {
    forall i :: 0 <= i < |task.trail| ==> DropsNext(task, i)
  }

  ghost predicate ConsumptionFits(s: State) {
    forall t :: t in s.tasks ==> Consumed(s, t) && TakenThenDropped(s.tasks[t])
  }

  ghost predicate Inv(cfg: Config, s: State) {
    TrailsFit(cfg, s) && AuditsKept(s) && SessionsFit(cfg, s) && KeysFit(s) && ConsumptionFits(s)
  }

  // ------------------------------------------------------- the step of a request

  lemma KeySpentKept(cfg: Config, s: State, t: nat, r: Reply, key: Key)
    requires Enabled(s, Resume(t, r)) && KeySpent(s, key)
    ensures KeySpent(Apply(cfg, s, Resume(t, r)), key)
  {
  }

  lemma LoginJustifies(cfg: Config, trail: seq<Fact>, callback: Callback, user: User)
    requires LoggedIn(cfg, trail, callback, user)
    ensures Justified(cfg, trail, SessionOf(user))
  {
  }

  lemma TrailStep(cfg: Config, s: State, t: nat, r: Reply)
    requires Enabled(s, Resume(t, r)) && TrailFits(cfg, t, s.tasks[t]) && KeysFit(s)
    ensures TrailFits(cfg, t, Proceed(cfg, s, t, r))
  {
    var task := s.tasks[t];
    var task' := Proceed(cfg, s, t, r);
    match task.phase
    case AuditingExchange(callback, user) =>
      if r.ok && cfg.IsTestUser(user.fiscalCode) {
        LoginJustifies(cfg, task'.trail, callback, user);
      }
    case AuditingLollipop(callback, user) =>
      if r.ok {
        LoginJustifies(cfg, task'.trail, callback, user);
      }
    case AuditingTest(fiscalCode, session) =>
    case _ =>
  }

  lemma AuditsStep(cfg: Config, s: State, t: nat, r: Reply)
    requires Enabled(s, Resume(t, r)) && AuditsKept(s)
    ensures AuditsKept(Apply(cfg, s, Resume(t, r)))
  {
  }

  /** A session stored before the step is untouched by it. */
  lemma SessionKept(cfg: Config, s: State, t: nat, r: Reply, token: Id)
    requires Enabled(s, Resume(t, r)) && TrailFits(cfg, t, s.tasks[t])
    requires token in s.sessions && SessionFits(cfg, s, token)
    ensures var s' := Apply(cfg, s, Resume(t, r));
      token in s'.sessions && s'.sessions[token] == s.sessions[token] && SessionFits(cfg, s', token)
  {
    var s' := Apply(cfg, s, Resume(t, r));
    assert s'.sessions[token] == s.sessions[token];
    assert s'.audits[..s.sessions[token].audits] == s.audits[..s.sessions[token].audits];
    if token.request == t {
      assert s'.tasks[t].trail == s.tasks[t].trail;
    }
  }

  lemma SessionStored(cfg: Config, s: State, t: nat, r: Reply)
    requires Enabled(s, Resume(t, r)) && TrailFits(cfg, t, s.tasks[t]) && AuditsKept(s)
    requires s.tasks[t].phase.StoringSession? && r.applied
    ensures SessionFits(cfg, Apply(cfg, s, Resume(t, r)), s.tasks[t].phase.token)
  {
    var s' := Apply(cfg, s, Resume(t, r));
    assert s'.tasks[t].trail == s.tasks[t].trail;
    assert s.audits[..|s.audits|] == s.audits;
  }

  lemma SessionsStep(cfg: Config, s: State, t: nat, r: Reply)
    requires Enabled(s, Resume(t, r)) && TrailFits(cfg, t, s.tasks[t])
    requires AuditsKept(s) && SessionsFit(cfg, s) && KeysFit(s)
    ensures SessionsFit(cfg, Apply(cfg, s, Resume(t, r)))
  {
    var s' := Apply(cfg, s, Resume(t, r));
    forall token | token in s'.sessions
      ensures SessionFits(cfg, s', token)
    {
      if token in s.sessions {
        SessionKept(cfg, s, t, r, token);
      } else {
        SessionStored(cfg, s, t, r);
      }
    }
    TokensStep(cfg, s, t, r);
  }

  lemma TokensStep(cfg: Config, s: State, t: nat, r: Reply)
    requires Enabled(s, Resume(t, r)) && TokensKnown(s) && KeysFit(s)
    ensures TokensKnown(Apply(cfg, s, Resume(t, r)))
  {
    forall id | Otp(id) in s.temporaries
      ensures s.temporaries[Otp(id)].value in s.sessions
    {
      assert OtpFits(s, Otp(id));
    }
  }

  lemma KeyKept(cfg: Config, s: State, t: nat, r: Reply, key: Key)
    requires Enabled(s, Resume(t, r)) && TrailFits(cfg, t, s.tasks[t]) && SessionsFit(cfg, s) && KeysFit(s)
    requires key in Apply(cfg, s, Resume(t, r)).temporaries
    ensures var s' := Apply(cfg, s, Resume(t, r));
      && KeySpent(s', key) && s'.temporaries[key].storedAt <= s'.now && (key.Otp? ==> OtpFits(s', key))
      && (key.Nonce? ==> s'.temporaries[key].value == NonceOf(key.id))
  {
    var s' := Apply(cfg, s, Resume(t, r));
    var phase := s.tasks[t].phase;
    if phase.StoringOtp? {
      SessionKept(cfg, s, t, r, phase.token);
    }
    if key in s.temporaries {
      KeySpentKept(cfg, s, t, r, key);
      if key.Otp? {
        SessionKept(cfg, s, t, r, s.temporaries[key].value);
      }
    }
  }

  lemma KeysStep(cfg: Config, s: State, t: nat, r: Reply)
    requires Enabled(s, Resume(t, r)) && TrailFits(cfg, t, s.tasks[t]) && SessionsFit(cfg, s) && KeysFit(s)
    ensures KeysFit(Apply(cfg, s, Resume(t, r)))
  {
    forall key | key in Apply(cfg, s, Resume(t, r)).temporaries
      ensures KeySpent(Apply(cfg, s, Resume(t, r)), key)
      ensures Apply(cfg, s, Resume(t, r)).temporaries[key].storedAt <= Apply(cfg, s, Resume(t, r)).now
      ensures key.Otp? ==> OtpFits(Apply(cfg, s, Resume(t, r)), key)
      ensures key.Nonce? ==> Apply(cfg, s, Resume(t, r)).temporaries[key].value == NonceOf(key.id)
    {
      KeyKept(cfg, s, t, r, key);
    }
  }

  lemma OwnConsumption(cfg: Config, s: State, t: nat, r: Reply)
    requires Enabled(s, Resume(t, r)) && TrailFits(cfg, t, s.tasks[t]) && KeysFit(s)
    requires Consumed(s, t)
    ensures Consumed(Apply(cfg, s, Resume(t, r)), t)
  {
    var s' := Apply(cfg, s, Resume(t, r));
    var before := s.tasks[t].trail;
    forall i | 0 <= i < |s'.tasks[t].trail|
      ensures var fact := s'.tasks[t].trail[i];
        && (fact.Taken? ==> KeySpent(s', fact.key))
        && (fact.Dropped? ==> KeySpent(s', fact.key) && (fact.applied ==> fact.key !in s'.temporaries))
    {
      var fact := s'.tasks[t].trail[i];
      if fact.Taken? || fact.Dropped? {
        if i < |before| {
          assert fact == before[i];
          KeySpentKept(cfg, s, t, r, fact.key);
        } else {
          NewFact(cfg, s, t, r);
          KeySpentKept(cfg, s, t, r, fact.key);
        }
      }
    }
  }

  lemma NewFact(cfg: Config, s: State, t: nat, r: Reply)
    requires Enabled(s, Resume(t, r)) && TrailFits(cfg, t, s.tasks[t]) && KeysFit(s) && Consumed(s, t)
    ensures var facts := Facts(cfg, s, s.tasks[t].phase, r);
      && |facts| <= 1
      && (facts != [] && (facts[0].Taken? || facts[0].Dropped?) ==> KeySpent(s, facts[0].key))
      && (facts != [] && facts[0].Dropped? && facts[0].applied ==>
            facts[0].key !in Apply(cfg, s, Resume(t, r)).temporaries)
  {
    var task := s.tasks[t];
    if task.phase.DroppingNonce? || task.phase.DroppingOtp? {
      assert task.trail[0].Taken?;
    }
  }

  lemma DropStep(cfg: Config, s: State, t: nat, r: Reply)
    requires Enabled(s, Resume(t, r)) && TrailFits(cfg, t, s.tasks[t])
    requires TakenThenDropped(s.tasks[t])
    ensures TakenThenDropped(Proceed(cfg, s, t, r))
  {
    var task, task' := s.tasks[t], Proceed(cfg, s, t, r);
    forall i | 0 <= i < |task'.trail|
      ensures DropsNext(task', i)
    {
      if i < |task.trail| {
        assert DropsNext(task, i) && task'.trail[i] == task.trail[i];
        if i + 1 < |task.trail| {
          assert task'.trail[i + 1] == task.trail[i + 1];
        }
      }
    }
  }

  lemma ConsumptionStep(cfg: Config, s: State, t: nat, r: Reply)
    requires Enabled(s, Resume(t, r)) && TrailFits(cfg, t, s.tasks[t]) && KeysFit(s) && ConsumptionFits(s)
    ensures ConsumptionFits(Apply(cfg, s, Resume(t, r)))
  {
    forall u | u in s.tasks
      ensures Consumed(Apply(cfg, s, Resume(t, r)), u) && TakenThenDropped(Apply(cfg, s, Resume(t, r)).tasks[u])
    {
      if u == t {
        OwnConsumption(cfg, s, t, r);
        DropStep(cfg, s, t, r);
      }
    }
  }

  lemma ResumeStep(cfg: Config, s: State, t: nat, r: Reply)
    requires Inv(cfg, s) && Enabled(s, Resume(t, r))
    ensures Inv(cfg, Apply(cfg, s, Resume(t, r)))
  {
    TrailStep(cfg, s, t, r);
    AuditsStep(cfg, s, t, r);
    SessionsStep(cfg, s, t, r);
    KeysStep(cfg, s, t, r);
    ConsumptionStep(cfg, s, t, r);
  }

  // ------------------------------------------------------------ the other steps

  /** Time passed, or requests were added; nothing stored has changed. */
  predicate Grown(s: State, s': State) {
    && s.now <= s'.now && s.temporaries == s'.temporaries && s.sessions == s'.sessions && s.audits == s'.audits
    && forall u :: u in s.tasks ==> u in s'.tasks && s'.tasks[u] == s.tasks[u]
  }

  lemma KeysInGrown(s: State, s': State)
    requires Grown(s, s') && KeysFit(s)
    ensures KeysFit(s')
  {
  }

  lemma ConsumptionInGrown(s: State, s': State)
    requires Grown(s, s') && ConsumptionFits(s)
    requires forall u :: u in s'.tasks && u !in s.tasks ==> s'.tasks[u].trail == []
    ensures ConsumptionFits(s')
  {
  }

  lemma SessionsInGrown(cfg: Config, s: State, s': State)
    requires Grown(s, s') && SessionsFit(cfg, s)
    requires forall u :: u in s'.tasks && u !in s.tasks ==>
      TokenKnown(s', s'.tasks[u].phase)
    ensures SessionsFit(cfg, s')
  {
  }

  lemma TickStep(cfg: Config, s: State, elapsed: nat)
    requires Inv(cfg, s)
    ensures Inv(cfg, Apply(cfg, s, Tick(elapsed)))
  {
    var s' := Apply(cfg, s, Tick(elapsed));
    SessionsInGrown(cfg, s, s');
    KeysInGrown(s, s');
    ConsumptionInGrown(s, s');
  }

  lemma CallStep(cfg: Config, s: State, t: nat, request: Request)
    requires Inv(cfg, s) && t !in s.tasks
    ensures Inv(cfg, Apply(cfg, s, Call(t, request)))
  {
    var s' := Apply(cfg, s, Call(t, request));
    SessionsInGrown(cfg, s, s');
    KeysInGrown(s, s');
    ConsumptionInGrown(s, s');
  }

  lemma InvStep(cfg: Config, s: State, e: Event)
    requires Inv(cfg, s) && Enabled(s, e)
    ensures Inv(cfg, Apply(cfg, s, e))
  {
    match e
    case Tick(elapsed) => TickStep(cfg, s, elapsed);
    case Call(t, request) => CallStep(cfg, s, t, request);
    case Resume(t, r) => ResumeStep(cfg, s, t, r);
  }

  lemma {:induction false} InvAt(cfg: Config, states: seq<State>, events: seq<Event>, i: nat)
    requires Behavior(cfg, states, events) && i < |states|
    ensures Inv(cfg, states[i])
  {
    if i > 0 {
      InvAt(cfg, states, events, i - 1);
      InvStep(cfg, states[i - 1], events[i - 1]);
    }
  }
}
