/**
 The FIMS login as a step system: any number of overlapping requests of its four
 use cases over one session store and one audit log.

 Every await is one step: the store or log call takes effect, or fails, and the
 request runs on to its next await. A failed write may still have taken effect.
 Times are in milliseconds; every random identifier is named by the request that
 drew it and the number of the draw, so no two draws coincide.
 */
module FimsProtocol {
  import opened Wrappers

  datatype Id = Id(request: nat, draw: nat)

  /** `nonce:<state>` and `otp:<session id>`. */
  datatype Key = Nonce(id: Id) | Otp(id: Id)

  /** What the identity provider says of a user; `lollipop` is the assertion, its reference and the public key. */
  datatype User = User(fiscalCode: string, familyName: string, givenName: string, lollipop: string)

  datatype Session = Session(fiscalCode: string, familyName: string, givenName: string)

  datatype Audit =
    | ExchangeAudit(code: string, fiscalCode: string)
    | LollipopAudit(fiscalCode: string, lollipop: string)
    | TestSessionAudit(fiscalCode: string)

  /** The upper case of each character, which may be several, each its own upper case. */
  type CaseMapping = f: char -> string | forall c, d :: d in f(c) ==> f(d) == [d] witness c => [c]

  datatype Config = Config(
    issuerUrl: string,
    testUsers: set<string>,
    upper: CaseMapping,
    hash: string -> string,
    sessionTtlSeconds: Option<nat>,
    otpTtlSeconds: Option<nat>)
  {
    function SessionTtl(): nat {
      1000 * if sessionTtlSeconds.Some? then sessionTtlSeconds.value else 1800
    }

    function OtpTtl(): nat {
      1000 * if otpTtlSeconds.Some? then otpTtlSeconds.value else 60
    }

    function Upper(s: string): string {
      if s == "" then "" else upper(s[0]) + Upper(s[1..])
    }

    /** The list of test users holds hashes of upper-case fiscal codes. */
    predicate IsTestUser(fiscalCode: string) {
      hash(Upper(fiscalCode)) in testUsers
    }
  }

  lemma {:induction false} UpperJoins(cfg: Config, a: string, b: string)
    ensures cfg.Upper(a + b) == cfg.Upper(a) + cfg.Upper(b)
  {
    if a == "" {
      assert a + b == b;
    } else {
      assert (a + b)[0] == a[0] && (a + b)[1..] == a[1..] + b;
      UpperJoins(cfg, a[1..], b);
    }
  }

  lemma {:induction false} UpperCasesStay(cfg: Config, s: string)
    requires forall d :: d in s ==> cfg.upper(d) == [d]
    ensures cfg.Upper(s) == s
  {
    if s != "" {
      UpperCasesStay(cfg, s[1..]);
      assert s == [s[0]] + s[1..];
    }
  }

  lemma {:induction false} UpperTwice(cfg: Config, s: string)
    ensures cfg.Upper(cfg.Upper(s)) == cfg.Upper(s)
  {
    if s != "" {
      UpperJoins(cfg, cfg.upper(s[0]), cfg.Upper(s[1..]));
      UpperCasesStay(cfg, cfg.upper(s[0]));
      UpperTwice(cfg, s[1..]);
    }
  }

  /** A test user's session is a test user's again: the stored code is the upper-case one. */
  lemma UpperIsTestUser(cfg: Config, fiscalCode: string)
    ensures cfg.IsTestUser(cfg.Upper(fiscalCode)) <==> cfg.IsTestUser(fiscalCode)
  {
    UpperTwice(cfg, fiscalCode);
  }

  /**
   With the hashes of some codes in upper case as its list, whoever has one of them, in
   whatever case, is a test user.
   */
  lemma TestUsersAreTheListed(cfg: Config, codes: set<string>, fiscalCode: string)
    requires cfg.testUsers == set c | c in codes :: cfg.hash(cfg.Upper(c))
    requires forall c :: c in codes && cfg.hash(cfg.Upper(c)) == cfg.hash(cfg.Upper(fiscalCode)) ==>
      cfg.Upper(c) == cfg.Upper(fiscalCode)
    ensures cfg.IsTestUser(fiscalCode) <==> exists c :: c in codes && cfg.Upper(c) == cfg.Upper(fiscalCode)
  {
  }

  // ------------------------------------------------------------------- requests

  datatype Callback = Callback(code: string, state: Id, headers: bool)

  datatype Request =
    | InitiateAuth
    | HandleCallback(callback: Callback, iss: string)
    | CreateTestSession(fiscalCode: string, familyName: string, givenName: string)
    | ExchangeSessionId(id: Id)

  datatype Answer = Refused | AuthorizationUrl(state: Id, nonce: Id) | Redirect(id: Id) | Token(token: Id)

  /** The await a request is suspended at. */
  datatype Phase =
    | StoringNonce(state: Id, nonce: Id)
    | FetchingUrl(state: Id, nonce: Id)
    | ReadingNonce(callback: Callback)
    | DroppingNonce(callback: Callback, nonce: Id)
    | Exchanging(callback: Callback, nonce: Id)
    | AuditingExchange(callback: Callback, user: User)
    | Verifying(callback: Callback, user: User)
    | AuditingLollipop(callback: Callback, user: User)
    | AuditingTest(fiscalCode: string, session: Session)
    | StoringSession(session: Session, token: Id, id: Id)
    | StoringOtp(token: Id, id: Id)
    | ReadingOtp(id: Id)
    | DroppingOtp(id: Id, token: Id)
    | Ended(answer: Answer)

  /** What a request has done, in order. */
  datatype Fact =
    | Taken(key: Key)
    | Dropped(key: Key, applied: bool)
    | Exchanged(code: string, state: Id, nonce: Id, user: User)
    | Audited(audit: Audit)
    | Verified(user: User, state: Id)

  datatype Task = Task(phase: Phase, trail: seq<Fact>)

  datatype Temporary = Temporary(value: Id, storedAt: nat)

  /** A stored session, and how many audits the log held when it was stored. */
  datatype Stored = Stored(session: Session, storedAt: nat, audits: nat)

  datatype State = State(
    now: nat,
    temporaries: map<Key, Temporary>,
    sessions: map<Id, Stored>,
    audits: seq<Audit>,
    tasks: map<nat, Task>)

  /** How an awaited call came out. Only the exchange has a user. */
  datatype Reply = Reply(ok: bool, applied: bool, user: User)

  datatype Event = Tick(elapsed: nat) | Call(task: nat, request: Request) | Resume(task: nat, reply: Reply)

  function Init(now: nat): State {
    State(now, map[], map[], [], map[])
  }

  predicate Live(cfg: Config, s: State, key: Key) {
    key in s.temporaries && s.now < s.temporaries[key].storedAt + cfg.OtpTtl()
  }

  predicate SessionLive(cfg: Config, s: State, token: Id) {
    token in s.sessions && s.now < s.sessions[token].storedAt + cfg.SessionTtl()
  }

  function SessionOf(user: User): Session {
    Session(user.fiscalCode, user.familyName, user.givenName)
  }

  function ExchangeAuditOf(callback: Callback, user: User): Audit {
    ExchangeAudit(callback.code, user.fiscalCode)
  }

  function LollipopAuditOf(user: User): Audit {
    LollipopAudit(user.fiscalCode, user.lollipop)
  }

  // ---------------------------------------------------------------------- steps

  predicate Enabled(s: State, e: Event) {
    match e
    case Tick(_) => true
    case Call(t, _) => t !in s.tasks
    case Resume(t, r) => t in s.tasks && !s.tasks[t].phase.Ended? && (r.ok ==> r.applied)
  }

  /** A request up to its first await. */
  function Begin(cfg: Config, t: nat, request: Request): Phase {
    match request
    case InitiateAuth => StoringNonce(Id(t, 0), Id(t, 1))
    case HandleCallback(callback, iss) => if iss != cfg.issuerUrl then Ended(Refused) else ReadingNonce(callback)
    case CreateTestSession(fiscalCode, familyName, givenName) =>
      if !cfg.IsTestUser(fiscalCode) then Ended(Refused)
      else AuditingTest(fiscalCode, Session(cfg.Upper(fiscalCode), familyName, givenName))
    case ExchangeSessionId(id) => ReadingOtp(id)
  }

  /** From one await to the next. */
  function Continue(cfg: Config, s: State, t: nat, phase: Phase, r: Reply): Phase
    requires !phase.Ended?
  {
    match phase
    case StoringNonce(state, nonce) => if r.ok then FetchingUrl(state, nonce) else Ended(Refused)
    case FetchingUrl(state, nonce) => Ended(if r.ok then AuthorizationUrl(state, nonce) else Refused)
    case ReadingNonce(callback) =>
      if r.ok && Live(cfg, s, Nonce(callback.state))
        then DroppingNonce(callback, s.temporaries[Nonce(callback.state)].value)
      else Ended(Refused)
    case DroppingNonce(callback, nonce) => Exchanging(callback, nonce)
    case Exchanging(callback, _) => if r.ok then AuditingExchange(callback, r.user) else Ended(Refused)
    case AuditingExchange(callback, user) =>
      if !r.ok then Ended(Refused)
      else if cfg.IsTestUser(user.fiscalCode) then StoringSession(SessionOf(user), Id(t, 0), Id(t, 1))
      else if callback.headers then Verifying(callback, user)
      else Ended(Refused)
    case Verifying(callback, user) => if r.ok then AuditingLollipop(callback, user) else Ended(Refused)
    case AuditingLollipop(_, user) =>
      if r.ok then StoringSession(SessionOf(user), Id(t, 0), Id(t, 1)) else Ended(Refused)
    case AuditingTest(_, session) => if r.ok then StoringSession(session, Id(t, 1), Id(t, 2)) else Ended(Refused)
    case StoringSession(_, token, id) => if r.ok then StoringOtp(token, id) else Ended(Refused)
    case StoringOtp(_, id) => Ended(if r.ok then Redirect(id) else Refused)
    case ReadingOtp(id) =>
      if r.ok && Live(cfg, s, Otp(id)) then DroppingOtp(id, s.temporaries[Otp(id)].value) else Ended(Refused)
    case DroppingOtp(_, token) => Ended(Token(token))
  }

  /** What the request adds to its trail on the way. */
  function Facts(cfg: Config, s: State, phase: Phase, r: Reply): seq<Fact> {
    match phase
    case ReadingNonce(callback) =>
      if r.ok && Live(cfg, s, Nonce(callback.state)) then [Taken(Nonce(callback.state))] else []
    case DroppingNonce(callback, _) => [Dropped(Nonce(callback.state), r.applied)]
    case Exchanging(callback, nonce) => if r.ok then [Exchanged(callback.code, callback.state, nonce, r.user)] else []
    case AuditingExchange(callback, user) => if r.applied then [Audited(ExchangeAuditOf(callback, user))] else []
    case Verifying(callback, user) => if r.ok then [Verified(user, callback.state)] else []
    case AuditingLollipop(_, user) => if r.applied then [Audited(LollipopAuditOf(user))] else []
    case AuditingTest(fiscalCode, _) => if r.applied then [Audited(TestSessionAudit(fiscalCode))] else []
    case ReadingOtp(id) => if r.ok && Live(cfg, s, Otp(id)) then [Taken(Otp(id))] else []
    case DroppingOtp(id, _) => [Dropped(Otp(id), r.applied)]
    case _ => []
  }

  function Temporaries(s: State, phase: Phase, r: Reply): map<Key, Temporary> {
    if !r.applied then s.temporaries
    else
      match phase
      case StoringNonce(state, nonce) => s.temporaries[Nonce(state) := Temporary(nonce, s.now)]
      case StoringOtp(token, id) => s.temporaries[Otp(id) := Temporary(token, s.now)]
      case DroppingNonce(callback, _) => s.temporaries - {Nonce(callback.state)}
      case DroppingOtp(id, _) => s.temporaries - {Otp(id)}
      case _ => s.temporaries
  }

  function Sessions(s: State, phase: Phase, r: Reply): map<Id, Stored> {
    if r.applied && phase.StoringSession?
    then s.sessions[phase.token := Stored(phase.session, s.now, |s.audits|)]
    else s.sessions
  }

  function Audits(s: State, phase: Phase, r: Reply): seq<Audit> {
    if !r.applied then s.audits
    else
      match phase
      case AuditingExchange(callback, user) => s.audits + [ExchangeAuditOf(callback, user)]
      case AuditingLollipop(_, user) => s.audits + [LollipopAuditOf(user)]
      case AuditingTest(fiscalCode, _) => s.audits + [TestSessionAudit(fiscalCode)]
      case _ => s.audits
  }

  function Proceed(cfg: Config, s: State, t: nat, r: Reply): Task
    requires t in s.tasks && !s.tasks[t].phase.Ended?
  {
    var task := s.tasks[t];
    Task(Continue(cfg, s, t, task.phase, r), task.trail + Facts(cfg, s, task.phase, r))
  }

  function Apply(cfg: Config, s: State, e: Event): State
    requires Enabled(s, e)
  {
    match e
    case Tick(elapsed) => s.(now := s.now + elapsed)
    case Call(t, request) => s.(tasks := s.tasks[t := Task(Begin(cfg, t, request), [])])
    case Resume(t, r) =>
      var phase := s.tasks[t].phase;
      State(s.now, Temporaries(s, phase, r), Sessions(s, phase, r), Audits(s, phase, r),
        s.tasks[t := Proceed(cfg, s, t, r)])
  }

  ghost predicate Behavior(cfg: Config, states: seq<State>, events: seq<Event>) {
    && |states| == |events| + 1
    && states[0] == Init(states[0].now)
    && forall i :: 0 <= i < |events| ==>
        Enabled(states[i], events[i]) && states[i + 1] == Apply(cfg, states[i], events[i])
  }
}
