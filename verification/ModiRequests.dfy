/**
 What becomes of the request a caller makes, over every run of overlapping calls:
 what is sent for it, when it is answered, and what the caches save it.
 */
module ModiRequests {
  import opened Histories
  import opened Wrappers
  import opened ModiProtocol
  import opened ModiSafety

  // --------------------------------------------------------------------- what is sent

  /** The caller set a user; without one nothing is sent. */
  predicate UserGiven(request: Request) {
    request.userId.Some? && request.userId.value != ""
  }

  /** The message has what the request gave, each as what it is, and the defaults for what it left out. */
  predicate Carries(cfg: Config, request: Request, m: Message) {
    && UserGiven(request) && m.userId == request.userId.value
    && m.codiceUfficio ==
         (if request.codiceUfficio.Some? then request.codiceUfficio.value else cfg.defaultCodiceUfficio)
    && m.contentType == (if request.contentType.Some? then request.contentType.value else "application/json")
    && m.body == request.body
  }

  /** The message that a call has built so far, or was answered for. */
  function MessageOf(phase: Phase): Option<Message> {
    match phase
    case FetchingSigning(m, _) => Some(m)
    case FetchingCa(m, _, _) => Some(m)
    case Signing(m, _, _, _) => Some(m)
    case FetchingTls(m, _) => Some(m)
    case Sending(m, _, _) => Some(m)
    case Verifying(m, _, _) => Some(m)
    case Ended(Response(m, _)) => Some(m)
    case Ended(Failed) => None
  }

  predicate Served(cfg: Config, s: State, t: nat, request: Request) {
    && t in s.calls
    && (MessageOf(s.calls[t]).Some? ==> Carries(cfg, request, MessageOf(s.calls[t]).value))
  }

  lemma ServedAtCall(cfg: Config, s: State, e: Event)
    requires Enabled(s, e) && e.Call?
    ensures Served(cfg, Apply(cfg, s, e), e.call, e.request)
  {
  }

  lemma ServedByStep(cfg: Config, s: State, e: Event, request: Request)
    requires Enabled(s, e) && e.Resume? && Served(cfg, s, e.call, request)
    ensures Served(cfg, Apply(cfg, s, e), e.call, request)
  {
  }

  lemma ServedStep(cfg: Config, states: seq<State>, events: seq<Event>, k: nat, t: nat, request: Request)
    requires Behavior(cfg, states, events) && k < |events| && Served(cfg, states[k], t, request)
    ensures Served(cfg, states[k + 1], t, request)
  {
    if events[k].call == t {
      ServedByStep(cfg, states[k], events[k], request);
    } else {
      InvAt(cfg, states, events, k);
      StepIsGood(cfg, states[k], events[k]);
    }
  }

  /** At every moment of a call, and in its answer, the message is the caller's. */
  lemma MessagesAreTheCallers(cfg: Config, states: seq<State>, events: seq<Event>, c: nat, i: nat)
    requires Behavior(cfg, states, events) && c < i < |states| && c < |events| && events[c].Call?
    ensures Served(cfg, states[i], events[c].call, events[c].request)
  {
    var t, request := events[c].call, events[c].request;
    var holds := seq(|states|, k requires 0 <= k < |states| => Served(cfg, states[k], t, request));
    ServedAtCall(cfg, states[c], events[c]);
    forall k | c < k < i && holds[k]
      ensures holds[k + 1]
    {
      ServedStep(cfg, states, events, k, t, request);
    }
    Lasts(holds, c + 1, i);
  }

  // -------------------------------------------------------------------- when it is answered

  /** A call without a user is refused at once; any other has something to wait for. */
  lemma RefusedIffNoUser(cfg: Config, states: seq<State>, events: seq<Event>, i: nat)
    requires Behavior(cfg, states, events) && i < |events| && events[i].Call?
    ensures states[i + 1].calls[events[i].call].Ended? <==> !UserGiven(events[i].request)
    ensures states[i + 1].calls[events[i].call].Ended? ==>
      states[i + 1].calls[events[i].call].answer == Failed && states[i + 1].fetches == states[i].fetches
  {
  }

  /** Whatever a call waits for, if it fails the call fails. */
  lemma FailureEndsCall(cfg: Config, states: seq<State>, events: seq<Event>, i: nat)
    requires Behavior(cfg, states, events) && i < |events| && events[i].Resume? && !events[i].reply.ok
    ensures states[i + 1].calls[events[i].call] == Ended(Failed)
  {
    InvAt(cfg, states, events, i);
    EndsFailed(cfg, states[i], events[i]);
  }

  lemma EndsFailed(cfg: Config, s: State, e: Event)
    requires Enabled(s, e) && e.Resume? && !e.reply.ok
    ensures Apply(cfg, s, e).calls[e.call] == Ended(Failed)
  {
  }

  /** The next thing a call waits for when what it waited for succeeds. */
  predicate GoesOn(cfg: Config, phase: Phase, phase': Phase, r: Reply) {
    match phase
    case FetchingSigning(m, _) => if cfg.profile.P3? then phase'.FetchingCa? else phase'.Signing?
    case FetchingCa(m, _, _) => phase'.Signing?
    case Signing(m, _, _, _) => phase'.FetchingTls? || phase'.Sending?
    case FetchingTls(m, _) => phase'.Sending?
    case Sending(m, _, _) =>
      if !cfg.profile.P3? then phase' == Ended(Response(m, None))
      else if r.digest.Some? then phase'.Verifying? && phase'.m == m && phase'.digest == r.digest.value
      else phase' == Ended(Failed)
    case Verifying(m, ca, digest) =>
      phase' == Ended(if ca.Some? && m.digest == Some(digest) then Response(m, Some(Proof(ca.value, digest)))
        else Failed)
    case Ended(_) => false
  }

  /**
   And if it succeeds the call goes on: it is answered in the end, unless, in P3, the
   response brings no JWT, or no CA is known, or the JWT answers another digest.
   */
  lemma SuccessGoesOn(cfg: Config, states: seq<State>, events: seq<Event>, i: nat)
    requires Behavior(cfg, states, events) && i < |events| && events[i].Resume? && events[i].reply.ok
    ensures GoesOn(cfg, states[i].calls[events[i].call], states[i + 1].calls[events[i].call], events[i].reply)
  {
    StepGoesOn(cfg, states[i], events[i]);
  }

  lemma StepGoesOn(cfg: Config, s: State, e: Event)
    requires Enabled(s, e) && e.Resume? && e.reply.ok
    ensures GoesOn(cfg, s.calls[e.call], Apply(cfg, s, e).calls[e.call], e.reply)
  {
  }

  // ------------------------------------------------------------------------ what is saved

  /** The step begins a fetch of this kind. */
  ghost predicate Fetches(s: State, s': State, kind: Kind) {
    exists k :: |s.fetches| <= k < |s'.fetches| && s'.fetches[k].kind == kind
  }

  predicate DispatcherCached(s: State, at: nat) {
    s.dispatcher.Some? && s.dispatcher.value.expiresAt > at
  }

  predicate SigningCached(s: State, at: nat) {
    s.signing.Some? && s.signing.value.expiresAt > at
  }

  /** While something is cached, and has not expired, it is not fetched. */
  lemma NoFetchWhileCached(cfg: Config, states: seq<State>, events: seq<Event>, i: nat)
    requires Behavior(cfg, states, events) && i < |events|
    ensures DispatcherCached(states[i], states[i + 1].now) ==> !Fetches(states[i], states[i + 1], Tls)
    ensures SigningCached(states[i], states[i + 1].now) ==> !Fetches(states[i], states[i + 1], SigningKey)
  {
    StepFetches(cfg, states[i], events[i]);
  }

  lemma StepFetches(cfg: Config, s: State, e: Event)
    requires Enabled(s, e)
    ensures DispatcherCached(s, Apply(cfg, s, e).now) ==> !Fetches(s, Apply(cfg, s, e), Tls)
    ensures SigningCached(s, Apply(cfg, s, e).now) ==> !Fetches(s, Apply(cfg, s, e), SigningKey)
  {
  }

  /** A fetch of this kind succeeds. */
  predicate Succeeds(s: State, e: Event, kind: Kind) {
    && e.Resume? && e.reply.ok && e.call in s.calls
    && match kind
       case Tls => s.calls[e.call].FetchingTls?
       case SigningKey => s.calls[e.call].FetchingSigning?
       case SigningCa => s.calls[e.call].FetchingCa?
  }

  /** What this fetch brought is cached until then. */
  predicate Keeps(s: State, kind: Kind, fetch: nat, until: nat) {
    match kind
    case Tls => s.dispatcher == Some(CachedDispatcher(Some(fetch), until))
    case SigningKey => s.signing == Some(CachedSigning(fetch, until))
    case SigningCa => s.signingCa == Some(fetch)
  }

  lemma StepCaches(cfg: Config, s: State, e: Event, kind: Kind)
    requires Enabled(s, e) && Succeeds(s, e, kind) && kind != SigningCa
    ensures var fetch := s.calls[e.call].fetch;
      fetch < |s.fetches| && Keeps(Apply(cfg, s, e), kind, fetch, s.fetches[fetch].begun + 86_400_000)
  {
  }

  lemma StepKeeps(cfg: Config, s: State, e: Event, kind: Kind, fetch: nat, until: nat)
    requires Enabled(s, e) && Keeps(s, kind, fetch, until) && !Succeeds(s, e, kind) && Apply(cfg, s, e).now < until
    ensures Keeps(Apply(cfg, s, e), kind, fetch, until)
  {
  }

  lemma StepTakesTime(cfg: Config, s: State, e: Event)
    requires Enabled(s, e)
    ensures s.now <= Apply(cfg, s, e).now
  {
  }

  lemma TimePasses(cfg: Config, states: seq<State>, events: seq<Event>, n: nat)
    requires Behavior(cfg, states, events) && n < |events|
    ensures states[n].now <= states[n + 1].now
  {
    StepTakesTime(cfg, states[n], events[n]);
  }

  lemma KeepsOn(cfg: Config, states: seq<State>, events: seq<Event>, n: nat, kind: Kind, fetch: nat, until: nat)
    requires Behavior(cfg, states, events) && n < |events| && Keeps(states[n], kind, fetch, until)
    requires !Succeeds(states[n], events[n], kind) && states[n + 1].now < until
    ensures Keeps(states[n + 1], kind, fetch, until)
  {
    StepKeeps(cfg, states[n], events[n], kind, fetch, until);
  }

  lemma KeptUntil(cfg: Config, states: seq<State>, events: seq<Event>, k: nat, j: nat, kind: Kind, fetch: nat,
          until: nat)
    requires Behavior(cfg, states, events) && k <= j < |states| && Keeps(states[k], kind, fetch, until)
    requires states[j].now < until && forall n :: k <= n < j ==> !Succeeds(states[n], events[n], kind)
    ensures Keeps(states[j], kind, fetch, until)
  {
    var clock := seq(|states|, n requires 0 <= n < |states| => states[n].now);
    var holds := seq(|states|, n requires 0 <= n < |states| => Keeps(states[n], kind, fetch, until));
    forall n | k <= n < j
      ensures clock[n] <= clock[n + 1]
    {
      TimePasses(cfg, states, events, n);
    }
    forall n | k <= n < j && holds[n] && clock[n + 1] < until
      ensures holds[n + 1]
    {
      KeepsOn(cfg, states, events, n, kind, fetch, until);
    }
    LastsUntil(clock, holds, k, j, until);
  }

  /**
   Material that was fetched is used for a day: for 24 hours from the beginning of a fetch of
   the mTLS material or of the credentials that succeeded, until another succeeds, no
   call begins one more.
   */
  lemma FetchedOnceADay(cfg: Config, states: seq<State>, events: seq<Event>, k: nat, j: nat, kind: Kind)
    requires Behavior(cfg, states, events) && k < j < |events| && kind != SigningCa
    requires Succeeds(states[k], events[k], kind) && forall n :: k < n < j ==> !Succeeds(states[n], events[n], kind)
    requires states[k].calls[events[k].call].fetch < |states[k].fetches|
    requires states[j + 1].now < states[k].fetches[states[k].calls[events[k].call].fetch].begun + 86_400_000
    ensures !Fetches(states[j], states[j + 1], kind)
  {
    var fetch := states[k].calls[events[k].call].fetch;
    var until := states[k].fetches[fetch].begun + 86_400_000;
    StepCaches(cfg, states[k], events[k], kind);
    StepTakesTime(cfg, states[j], events[j]);
    KeptUntil(cfg, states, events, k + 1, j, kind, fetch, until);
    NoFetchWhileCached(cfg, states, events, j);
  }

  /** A call that finds a dispatcher or credentials cached uses those. */
  lemma CachedIsUsed(cfg: Config, states: seq<State>, events: seq<Event>, i: nat)
    requires Behavior(cfg, states, events) && i < |events|
    ensures var t, s, s' := events[i].call, states[i], states[i + 1];
      && (s'.calls[t].Sending? && !(t in s.calls && s.calls[t].FetchingTls?) && DispatcherCached(s, s'.now) ==>
            s'.calls[t].dispatcher == s.dispatcher.value.dispatcher)
      && (s'.calls[t].Signing? && t !in s.calls ==>
            SigningCached(s, s'.now) && s'.calls[t].credentials == s.signing.value.credentials)
  {
    InvAt(cfg, states, events, i);
    StepUsesCached(cfg, states[i], events[i]);
  }

  lemma StepUsesCached(cfg: Config, s: State, e: Event)
    requires Enabled(s, e)
    ensures var t, s' := e.call, Apply(cfg, s, e);
      && (s'.calls[t].Sending? && !(t in s.calls && s.calls[t].FetchingTls?) && DispatcherCached(s, s'.now) ==>
            s'.calls[t].dispatcher == s.dispatcher.value.dispatcher)
      && (s'.calls[t].Signing? && t !in s.calls ==>
            SigningCached(s, s'.now) && s'.calls[t].credentials == s.signing.value.credentials)
  {
  }
}
