/**
 The signed fetch of the ModI adapter as a step system: any number of overlapping
 calls over one dispatcher cache, one cache of signing credentials and one signing CA.

 Every event says how much time passed since the one before, in milliseconds, so
 the clock that the caches read never runs backwards. What a fetch from the
 credential provider returns is named by the number of the fetch.
 */
module ModiProtocol {
  import opened Wrappers

  const CACHE_TTL: nat := 24 * 60 * 60 * 1000

  type Bytes = seq<bv8>

  /** The bytes of a request body, by the kind of value that holds them. */
  datatype Body =
    | NoBody
    | Text(bytes: Bytes)
    | Buffer(bytes: Bytes)
    | ArrayBuffer(bytes: Bytes)
    | Uint8Array(bytes: Bytes)
    | OtherBody(bytes: Bytes)

  datatype Profile = P1 | P2 | P3

  /** `mtls` tells whether all three secret names of the mTLS material are set. */
  datatype Config = Config(profile: Profile, defaultCodiceUfficio: string, mtls: bool, sha256: Bytes -> string)

  /** The headers the caller set, and the body. */
  datatype Request = Request(userId: Option<string>, codiceUfficio: Option<string>, contentType: Option<string>,
    body: Body)

  /** What the request JWT is signed with, and what it claims. */
  datatype Claims = Claims(credentials: nat, codiceUfficio: string, contentType: string, digest: Option<string>,
    userId: string)

  /** The request as it is built up to be sent. */
  datatype Message = Message(
    userId: string,
    codiceUfficio: string,
    contentType: string,
    body: Body,
    digest: Option<string>,
    jwt: Option<Claims>)

  /** What the network sends of a body. */
  function Sent(body: Body): Bytes {
    if body.NoBody? then [] else body.bytes
  }

  /** What the digest is computed over. */
  function Digested(body: Body): Bytes {
    match body
    case Text(b) => b
    case Buffer(b) => b
    case ArrayBuffer(b) => b
    case Uint8Array(b) => b
    case _ => []
  }

  function ComputeDigest(cfg: Config, bytes: Bytes): string {
    "SHA-256=" + cfg.sha256(bytes)
  }

  /** The headers up to the digest; nothing for a caller that set no user. */
  function Build(cfg: Config, request: Request): Option<Message> {
    if request.userId.None? || request.userId.value == "" then None
    else
      Some(Message(
        request.userId.value,
        if request.codiceUfficio.Some? then request.codiceUfficio.value else cfg.defaultCodiceUfficio,
        if request.contentType.Some? then request.contentType.value else "application/json",
        request.body,
        if cfg.profile.P1? then None else Some(ComputeDigest(cfg, Digested(request.body))),
        None))
  }

  function Sign(m: Message, credentials: nat): Message {
    m.(jwt := Some(Claims(credentials, m.codiceUfficio, m.contentType, m.digest, m.userId)))
  }

  // ---------------------------------------------------------------------- state

  datatype Kind = Tls | SigningKey | SigningCa

  datatype Outcome = Pending | Succeeded | Failing

  /** One fetch from the credential provider. */
  datatype Fetch = Fetch(kind: Kind, call: nat, begun: nat, outcome: Outcome)

  datatype CachedDispatcher = CachedDispatcher(dispatcher: Option<nat>, expiresAt: nat)

  datatype CachedSigning = CachedSigning(credentials: nat, expiresAt: nat)

  /** What a response was verified with: the CA, and the digest that the response says it answers. */
  datatype Proof = Proof(ca: nat, digest: string)

  datatype Answer = Failed | Response(message: Message, proof: Option<Proof>)

  /**
   The await a call is suspended at. `readAt` is the clock reading its last cache
   look-up made; `own` tells that the credentials are the cached ones found at that
   reading or were fetched by the call itself.
   */
  datatype Phase =
    | FetchingSigning(m: Message, fetch: nat)
    | FetchingCa(m: Message, signing: nat, fetch: nat)
    | Signing(m: Message, credentials: nat, readAt: nat, own: bool)
    | FetchingTls(m: Message, fetch: nat)
    | Sending(m: Message, dispatcher: Option<nat>, readAt: nat)
    | Verifying(m: Message, ca: Option<nat>, digest: string)
    | Ended(answer: Answer)

  datatype State = State(
    now: nat,
    dispatcher: Option<CachedDispatcher>,
    signing: Option<CachedSigning>,
    signingCa: Option<nat>,
    fetches: seq<Fetch>,
    calls: map<nat, Phase>)

  function Init(now: nat): State {
    State(now, None, None, None, [], map[])
  }

  /** How an awaited operation came out; `digest` is the `request_digest` of the response's JWT, if it has one. */
  datatype Reply = Reply(elapsed: nat, ok: bool, digest: Option<string>)

  datatype Event = Call(call: nat, request: Request, elapsed: nat) | Resume(call: nat, reply: Reply)

  // ---------------------------------------------------------------------- steps

  function Goto(s: State, t: nat, phase: Phase): State {
    s.(calls := s.calls[t := phase])
  }

  /** `getSigningCredentials` up to its first await. */
  function EnterSigning(s: State, t: nat, m: Message): State {
    if s.signing.Some? && s.signing.value.expiresAt > s.now
    then Goto(s, t, Signing(m, s.signing.value.credentials, s.now, true))
    else Goto(s, t, FetchingSigning(m, |s.fetches|)).(fetches := s.fetches + [Fetch(SigningKey, t, s.now, Pending)])
  }

  /** `getDispatcher` up to its first await. */
  function EnterDispatcher(cfg: Config, s: State, t: nat, m: Message): State {
    if s.dispatcher.Some? && s.dispatcher.value.expiresAt > s.now
    then Goto(s, t, Sending(m, s.dispatcher.value.dispatcher, s.now))
    else if !cfg.mtls
    then Goto(s, t, Sending(m, None, s.now)).(dispatcher := Some(CachedDispatcher(None, s.now + CACHE_TTL)))
    else Goto(s, t, FetchingTls(m, |s.fetches|)).(fetches := s.fetches + [Fetch(Tls, t, s.now, Pending)])
  }

  function Settle(s: State, fetch: nat, ok: bool): State
    requires fetch < |s.fetches|
  {
    s.(fetches := s.fetches[fetch := s.fetches[fetch].(outcome := if ok then Succeeded else Failing)])
  }

  predicate Enabled(s: State, e: Event) {
    match e
    case Call(t, _, _) => t !in s.calls
    case Resume(t, _) =>
      && t in s.calls
      && var phase := s.calls[t];
      && !phase.Ended?
      && (phase.FetchingSigning? || phase.FetchingCa? || phase.FetchingTls? ==> phase.fetch < |s.fetches|)
      && (phase.FetchingCa? ==> phase.signing < |s.fetches| && s.signing.Some?)
  }

  function Begin(cfg: Config, s: State, t: nat, request: Request): State {
    match Build(cfg, request)
    case None => Goto(s, t, Ended(Failed))
    case Some(m) => if cfg.profile.P1? then EnterDispatcher(cfg, s, t, m) else EnterSigning(s, t, m)
  }

  function SigningFetched(cfg: Config, s: State, t: nat, m: Message, fetch: nat, ok: bool): State
    requires fetch < |s.fetches|
  {
    var s' := Settle(s, fetch, ok);
    if !ok then Goto(s', t, Ended(Failed))
    else
      var cached := s'.(signing := Some(CachedSigning(fetch, s.fetches[fetch].begun + CACHE_TTL)));
      if cfg.profile.P3?
      then Goto(cached, t, FetchingCa(m, fetch, |s.fetches|))
            .(fetches := s'.fetches + [Fetch(SigningCa, t, s.now, Pending)])
      else Goto(cached, t, Signing(m, fetch, s.fetches[fetch].begun, true))
  }

  /** The credentials returned are the cached ones at this moment, whoever stored them. */
  function CaFetched(s: State, t: nat, m: Message, signing: nat, fetch: nat, ok: bool): State
    requires fetch < |s.fetches| && signing < |s.fetches| && s.signing.Some?
  {
    var s' := Settle(s, fetch, ok);
    if !ok then Goto(s', t, Ended(Failed))
    else
      var credentials := s.signing.value.credentials;
      Goto(s', t, Signing(m, credentials, s.fetches[signing].begun, credentials == signing)).(signingCa := Some(fetch))
  }

  function TlsFetched(s: State, t: nat, m: Message, fetch: nat, ok: bool): State
    requires fetch < |s.fetches|
  {
    var s' := Settle(s, fetch, ok);
    if !ok then Goto(s', t, Ended(Failed))
    else
      var begun := s.fetches[fetch].begun;
      Goto(s', t, Sending(m, Some(fetch), begun)).(dispatcher := Some(CachedDispatcher(Some(fetch), begun + CACHE_TTL)))
  }

  function Responded(cfg: Config, s: State, t: nat, m: Message, r: Reply): State {
    if !r.ok then Goto(s, t, Ended(Failed))
    else if !cfg.profile.P3? then Goto(s, t, Ended(Response(m, None)))
    else if r.digest.None? then Goto(s, t, Ended(Failed))
    else Goto(s, t, Verifying(m, s.signingCa, r.digest.value))
  }

  /** Without a CA, or with another digest than the one sent, verification fails. */
  function Verified(s: State, t: nat, m: Message, ca: Option<nat>, digest: string, ok: bool): State {
    Goto(s, t, Ended(
      if ok && ca.Some? && m.digest == Some(digest) then Response(m, Some(Proof(ca.value, digest))) else Failed))
  }

  function SignatureMade(cfg: Config, s: State, t: nat, m: Message, credentials: nat, ok: bool): State {
    if ok then EnterDispatcher(cfg, s, t, Sign(m, credentials)) else Goto(s, t, Ended(Failed))
  }

  /** From one await to the next. */
  function Proceed(cfg: Config, s: State, t: nat, r: Reply): State
    requires Enabled(s, Resume(t, r))
  {
    match s.calls[t]
    case FetchingSigning(m, f) => SigningFetched(cfg, s, t, m, f, r.ok)
    case FetchingCa(m, own, f) => CaFetched(s, t, m, own, f, r.ok)
    case Signing(m, credentials, _, _) => SignatureMade(cfg, s, t, m, credentials, r.ok)
    case FetchingTls(m, f) => TlsFetched(s, t, m, f, r.ok)
    case Sending(m, _, _) => Responded(cfg, s, t, m, r)
    case Verifying(m, ca, digest) => Verified(s, t, m, ca, digest, r.ok)
  }

  /** Time passes, and nothing else changes. */
  function Waited(s: State, elapsed: nat): State {
    s.(now := s.now + elapsed)
  }

  function Apply(cfg: Config, s: State, e: Event): State
    requires Enabled(s, e)
  {
    match e
    case Call(t, request, elapsed) => Begin(cfg, Waited(s, elapsed), t, request)
    case Resume(t, r) => Proceed(cfg, Waited(s, r.elapsed), t, r)
  }

  ghost predicate Behavior(cfg: Config, states: seq<State>, events: seq<Event>) {
    && |states| == |events| + 1
    && states[0] == Init(states[0].now)
    && forall i :: 0 <= i < |events| ==>
        Enabled(states[i], events[i]) && states[i + 1] == Apply(cfg, states[i], events[i])
  }
}
