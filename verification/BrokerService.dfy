/** The broker operations that move a record through the protocol: internal/broker/httpapi/operations.go
    and `oauthCallback` of internal/broker/httpapi/server.go. Provider calls, random strings and the
    clock are parameters. */
module BrokerService {
  import opened Wrappers
  import opened RateLimit
  import opened Broker

  const LIMIT_START := 10
  const LIMIT_CALLBACK := 30
  const LIMIT_HANDOFF := 20
  const LIMIT_HANDOFF_FAILURE := 5

  datatype Code = ProviderNotConfigured | AuthDisabled | RateLimited | FieldsRequired | VersionDisabled | InvalidRedirect
                | RandomFailed | PersistFailed | UrlFailed | ProviderError | StateError(error: Error) | TokenExchangeFailed
                | SealFailed | HandoffError(error: Error) | PayloadInvalid

  datatype Reply<+T> = Reply(value: T) | Refused(code: Code)

  datatype Config = Config(configured: set<string>, authDisabled: bool, disabledVersions: set<string>, stateTTL: int, handoffTTL: int)

  /** As received, untrimmed; `redirectOk` is the verdict on the trimmed redirect. */
  datatype StartRequest = StartRequest(provider: string, session: string, handoffChallenge: Challenge, redirect: string,
                                       redirectOk: bool, scopes: seq<string>, version: string, ip: string)

  datatype ExchangeRequest = ExchangeRequest(provider: string, session: string, brokerState: string, code: string,
                                             verifier: string, version: string, ip: string)

  function Key(surface: string, dimension: string): string {
    surface + "|" + dimension
  }

  /** Requests to different surfaces never share a bucket. */
  lemma SurfacesApart(a: string, x: string, b: string, y: string)
    requires '|' !in a && '|' !in b && Key(a, x) == Key(b, y)
    ensures a == b && x == y
  {
    FirstBar(a, x);
    FirstBar(b, y);
  }

  lemma FirstBar(surface: string, dimension: string)
    requires '|' !in surface
    ensures var k := Key(surface, dimension);
            && |surface| < |k| && k[|surface|] == '|' && (forall i :: 0 <= i < |surface| ==> k[i] != '|')
            && k[..|surface|] == surface && k[|surface| + 1..] == dimension
  {
  }

  function StartedState(cfg: Config, req: StartRequest, id: string, verifier: string, now: int): OAuthState {
    OAuthState(id, req.provider, TrimSpace(req.session), verifier, S256(verifier), TrimChallenge(req.handoffChallenge),
               TrimSpace(req.redirect), req.scopes, now + cfg.stateTTL, None)
  }

  /** A challenge without surrounding space; an S256 challenge has none. */
  function TrimChallenge(c: Challenge): Challenge {
    match c
    case S256(_) => c
    case OtherText(text) => OtherText(TrimSpace(text))
  }

  function ExchangeBinding(req: ExchangeRequest): Binding {
    Binding(TrimSpace(req.brokerState), TrimSpace(req.session), S256(TrimSpace(req.verifier)))
  }

  /** One question to the limiter: its buckets afterwards and the answer. */
  function Asked(buckets: map<string, Bucket>, window: int, now: int, key: string, limit: int): (map<string, Bucket>, bool) {
    LazyNext(buckets, window, Request(now, key, limit))
  }

  /** The first reason to refuse a start, if there is one. */
  function StartRefusal(cfg: Config, req: StartRequest, allowed: bool, random: bool, unused: bool, urlOk: bool): (r: Option<Code>)
    ensures r.None? <==>
              && req.provider in cfg.configured && !cfg.authDisabled && allowed
              && TrimSpace(req.session) != "" && TrimChallenge(req.handoffChallenge) != OtherText("")
              && TrimSpace(req.version) !in cfg.disabledVersions && (TrimSpace(req.redirect) != "" ==> req.redirectOk)
              && random && unused && urlOk
    ensures r.Some? && r.value in {ProviderNotConfigured, AuthDisabled} <==> req.provider !in cfg.configured || cfg.authDisabled
  {
    if req.provider !in cfg.configured then Some(ProviderNotConfigured)
    else if cfg.authDisabled then Some(AuthDisabled)
    else if !allowed then Some(RateLimited)
    else if TrimSpace(req.session) == "" || TrimChallenge(req.handoffChallenge) == OtherText("") then Some(FieldsRequired)
    else if TrimSpace(req.version) in cfg.disabledVersions then Some(VersionDisabled)
    else if TrimSpace(req.redirect) != "" && !req.redirectOk then Some(InvalidRedirect)
    else if !random then Some(RandomFailed)
    else if !unused then Some(PersistFailed)
    else if !urlOk then Some(UrlFailed)
    else None
  }

  /** Starts an authorization. It is refused for the first reason there is, and the limiter is asked only about
      configured providers. Nothing is stored unless every check before the link passes, and what is stored is fixed
      by the request and the two fresh random strings; a failure to build the link comes after storing. */
  method StartAuthorization(store: SQLiteStore, limiter: Limiter, cfg: Config, req: StartRequest, now: int,
                            id: Option<string>, verifier: Option<string>, urlOk: bool) returns (res: Reply<string>)
    modifies store, limiter
    ensures var (db, asks) := (old(store.Contents()), req.provider in cfg.configured && !cfg.authDisabled);
            var (buckets, allowed) := Asked(old(limiter.buckets), limiter.window, now, Key("start", req.ip), LIMIT_START);
            var refusal := StartRefusal(cfg, req, allowed, id.Some? && verifier.Some?, id.Some? && id.value !in db.states, urlOk);
            && limiter.buckets == (if asks then buckets else old(limiter.buckets))
            && (if refusal.Some? then res == Refused(refusal.value) else id.Some? && res == Reply(id.value))
            && if refusal.None? || refusal == Some(UrlFailed) then
                 id.Some? && verifier.Some? && InsertState(db, StartedState(cfg, req, id.value, verifier.value, now)) == Ok(store.Contents())
               else store.Contents() == db
  {
    hide TrimSpace, LazyNext, ProviderOrGoogle;
    if req.provider !in cfg.configured {
      return Refused(ProviderNotConfigured);
    }
    if cfg.authDisabled {
      return Refused(AuthDisabled);
    }
    var allowed := limiter.Allow(now, Key("start", req.ip), LIMIT_START);
    if !allowed {
      return Refused(RateLimited);
    }
    var session := TrimSpace(req.session);
    var handoffChallenge := TrimChallenge(req.handoffChallenge);
    var redirect := TrimSpace(req.redirect);
    if session == "" || handoffChallenge == OtherText("") {
      return Refused(FieldsRequired);
    }
    if TrimSpace(req.version) in cfg.disabledVersions {
      return Refused(VersionDisabled);
    }
    if redirect != "" && !req.redirectOk {
      return Refused(InvalidRedirect);
    }
    if id.None? || verifier.None? {
      return Refused(RandomFailed);
    }
    var record := OAuthState(id.value, req.provider, session, verifier.value, S256(verifier.value), handoffChallenge,
                             redirect, req.scopes, now + cfg.stateTTL, None);
    var saved := store.SaveOAuthState(record);
    if !saved {
      return Refused(PersistFailed);
    }
    if !urlOk {
      return Refused(UrlFailed);
    }
    return Reply(id.value);
  }

  /** The first reason to refuse a callback, if there is one. */
  function CallbackRefusal(cfg: Config, provider: string, allowed: bool, failed: bool, code: string, stateId: string, read: Result<OAuthState>,
                           tokens: Option<Tokens>, handoffCode: Option<string>, sealOk: bool, unused: bool, urlOk: bool): (r: Option<Code>)
    ensures r.None? <==>
              && provider in cfg.configured && !cfg.authDisabled && allowed && !failed && TrimSpace(code) != "" && TrimSpace(stateId) != ""
              && read.Ok? && tokens.Some? && handoffCode.Some? && sealOk && unused && urlOk
    ensures r.Some? && r.value in {TokenExchangeFailed, RandomFailed, SealFailed, PersistFailed, UrlFailed} ==> read.Ok?
    ensures r == Some(UrlFailed) ==> tokens.Some? && handoffCode.Some? && unused
  {
    if provider !in cfg.configured then Some(ProviderNotConfigured)
    else if cfg.authDisabled then Some(AuthDisabled)
    else if !allowed then Some(RateLimited)
    else if failed then Some(ProviderError)
    else if TrimSpace(code) == "" || TrimSpace(stateId) == "" then Some(FieldsRequired)
    else if read.Err? then Some(StateError(read.error))
    else if tokens.None? then Some(TokenExchangeFailed)
    else if handoffCode.None? then Some(RandomFailed)
    else if !sealOk then Some(SealFailed)
    else if !unused then Some(PersistFailed)
    else if !urlOk then Some(UrlFailed)
    else None
  }

  /** The provider's redirect: consumes the state once, then mints one handoff bound to it. A refusal before the state
      is consumed leaves the store, one after it leaves the state used up, and a failed link also the handoff. */
  method OAuthCallback(store: SQLiteStore, limiter: Limiter, cfg: Config, provider: string, ip: string, failed: bool,
                       code: string, stateId: string, now: int, tokens: Option<Tokens>, scopes: seq<string>,
                       handoffCode: Option<string>, sealOk: bool, urlOk: bool) returns (res: Reply<string>)
    modifies store, limiter
    ensures var (db, asks) := (old(store.Contents()), provider in cfg.configured && !cfg.authDisabled);
            var (buckets, allowed) := Asked(old(limiter.buckets), limiter.window, now, Key("callback", ip), LIMIT_CALLBACK);
            var (read, used) := (ReadState(db, TrimSpace(stateId), provider, now), MarkState(db, TrimSpace(stateId), now));
            var refusal := CallbackRefusal(cfg, provider, allowed, failed, code, stateId, read, tokens, handoffCode, sealOk,
                                           handoffCode.Some? && CodeHash(handoffCode.value) !in db.handoffs, urlOk);
            && limiter.buckets == (if asks then buckets else old(limiter.buckets))
            && (if refusal.Some? then res == Refused(refusal.value) else handoffCode.Some? && res == Reply(handoffCode.value))
            && if refusal.None? || refusal == Some(UrlFailed) then
                 read.Ok? && used.Some? && tokens.Some? && handoffCode.Some?
                 && InsertHandoff(used.value, MintedHandoff(read.value, provider, handoffCode.value, tokens.value, scopes, now + cfg.handoffTTL))
                    == Ok(store.Contents())
               else if refusal.value in {TokenExchangeFailed, RandomFailed, SealFailed, PersistFailed} then used == Some(store.Contents())
               else store.Contents() == db
  {
    hide TrimSpace, ReadState, LazyNext, ProviderOrGoogle;
    if provider !in cfg.configured {
      return Refused(ProviderNotConfigured);
    }
    if cfg.authDisabled {
      return Refused(AuthDisabled);
    }
    var allowed := limiter.Allow(now, Key("callback", ip), LIMIT_CALLBACK);
    if !allowed {
      return Refused(RateLimited);
    }
    if failed {
      return Refused(ProviderError);
    }
    if TrimSpace(code) == "" || TrimSpace(stateId) == "" {
      return Refused(FieldsRequired);
    }
    var consumed := store.ConsumeOAuthState(TrimSpace(stateId), provider, now);
    if consumed.Err? {
      return Refused(StateError(consumed.error));
    }
    var st := consumed.value;
    if tokens.None? {
      return Refused(TokenExchangeFailed);
    }
    if handoffCode.None? {
      return Refused(RandomFailed);
    }
    if !sealOk {
      return Refused(SealFailed);
    }
    var handoff := Handoff(CodeHash(handoffCode.value), provider, st.id, st.session, st.handoffChallenge,
                           Some(Sealed(Binding(st.id, st.session, st.handoffChallenge), tokens.value)), scopes,
                           now + cfg.handoffTTL, None);
    var saved := store.SaveHandoff(handoff);
    if !saved {
      return Refused(PersistFailed);
    }
    if !urlOk {
      return Refused(UrlFailed);
    }
    return Reply(handoffCode.value);
  }

  /** What an exchange hands out. */
  datatype Grant = Grant(tokens: Tokens, scopes: seq<string>)

  /** What a record releases: its payload opened under its own bindings, with a default kind, and its scopes. */
  function Opened(record: Handoff): Option<Grant> {
    if record.payload.None? then None
    else
      var tokens := Unseal(record.payload.value, Binding(record.stateId, record.session, record.challenge));
      if tokens.None? then None
      else Some(Grant(tokens.value.(kind := if tokens.value.kind == "" then "Bearer" else tokens.value.kind), record.scopes))
  }

  /** A failed consumption is counted against its address, session and code, and once more with the version. */
  function FailureAsked(buckets: map<string, Bucket>, window: int, now: int, dimension: string, version: string): (map<string, Bucket>, bool) {
    var (first, allowed) := Asked(buckets, window, now, Key("handoff_fail", dimension), LIMIT_HANDOFF_FAILURE);
    if version == "" then (first, allowed)
    else
      var (second, again) := Asked(first, window, now, Key("handoff_fail", dimension + "|" + version), LIMIT_HANDOFF_FAILURE);
      (second, allowed && again)
  }

  predicate Complete(req: ExchangeRequest) {
    TrimSpace(req.session) != "" && TrimSpace(req.brokerState) != "" && TrimSpace(req.code) != "" && TrimSpace(req.verifier) != ""
  }

  /** The first reason to refuse an exchange, if there is one; `again` is the limiter's answer to a failed consumption. */
  function ExchangeRefusal(cfg: Config, req: ExchangeRequest, allowed: bool, read: Result<Handoff>, again: bool): (r: Option<Code>)
    ensures r.None? <==>
              && req.provider in cfg.configured && !cfg.authDisabled && allowed && Complete(req)
              && read.Ok? && Opened(read.value).Some?
    ensures r == Some(PayloadInvalid) ==> read.Ok? && Opened(read.value).None?
  {
    if req.provider !in cfg.configured then Some(ProviderNotConfigured)
    else if cfg.authDisabled then Some(AuthDisabled)
    else if !allowed then Some(RateLimited)
    else if !Complete(req) then Some(FieldsRequired)
    else if read.Err? then Some(if again then HandoffError(read.error) else RateLimited)
    else if Opened(read.value).None? then Some(PayloadInvalid)
    else None
  }

  /** Exchanges a handoff code and its verifier for the sealed tokens, once. A refusal leaves the store
      as it was, unless the payload of the consumed handoff does not open. `hashText` prints a code hash. */
  method ExchangeHandoff(store: SQLiteStore, limiter: Limiter, cfg: Config, req: ExchangeRequest, now: int, hashText: CodeHash -> string)
    returns (res: Reply<Grant>)
    modifies store, limiter
    ensures var (db, asks) := (old(store.Contents()), req.provider in cfg.configured && !cfg.authDisabled);
            var code := CodeHash(TrimSpace(req.code));
            var read := ReadHandoff(db, code, req.provider, ExchangeBinding(req), now);
            var (buckets, allowed) := Asked(old(limiter.buckets), limiter.window, now, Key("handoff", req.ip), LIMIT_HANDOFF);
            var (more, again) := FailureAsked(buckets, limiter.window, now, req.ip + "|" + TrimSpace(req.session) + "|" + hashText(code),
                                              TrimSpace(req.version));
            var refusal := ExchangeRefusal(cfg, req, allowed, read, again);
            && limiter.buckets == (if !asks then old(limiter.buckets) else if allowed && Complete(req) && read.Err? then more else buckets)
            && (if refusal.Some? then res == Refused(refusal.value) else read.Ok? && Opened(read.value).Some? && res == Reply(Opened(read.value).value))
            && if refusal.None? || refusal == Some(PayloadInvalid) then MarkHandoff(db, code, now) == Some(store.Contents())
               else store.Contents() == db
  {
    hide TrimSpace, ReadHandoff, MarkHandoff, LazyNext;
    if req.provider !in cfg.configured {
      return Refused(ProviderNotConfigured);
    }
    if cfg.authDisabled {
      return Refused(AuthDisabled);
    }
    var allowed := limiter.Allow(now, Key("handoff", req.ip), LIMIT_HANDOFF);
    if !allowed {
      return Refused(RateLimited);
    }
    var session, brokerState := TrimSpace(req.session), TrimSpace(req.brokerState);
    var handoffCode, verifier := TrimSpace(req.code), TrimSpace(req.verifier);
    var version := TrimSpace(req.version);
    if session == "" || brokerState == "" || handoffCode == "" || verifier == "" {
      return Refused(FieldsRequired);
    }
    var consumed := store.ConsumeHandoff(CodeHash(handoffCode), req.provider, Binding(brokerState, session, S256(verifier)), now);
    if consumed.Err? {
      var dimension := req.ip + "|" + session + "|" + hashText(CodeHash(handoffCode));
      var again := limiter.Allow(now, Key("handoff_fail", dimension), LIMIT_HANDOFF_FAILURE);
      if version != "" {
        var versionAgain := limiter.Allow(now, Key("handoff_fail", dimension + "|" + version), LIMIT_HANDOFF_FAILURE);
        again := versionAgain && again;
      }
      if !again {
        return Refused(RateLimited);
      }
      return Refused(HandoffError(consumed.error));
    }
    var record := consumed.value;
    if record.payload.None? {
      return Refused(PayloadInvalid);
    }
    var tokens := Unseal(record.payload.value, Binding(record.stateId, record.session, record.challenge));
    if tokens.None? {
      return Refused(PayloadInvalid);
    }
    var kind := if tokens.value.kind == "" then "Bearer" else tokens.value.kind;
    return Reply(Grant(tokens.value.(kind := kind), record.scopes));
  }

  /** What the limits mean: in any minute one address starts at most 19 authorizations, completes at most 59 redirects
      and tries at most 39 exchanges, and at most 9 failures of one code are answered with their reason. */
  lemma AdmittedPerMinute(trace: seq<Request>, key: string, t: int)
    requires Monotone(trace)
    ensures FixedLimit(trace, key, LIMIT_START) ==> Admitted(MINUTE, trace, key, t, t + MINUTE) <= 19
    ensures FixedLimit(trace, key, LIMIT_CALLBACK) ==> Admitted(MINUTE, trace, key, t, t + MINUTE) <= 59
    ensures FixedLimit(trace, key, LIMIT_HANDOFF) ==> Admitted(MINUTE, trace, key, t, t + MINUTE) <= 39
    ensures FixedLimit(trace, key, LIMIT_HANDOFF_FAILURE) ==> Admitted(MINUTE, trace, key, t, t + MINUTE) <= 9
  {
    hide Admitted, FixedLimit, Monotone;
    if FixedLimit(trace, key, LIMIT_START) { AdmissionBound(MINUTE, trace, key, LIMIT_START, t); }
    if FixedLimit(trace, key, LIMIT_CALLBACK) { AdmissionBound(MINUTE, trace, key, LIMIT_CALLBACK, t); }
    if FixedLimit(trace, key, LIMIT_HANDOFF) { AdmissionBound(MINUTE, trace, key, LIMIT_HANDOFF, t); }
    if FixedLimit(trace, key, LIMIT_HANDOFF_FAILURE) { AdmissionBound(MINUTE, trace, key, LIMIT_HANDOFF_FAILURE, t); }
  }
}
