/** Every interleaving of concurrent broker requests. A request that consumes a record reads it in one
    step and updates it conditionally in a later one; between the two anything else may happen. */
module Protocol {
  import opened Wrappers
  import opened Broker

  /** A request between two of its steps. */
  datatype Pending =
    | CallbackRead(read: OAuthState, provider: string, now: int)
    | Consumed(state: OAuthState, provider: string, now: int)
    | ExchangeRead(record: Handoff, provider: string, verifier: string, now: int)

  datatype Event =
    | Started(rec: OAuthState)
    | StateUsed(id: string, provider: string, now: int)
    | Minted(id: string, code: CodeHash, tokens: Tokens)
    | Exchanged(id: string, code: CodeHash, provider: string, session: string, verifier: string, now: int, token: Option<Tokens>)

  datatype World = World(db: Db, pending: map<nat, Pending>, log: seq<Event>)

  datatype Step =
    | Start(id: string, provider: string, session: string, verifier: string, handoffChallenge: Challenge, redirect: string,
            scopes: seq<string>, expiresAt: int)
    | ReadForCallback(pid: nat, id: string, provider: string, now: int)
    | CommitCallback(pid: nat)
    | Mint(pid: nat, code: string, tokens: Tokens, scopes: seq<string>, ttl: int)
    | Abandon(pid: nat)
    | ReadForExchange(pid: nat, code: string, provider: string, session: string, id: string, verifier: string, now: int)
    | CommitExchange(pid: nat)

  const EMPTY := World(Db(map[], map[]), map[], [])

  function NewState(s: Step): OAuthState
    requires s.Start?
  {
    OAuthState(s.id, s.provider, s.session, s.verifier, S256(s.verifier), s.handoffChallenge, s.redirect, s.scopes, s.expiresAt, None)
  }

  function Drop(w: World, pid: nat): World {
    w.(pending := w.pending - {pid})
  }

  function OnStart(w: World, s: Step): World
    requires s.Start?
  {
    var r := InsertState(w.db, NewState(s));
    if r.Err? then w else w.(db := r.value, log := w.log + [Started(r.value.states[s.id])])
  }

  function OnReadForCallback(w: World, pid: nat, id: string, provider: string, now: int): World {
    var r := ReadState(w.db, id, provider, now);
    if pid in w.pending || r.Err? then w else w.(pending := w.pending[pid := CallbackRead(r.value, provider, now)])
  }

  function OnCommitCallback(w: World, pid: nat): World {
    if pid !in w.pending || !w.pending[pid].CallbackRead? then w
    else
      var p := w.pending[pid];
      var r := MarkState(w.db, p.read.id, p.now);
      if r.None? then Drop(w, pid)
      else World(r.value, w.pending[pid := Consumed(p.read.(usedAt := Some(p.now)), p.provider, p.now)],
                 w.log + [StateUsed(p.read.id, p.provider, p.now)])
  }

  function OnMint(w: World, pid: nat, code: string, tokens: Tokens, scopes: seq<string>, ttl: int): World {
    if pid !in w.pending || !w.pending[pid].Consumed? then w
    else
      var p := w.pending[pid];
      var r := InsertHandoff(w.db, MintedHandoff(p.state, p.provider, code, tokens, scopes, p.now + ttl));
      if r.Err? then Drop(w, pid)
      else Drop(w.(db := r.value, log := w.log + [Minted(p.state.id, CodeHash(code), tokens)]), pid)
  }

  function OnReadForExchange(w: World, pid: nat, code: string, provider: string, binding: Binding, verifier: string, now: int): World {
    var r := ReadHandoff(w.db, CodeHash(code), provider, binding, now);
    if pid in w.pending || r.Err? then w else w.(pending := w.pending[pid := ExchangeRead(r.value, provider, verifier, now)])
  }

  function OnCommitExchange(w: World, pid: nat): World {
    if pid !in w.pending || !w.pending[pid].ExchangeRead? then w
    else
      var p := w.pending[pid];
      var r := MarkHandoff(w.db, p.record.code, p.now);
      if r.None? then Drop(w, pid)
      else Drop(w.(db := r.value, log := w.log + [ExchangeOf(p)]), pid)
  }

  function Next(w: World, s: Step): World {
    match s
    case Start(_, _, _, _, _, _, _, _) => OnStart(w, s)
    case ReadForCallback(pid, id, provider, now) => OnReadForCallback(w, pid, id, provider, now)
    case CommitCallback(pid) => OnCommitCallback(w, pid)
    case Mint(pid, code, tokens, scopes, ttl) => OnMint(w, pid, code, tokens, scopes, ttl)
    case Abandon(pid) => Drop(w, pid)
    case ReadForExchange(pid, code, provider, session, id, verifier, now) =>
      OnReadForExchange(w, pid, code, provider, Binding(id, session, S256(verifier)), verifier, now)
    case CommitExchange(pid) => OnCommitExchange(w, pid)
  }

  /** What the exchanging request returns: the payload it read, token under the record's bindings. */
  function ExchangeOf(p: Pending): Event
    requires p.ExchangeRead?
  {
    var h := p.record;
    Exchanged(h.stateId, h.code, p.provider, h.session, p.verifier, p.now,
              if h.payload.Some? then Unseal(h.payload.value, Binding(h.stateId, h.session, h.challenge)) else None)
  }

  ghost predicate Run(worlds: seq<World>, steps: seq<Step>) {
    && |worlds| == |steps| + 1 && worlds[0] == EMPTY
    && (forall i :: 0 <= i < |steps| ==> worlds[i + 1] == Next(worlds[i], steps[i]))
  }

  // ── counting successes ──────────────────────────────────────────────

  function Uses(log: seq<Event>, id: string): nat {
    if |log| == 0 then 0
    else Uses(log[..|log| - 1], id) + if log[|log| - 1].StateUsed? && log[|log| - 1].id == id then 1 else 0
  }

  function Mints(log: seq<Event>, id: string): nat {
    if |log| == 0 then 0
    else Mints(log[..|log| - 1], id) + if log[|log| - 1].Minted? && log[|log| - 1].id == id then 1 else 0
  }

  function Exchanges(log: seq<Event>, id: string): nat {
    if |log| == 0 then 0
    else Exchanges(log[..|log| - 1], id) + if log[|log| - 1].Exchanged? && log[|log| - 1].id == id then 1 else 0
  }

  lemma CountPush(log: seq<Event>, e: Event, id: string)
    ensures Uses(log + [e], id) == Uses(log, id) + if e.StateUsed? && e.id == id then 1 else 0
    ensures Mints(log + [e], id) == Mints(log, id) + if e.Minted? && e.id == id then 1 else 0
    ensures Exchanges(log + [e], id) == Exchanges(log, id) + if e.Exchanged? && e.id == id then 1 else 0
  {
    assert (log + [e])[..|log|] == log;
  }

  // ── the invariant ───────────────────────────────────────────────────

  /** Requests that have consumed the state and not yet minted. */
  function Holders(w: World, id: string): set<nat> {
    set pid | pid in w.pending && w.pending[pid].Consumed? && w.pending[pid].state.id == id
  }

  function HandoffsOf(w: World, id: string): set<CodeHash> {
    set code | code in w.db.handoffs && w.db.handoffs[code].stateId == id
  }

  function Spent(w: World, id: string): set<CodeHash> {
    set code | code in HandoffsOf(w, id) && w.db.handoffs[code].usedAt.Some?
  }

  ghost predicate Used(w: World, id: string) {
    id in w.db.states && w.db.states[id].usedAt.Some?
  }

  /** Successes of each kind are exactly what the records show. */
  ghost predicate Counted(w: World, id: string) {
    && Uses(w.log, id) == (if Used(w, id) then 1 else 0)
    && Mints(w.log, id) == |HandoffsOf(w, id)|
    && Mints(w.log, id) + |Holders(w, id)| <= Uses(w.log, id)
    && Exchanges(w.log, id) == |Spent(w, id)|
  }

  predicate SameState(a: OAuthState, b: OAuthState) {
    a == b.(usedAt := a.usedAt)
  }

  predicate SameHandoff(a: Handoff, b: Handoff) {
    a == b.(usedAt := a.usedAt, payload := a.payload)
  }

  /** A state row is what was started, in a normalized provider; only its use is ever recorded. */
  ghost predicate StateRow(w: World, id: string)
    requires id in w.db.states
  {
    var rec := w.db.states[id];
    && rec.id == id && rec.challenge == S256(rec.verifier) && ProviderOrGoogle(rec.provider) == rec.provider
    && Started(rec.(usedAt := None)) in w.log
  }

  /** A handoff row is bound to its state, and holds its sealed payload exactly while unused. */
  ghost predicate HandoffRow(w: World, code: CodeHash)
    requires code in w.db.handoffs
  {
    var h := w.db.handoffs[code];
    && h.code == code && h.stateId in w.db.states && ProviderOrGoogle(h.provider) == h.provider
    && var st := w.db.states[h.stateId];
       && h.session == st.session && h.challenge == st.handoffChallenge && h.provider == st.provider
       && (h.usedAt.None? ==> h.payload.Some? && h.payload.value.binding == Binding(h.stateId, h.session, h.challenge)
                              && Minted(h.stateId, code, h.payload.value.tokens) in w.log)
       && (h.usedAt.Some? ==> h.payload.None?)
  }

  ghost predicate PendingOk(w: World, p: Pending) {
    match p
    case CallbackRead(read, provider, now) =>
      read.id in w.db.states && SameState(read, w.db.states[read.id]) && read.provider == ProviderOrGoogle(provider) && now < read.expiresAt
    case Consumed(st, provider, now) =>
      st.id in w.db.states && SameState(st, w.db.states[st.id]) && st.provider == ProviderOrGoogle(provider)
    case ExchangeRead(h, provider, verifier, now) =>
      && h.code in w.db.handoffs && h.usedAt.None? && now < h.expiresAt
      && h == w.db.handoffs[h.code].(usedAt := None, payload := h.payload)
      && h.provider == ProviderOrGoogle(provider) && h.challenge == S256(verifier)
      && h.payload.Some? && h.payload.value.binding == Binding(h.stateId, h.session, h.challenge)
      && Minted(h.stateId, h.code, h.payload.value.tokens) in w.log
  }

  /** What a success proves about the start it descends from. */
  ghost predicate Honest(w: World, e: Event) {
    match e
    case StateUsed(id, provider, now) =>
      id in w.db.states && w.db.states[id].provider == ProviderOrGoogle(provider) && now < w.db.states[id].expiresAt
    case Exchanged(id, code, provider, session, verifier, now, token) =>
      && id in w.db.states
      && var st := w.db.states[id];
         && st.provider == ProviderOrGoogle(provider) && st.session == session && st.handoffChallenge == S256(verifier)
         && token.Some? && Minted(id, code, token.value) in w.log
         && code in w.db.handoffs && now < w.db.handoffs[code].expiresAt
    case _ => true
  }

  ghost predicate RecordsOk(w: World) {
    && (forall id :: id in w.db.states ==> StateRow(w, id))
    && (forall code :: code in w.db.handoffs ==> HandoffRow(w, code))
    && (forall pid :: pid in w.pending ==> PendingOk(w, w.pending[pid]))
    && (forall e :: e in w.log ==> Honest(w, e))
  }

  ghost predicate Inv(w: World) {
    RecordsOk(w) && forall id :: Counted(w, id)
  }

  /** The database only grows and only the use of a record is written, so everything said stays true. */
  ghost predicate Extends(w: World, w': World) {
    && (forall id :: id in w.db.states ==> id in w'.db.states && SameState(w'.db.states[id], w.db.states[id]))
    && (forall code :: code in w.db.handoffs ==> code in w'.db.handoffs && SameHandoff(w'.db.handoffs[code], w.db.handoffs[code]))
    && (forall e :: e in w.log ==> e in w'.log)
  }

  lemma PendingStays(w: World, w': World, p: Pending)
    requires Extends(w, w') && PendingOk(w, p)
    ensures PendingOk(w', p)
  {
  }

  lemma HonestStays(w: World, w': World, e: Event)
    requires Extends(w, w') && Honest(w, e)
    ensures Honest(w', e)
  {
  }

  lemma StateStays(w: World, w': World, id: string)
    requires Extends(w, w') && id in w.db.states && StateRow(w, id)
    ensures StateRow(w', id)
  {
    assert w'.db.states[id].(usedAt := None) == w.db.states[id].(usedAt := None);
  }

  lemma HandoffStays(w: World, w': World, code: CodeHash)
    requires Extends(w, w') && code in w.db.handoffs && HandoffRow(w, code) && w'.db.handoffs[code] == w.db.handoffs[code]
    ensures HandoffRow(w', code)
  {
  }

  /** Every record, request and success of a world is in order, given that they were in an earlier one
      it extends, once those that differ have been checked. */
  lemma RecordsCarry(w: World, w': World)
    requires RecordsOk(w) && Extends(w, w')
    requires forall id :: id in w'.db.states && id !in w.db.states ==> StateRow(w', id)
    requires forall code :: code in w'.db.handoffs && !(code in w.db.handoffs && w'.db.handoffs[code] == w.db.handoffs[code]) ==> HandoffRow(w', code)
    requires forall pid :: pid in w'.pending && !(pid in w.pending && w'.pending[pid] == w.pending[pid]) ==> PendingOk(w', w'.pending[pid])
    requires forall e :: e in w'.log && e !in w.log ==> Honest(w', e)
    ensures RecordsOk(w')
  {
    assert forall id :: id in w.db.states ==> id in w'.db.states;
    hide StateRow, HandoffRow, PendingOk, Honest, Extends;
    forall id | id in w.db.states ensures StateRow(w', id) { StateStays(w, w', id); }
    forall code | code in w.db.handoffs && code in w'.db.handoffs && w'.db.handoffs[code] == w.db.handoffs[code] ensures HandoffRow(w', code) {
      HandoffStays(w, w', code);
    }
    forall pid | pid in w.pending ensures PendingOk(w', w.pending[pid]) { PendingStays(w, w', w.pending[pid]); }
    forall e | e in w.log ensures Honest(w', e) { HonestStays(w, w', e); }
  }

  lemma PendingHolds(w: World, pid: nat)
    requires RecordsOk(w) && pid in w.pending
    ensures PendingOk(w, w.pending[pid])
  {
  }

  lemma RowHolds(w: World, code: CodeHash)
    requires RecordsOk(w) && code in w.db.handoffs
    ensures HandoffRow(w, code)
  {
  }

  lemma StateHolds(w: World, id: string)
    requires RecordsOk(w) && id in w.db.states
    ensures StateRow(w, id)
  {
  }

  lemma StartNew(w: World, s: Step)
    requires RecordsOk(w) && s.Start? && s.id !in w.db.states
    ensures Extends(w, OnStart(w, s)) && s.id in OnStart(w, s).db.states && StateRow(OnStart(w, s), s.id)
  {
    hide RecordsOk, ProviderOrGoogle;
    NormalizedOnce(s.provider);
    var w' := OnStart(w, s);
    assert w'.log[|w.log|] == Started(w'.db.states[s.id]);
  }

  lemma StartStep(w: World, s: Step)
    requires RecordsOk(w) && s.Start?
    ensures RecordsOk(OnStart(w, s)) && Extends(w, OnStart(w, s))
  {
    hide RecordsOk, StateRow, HandoffRow, PendingOk, Extends, ProviderOrGoogle;
    if s.id !in w.db.states {
      StartNew(w, s);
      RecordsCarry(w, OnStart(w, s));
    } else {
      Unmoved(w);
    }
  }

  lemma Unmoved(w: World)
    ensures Extends(w, w)
  {
  }

  lemma CallbackReadNew(w: World, pid: nat, id: string, provider: string, now: int)
    requires RecordsOk(w) && pid !in w.pending && ReadState(w.db, id, provider, now).Ok?
    ensures var w' := OnReadForCallback(w, pid, id, provider, now);
            Extends(w, w') && pid in w'.pending && PendingOk(w', w'.pending[pid])
  {
    hide RecordsOk, ProviderOrGoogle;
    StateHolds(w, id);
  }

  lemma CallbackReadStep(w: World, pid: nat, id: string, provider: string, now: int)
    requires RecordsOk(w)
    ensures var w' := OnReadForCallback(w, pid, id, provider, now); RecordsOk(w') && Extends(w, w')
  {
    hide RecordsOk, StateRow, HandoffRow, PendingOk, Extends, ReadState;
    var w' := OnReadForCallback(w, pid, id, provider, now);
    if w' != w {
      CallbackReadNew(w, pid, id, provider, now);
      RecordsCarry(w, w');
    } else {
      Unmoved(w);
    }
  }

  lemma CallbackCommitNew(w: World, pid: nat)
    requires RecordsOk(w) && pid in w.pending && w.pending[pid].CallbackRead?
    requires MarkState(w.db, w.pending[pid].read.id, w.pending[pid].now).Some?
    ensures var (w', p) := (OnCommitCallback(w, pid), w.pending[pid]);
            && Extends(w, w') && pid in w'.pending && PendingOk(w', w'.pending[pid])
            && Honest(w', StateUsed(p.read.id, p.provider, p.now))
  {
    hide RecordsOk, ProviderOrGoogle;
    PendingHolds(w, pid);
  }

  lemma CallbackCommitStep(w: World, pid: nat)
    requires RecordsOk(w)
    ensures RecordsOk(OnCommitCallback(w, pid)) && Extends(w, OnCommitCallback(w, pid))
  {
    hide RecordsOk, StateRow, HandoffRow, PendingOk, Honest, Extends;
    var w' := OnCommitCallback(w, pid);
    Unmoved(w);
    if pid in w.pending && w.pending[pid].CallbackRead? {
      if MarkState(w.db, w.pending[pid].read.id, w.pending[pid].now).Some? {
        CallbackCommitNew(w, pid);
        RecordsCarry(w, w');
      } else {
        DropStep(w, pid);
      }
    }
  }

  lemma DropStep(w: World, pid: nat)
    requires RecordsOk(w)
    ensures RecordsOk(Drop(w, pid)) && Extends(w, Drop(w, pid))
  {
    hide RecordsOk, StateRow, HandoffRow, PendingOk, Honest;
    assert Extends(w, Drop(w, pid));
    RecordsCarry(w, Drop(w, pid));
  }

  lemma MintNew(w: World, pid: nat, code: string, tokens: Tokens, scopes: seq<string>, ttl: int)
    requires RecordsOk(w) && pid in w.pending && w.pending[pid].Consumed? && CodeHash(code) !in w.db.handoffs
    ensures var w' := OnMint(w, pid, code, tokens, scopes, ttl);
            Extends(w, w') && CodeHash(code) in w'.db.handoffs && HandoffRow(w', CodeHash(code))
  {
    hide RecordsOk, ProviderOrGoogle;
    PendingHolds(w, pid);
    var p := w.pending[pid];
    NormalizedOnce(p.provider);
    var w' := OnMint(w, pid, code, tokens, scopes, ttl);
    assert w'.log[|w.log|] == Minted(p.state.id, CodeHash(code), tokens);
  }

  lemma MintStep(w: World, pid: nat, code: string, tokens: Tokens, scopes: seq<string>, ttl: int)
    requires RecordsOk(w)
    ensures var w' := OnMint(w, pid, code, tokens, scopes, ttl); RecordsOk(w') && Extends(w, w')
  {
    hide RecordsOk, StateRow, HandoffRow, PendingOk, Extends, ProviderOrGoogle;
    Unmoved(w);
    if pid in w.pending && w.pending[pid].Consumed? {
      if CodeHash(code) !in w.db.handoffs {
        MintNew(w, pid, code, tokens, scopes, ttl);
        RecordsCarry(w, OnMint(w, pid, code, tokens, scopes, ttl));
      } else {
        DropStep(w, pid);
      }
    }
  }

  lemma ExchangeReadNew(w: World, pid: nat, code: string, provider: string, id: string, session: string, verifier: string, now: int)
    requires RecordsOk(w) && pid !in w.pending && ReadHandoff(w.db, CodeHash(code), provider, Binding(id, session, S256(verifier)), now).Ok?
    ensures var w' := OnReadForExchange(w, pid, code, provider, Binding(id, session, S256(verifier)), verifier, now);
            Extends(w, w') && pid in w'.pending && PendingOk(w', w'.pending[pid])
  {
    hide RecordsOk, ProviderOrGoogle;
    RowHolds(w, CodeHash(code));
  }

  lemma ExchangeReadStep(w: World, pid: nat, code: string, provider: string, id: string, session: string, verifier: string, now: int)
    requires RecordsOk(w)
    ensures var w' := OnReadForExchange(w, pid, code, provider, Binding(id, session, S256(verifier)), verifier, now);
            RecordsOk(w') && Extends(w, w')
  {
    hide RecordsOk, StateRow, HandoffRow, PendingOk, Extends, ReadHandoff;
    Unmoved(w);
    var w' := OnReadForExchange(w, pid, code, provider, Binding(id, session, S256(verifier)), verifier, now);
    if w' != w {
      ExchangeReadNew(w, pid, code, provider, id, session, verifier, now);
      RecordsCarry(w, w');
    }
  }

  lemma ExchangeCommitNew(w: World, pid: nat)
    requires RecordsOk(w) && pid in w.pending && w.pending[pid].ExchangeRead?
    requires MarkHandoff(w.db, w.pending[pid].record.code, w.pending[pid].now).Some?
    ensures var (w', p) := (OnCommitExchange(w, pid), w.pending[pid]);
            && Extends(w, w') && p.record.code in w'.db.handoffs && HandoffRow(w', p.record.code)
            && Honest(w', ExchangeOf(p))
  {
    hide RecordsOk, ProviderOrGoogle;
    PendingHolds(w, pid);
    RowHolds(w, w.pending[pid].record.code);
  }

  lemma ExchangeCommitStep(w: World, pid: nat)
    requires RecordsOk(w)
    ensures RecordsOk(OnCommitExchange(w, pid)) && Extends(w, OnCommitExchange(w, pid))
  {
    hide RecordsOk, StateRow, HandoffRow, PendingOk, Honest, Extends;
    Unmoved(w);
    if pid in w.pending && w.pending[pid].ExchangeRead? {
      if MarkHandoff(w.db, w.pending[pid].record.code, w.pending[pid].now).Some? {
        ExchangeCommitNew(w, pid);
        RecordsCarry(w, OnCommitExchange(w, pid));
      } else {
        DropStep(w, pid);
      }
    }
  }

  lemma RecordsStep(w: World, s: Step)
    requires RecordsOk(w)
    ensures RecordsOk(Next(w, s)) && Extends(w, Next(w, s))
  {
    hide RecordsOk, OnStart, OnReadForCallback, OnCommitCallback, OnMint, OnReadForExchange, OnCommitExchange;
    match s
    case Start(_, _, _, _, _, _, _, _) => StartStep(w, s);
    case ReadForCallback(pid, id, provider, now) => CallbackReadStep(w, pid, id, provider, now);
    case CommitCallback(pid) => CallbackCommitStep(w, pid);
    case Mint(pid, code, tokens, scopes, ttl) => MintStep(w, pid, code, tokens, scopes, ttl);
    case ReadForExchange(pid, code, provider, session, id, verifier, now) =>
      ExchangeReadStep(w, pid, code, provider, id, session, verifier, now);
    case CommitExchange(pid) => ExchangeCommitStep(w, pid);
    case Abandon(pid) => DropStep(w, pid);
  }

  // ── counting ────────────────────────────────────────────────────────

  lemma DropHolders(w: World, pid: nat, id: string)
    ensures Holders(Drop(w, pid), id) == Holders(w, id) - {pid}
    ensures Counted(w, id) ==> Counted(Drop(w, pid), id)
  {
    assert |Holders(w, id) - {pid}| <= |Holders(w, id)|;
  }

  /** The counts when a request starts or stops holding a consumed state. */
  lemma HoldSets(w: World, w': World, pid: nat, p: Pending, id: string)
    requires pid in w.pending && !w.pending[pid].Consumed? && p.Consumed?
    requires w'.pending == w.pending[pid := p] && w'.db.handoffs == w.db.handoffs
    ensures |Holders(w', id)| == |Holders(w, id)| + if id == p.state.id then 1 else 0
    ensures HandoffsOf(w', id) == HandoffsOf(w, id) && Spent(w', id) == Spent(w, id)
  {
    assert Holders(w', id) == if id == p.state.id then Holders(w, id) + {pid} else Holders(w, id);
  }

  lemma ReleaseSet(w: World, w': World, pid: nat, id: string)
    requires pid in w.pending && w.pending[pid].Consumed? && w'.pending == w.pending - {pid}
    ensures |Holders(w', id)| == |Holders(w, id)| - if id == w.pending[pid].state.id then 1 else 0
  {
    assert Holders(w', id) == Holders(w, id) - {pid};
    if id == w.pending[pid].state.id { assert pid in Holders(w, id); }
  }

  lemma MintSets(w: World, w': World, h: Handoff, id: string)
    requires h.usedAt.None? && h.code !in w.db.handoffs && w'.db.handoffs == w.db.handoffs[h.code := h]
    ensures |HandoffsOf(w', id)| == |HandoffsOf(w, id)| + if id == h.stateId then 1 else 0
    ensures Spent(w', id) == Spent(w, id)
  {
    assert HandoffsOf(w', id) == if id == h.stateId then HandoffsOf(w, id) + {h.code} else HandoffsOf(w, id);
  }

  lemma SpendSets(w: World, w': World, pid: nat, code: CodeHash, h: Handoff, id: string)
    requires pid in w.pending && !w.pending[pid].Consumed? && code in w.db.handoffs && w.db.handoffs[code].usedAt.None?
    requires h.stateId == w.db.handoffs[code].stateId && h.usedAt.Some?
    requires w'.pending == w.pending - {pid} && w'.db.handoffs == w.db.handoffs[code := h]
    ensures Holders(w', id) == Holders(w, id) && HandoffsOf(w', id) == HandoffsOf(w, id)
    ensures |Spent(w', id)| == |Spent(w, id)| + if id == h.stateId then 1 else 0
  {
    assert Holders(w', id) == Holders(w, id) && HandoffsOf(w', id) == HandoffsOf(w, id);
    assert Spent(w', id) == if id == h.stateId then Spent(w, id) + {code} else Spent(w, id);
  }

  lemma CommitCallbackCounts(w: World, pid: nat, id: string)
    requires Counted(w, id) && pid in w.pending && w.pending[pid].CallbackRead?
    ensures Counted(OnCommitCallback(w, pid), id)
  {
    hide Uses, Mints, Exchanges, Holders, HandoffsOf, Spent;
    var p := w.pending[pid];
    var w' := OnCommitCallback(w, pid);
    DropHolders(w, pid, id);
    if MarkState(w.db, p.read.id, p.now).Some? {
      CountPush(w.log, StateUsed(p.read.id, p.provider, p.now), id);
      HoldSets(w, w', pid, w'.pending[pid], id);
    }
  }

  lemma MintCounts(w: World, pid: nat, code: string, tokens: Tokens, scopes: seq<string>, ttl: int, id: string)
    requires Counted(w, id) && pid in w.pending && w.pending[pid].Consumed?
    ensures Counted(OnMint(w, pid, code, tokens, scopes, ttl), id)
  {
    hide Uses, Mints, Exchanges, ProviderOrGoogle, Holders, HandoffsOf, Spent;
    var p := w.pending[pid];
    var w' := OnMint(w, pid, code, tokens, scopes, ttl);
    DropHolders(w, pid, id);
    if CodeHash(code) !in w.db.handoffs {
      CountPush(w.log, Minted(p.state.id, CodeHash(code), tokens), id);
      ReleaseSet(w, w', pid, id);
      MintSets(w, w', w'.db.handoffs[CodeHash(code)], id);
    }
  }

  lemma CommitExchangeCounts(w: World, pid: nat, id: string)
    requires RecordsOk(w) && Counted(w, id) && pid in w.pending && w.pending[pid].ExchangeRead?
    ensures Counted(OnCommitExchange(w, pid), id)
  {
    hide Uses, Mints, Exchanges, ProviderOrGoogle, RecordsOk, Holders, HandoffsOf, Spent;
    PendingHolds(w, pid);
    var p := w.pending[pid];
    var (w', code) := (OnCommitExchange(w, pid), p.record.code);
    DropHolders(w, pid, id);
    if MarkHandoff(w.db, code, p.now).Some? {
      CountPush(w.log, ExchangeOf(p), id);
      SpendSets(w, w', pid, code, w'.db.handoffs[code], id);
    }
  }

  lemma ReadCounts(w: World, pid: nat, p: Pending, id: string)
    requires Counted(w, id) && pid !in w.pending && !p.Consumed?
    ensures Counted(w.(pending := w.pending[pid := p]), id)
  {
    var w' := w.(pending := w.pending[pid := p]);
    assert Holders(w', id) == Holders(w, id);
    assert HandoffsOf(w', id) == HandoffsOf(w, id) && Spent(w', id) == Spent(w, id);
  }

  lemma StartCounts(w: World, s: Step, id: string)
    requires Counted(w, id) && s.Start?
    ensures Counted(OnStart(w, s), id)
  {
    hide Uses, Mints, Exchanges, ProviderOrGoogle;
    var w' := OnStart(w, s);
    if s.id !in w.db.states {
      CountPush(w.log, Started(w'.db.states[s.id]), id);
      assert Holders(w', id) == Holders(w, id);
      assert HandoffsOf(w', id) == HandoffsOf(w, id) && Spent(w', id) == Spent(w, id);
    }
  }

  lemma CountedStep(w: World, s: Step, id: string)
    requires RecordsOk(w) && Counted(w, id)
    ensures Counted(Next(w, s), id)
  {
    hide RecordsOk, Counted, OnStart, OnCommitCallback, OnMint, OnCommitExchange;
    UnmovedCounts(w, s);
    match s
    case Start(_, _, _, _, _, _, _, _) => StartCounts(w, s, id);
    case ReadForCallback(pid, sid, provider, now) =>
      var r := ReadState(w.db, sid, provider, now);
      if pid !in w.pending && r.Ok? { ReadCounts(w, pid, CallbackRead(r.value, provider, now), id); }
    case CommitCallback(pid) =>
      if pid in w.pending && w.pending[pid].CallbackRead? { CommitCallbackCounts(w, pid, id); }
    case Mint(pid, code, tokens, scopes, ttl) =>
      if pid in w.pending && w.pending[pid].Consumed? { MintCounts(w, pid, code, tokens, scopes, ttl, id); }
    case Abandon(pid) => DropHolders(w, pid, id);
    case ReadForExchange(pid, code, provider, session, sid, verifier, now) =>
      var r := ReadHandoff(w.db, CodeHash(code), provider, Binding(sid, session, S256(verifier)), now);
      if pid !in w.pending && r.Ok? { ReadCounts(w, pid, ExchangeRead(r.value, provider, verifier, now), id); }
    case CommitExchange(pid) =>
      if pid in w.pending && w.pending[pid].ExchangeRead? { CommitExchangeCounts(w, pid, id); }
  }

  /** Committing without the matching read is no step at all. */
  lemma UnmovedCounts(w: World, s: Step)
    ensures match s
            case CommitCallback(pid) => (pid in w.pending && w.pending[pid].CallbackRead?) || Next(w, s) == w
            case Mint(pid, _, _, _, _) => (pid in w.pending && w.pending[pid].Consumed?) || Next(w, s) == w
            case CommitExchange(pid) => (pid in w.pending && w.pending[pid].ExchangeRead?) || Next(w, s) == w
            case _ => true
  {
  }

  // ── theorems ────────────────────────────────────────────────────────

  lemma {:induction false} Reachable(worlds: seq<World>, steps: seq<Step>, n: nat)
    requires Run(worlds, steps) && n < |worlds|
    ensures Inv(worlds[n])
  {
    if n == 0 {
      EmptyInv();
    } else {
      Reachable(worlds, steps, n - 1);
      var (w, s) := (worlds[n - 1], steps[n - 1]);
      assert worlds[n - 1 + 1] == Next(w, s);
      RecordsStep(w, s);
      hide RecordsOk, Counted, Next;
      forall id ensures Counted(Next(w, s), id) { CountedStep(w, s, id); }
    }
  }

  lemma EmptyInv()
    ensures Inv(EMPTY)
  {
    forall id ensures Counted(EMPTY, id) {
      assert Holders(EMPTY, id) == {} && HandoffsOf(EMPTY, id) == {} && Spent(EMPTY, id) == {};
    }
  }

  /** In every reachable world one start has led to at most one consumed state, one handoff and one
      successful exchange, each counted exactly by the records. */
  lemma SingleUse(worlds: seq<World>, steps: seq<Step>, n: nat, id: string)
    requires Run(worlds, steps) && n < |worlds|
    ensures var w := worlds[n];
            && Exchanges(w.log, id) <= Mints(w.log, id) <= Uses(w.log, id) <= 1
            && (Uses(w.log, id) == 1 <==> Used(w, id))
            && Mints(w.log, id) == |HandoffsOf(w, id)| && Exchanges(w.log, id) == |Spent(w, id)|
  {
    Reachable(worlds, steps, n);
    var w := worlds[n];
    assert Counted(w, id);
    SubsetSize(Spent(w, id), HandoffsOf(w, id));
  }

  /** A successful exchange answers for its start: the provider, the session, the state id and the S256
      challenge are those fixed when the authorization was started (the check of section 4.6 of RFC
      7636), neither record had expired when it was used, and the tokens are exactly those sealed for that
      state. */
  lemma ExchangeIsBound(worlds: seq<World>, steps: seq<Step>, n: nat, e: Event)
    requires Run(worlds, steps) && n < |worlds| && e in worlds[n].log && e.Exchanged?
    ensures e.token.Some? && Minted(e.id, e.code, e.token.value) in worlds[n].log
    ensures exists rec :: Started(rec) in worlds[n].log && rec.id == e.id
              && rec.provider == ProviderOrGoogle(e.provider) && rec.session == e.session
              && rec.handoffChallenge == S256(e.verifier) && rec.challenge == S256(rec.verifier)
              && (exists u :: u in worlds[n].log && u.StateUsed? && u.id == e.id && u.now < rec.expiresAt
                    && ProviderOrGoogle(u.provider) == rec.provider)
    ensures e.code in worlds[n].db.handoffs && e.now < worlds[n].db.handoffs[e.code].expiresAt
  {
    Reachable(worlds, steps, n);
    var w := worlds[n];
    assert Honest(w, e) && StateRow(w, e.id);
    var rec := w.db.states[e.id].(usedAt := None);
    assert Started(rec) in w.log;
    SingleUse(worlds, steps, n, e.id);
    ExchangeCounts(w.log, e);
    var u := UseOf(w.log, e.id);
    assert Honest(w, u);
  }

  lemma {:induction false} ExchangeCounts(log: seq<Event>, e: Event)
    requires e in log && e.Exchanged?
    ensures Exchanges(log, e.id) >= 1
  {
    if log[|log| - 1] != e { ExchangeCounts(log[..|log| - 1], e); }
  }

  /** A counted use is in the log. */
  lemma {:induction false} UseOf(log: seq<Event>, id: string) returns (u: Event)
    requires Uses(log, id) >= 1
    ensures u in log && u.StateUsed? && u.id == id
  {
    u := log[|log| - 1];
    if !(u.StateUsed? && u.id == id) { u := UseOf(log[..|log| - 1], id); }
  }

  /** A handoff holds its sealed payload exactly until it is used. */
  lemma UsedMeansScrubbed(worlds: seq<World>, steps: seq<Step>, n: nat, code: CodeHash)
    requires Run(worlds, steps) && n < |worlds| && code in worlds[n].db.handoffs
    ensures worlds[n].db.handoffs[code].usedAt.Some? <==> worlds[n].db.handoffs[code].payload.None?
  {
    Reachable(worlds, steps, n);
    assert HandoffRow(worlds[n], code);
  }

  /** What a success writes: one new record, or the use of one unused record and nothing else. */
  ghost predicate Writes(db: Db, db': Db, e: Event) {
    match e
    case Started(rec) => rec.id !in db.states && rec.usedAt.None? && db' == db.(states := db.states[rec.id := rec])
    case StateUsed(id, _, now) =>
      id in db.states && db.states[id].usedAt.None? && db' == db.(states := db.states[id := db.states[id].(usedAt := Some(now))])
    case Minted(id, code, tokens) =>
      && code !in db.handoffs && code in db'.handoffs && db' == db.(handoffs := db.handoffs[code := db'.handoffs[code]])
      && var h := db'.handoffs[code]; h.stateId == id && h.usedAt.None? && h.payload.Some? && h.payload.value.tokens == tokens
    case Exchanged(_, code, _, _, _, now, _) =>
      && code in db.handoffs && db.handoffs[code].usedAt.None?
      && db' == db.(handoffs := db.handoffs[code := db.handoffs[code].(usedAt := Some(now), payload := None)])
  }

  /** A step is a success that writes exactly its own record, or it leaves every record as it was: a
      failed or abandoned attempt, a wrong binding or a lost race burns nothing. A request that has read a
      record succeeds exactly when nobody used that record in the meantime. */
  lemma FailureChangesNothing(w: World, s: Step)
    ensures var w' := Next(w, s);
            || (w'.log == w.log && w'.db == w.db)
            || (|w'.log| == |w.log| + 1 && w'.log[..|w.log|] == w.log && Writes(w.db, w'.db, w'.log[|w.log|]))
    ensures RecordsOk(w) && s.CommitCallback? && s.pid in w.pending && w.pending[s.pid].CallbackRead? ==>
              var id := w.pending[s.pid].read.id;
              id in w.db.states && (Next(w, s).log != w.log <==> w.db.states[id].usedAt.None?)
    ensures RecordsOk(w) && s.CommitExchange? && s.pid in w.pending && w.pending[s.pid].ExchangeRead? ==>
              var code := w.pending[s.pid].record.code;
              code in w.db.handoffs && (Next(w, s).log != w.log <==> w.db.handoffs[code].usedAt.None?)
  {
    hide RecordsOk, ProviderOrGoogle;
    if RecordsOk(w) && (s.CommitCallback? || s.CommitExchange?) && s.pid in w.pending {
      PendingHolds(w, s.pid);
    }
  }

  /** Read and update with nothing in between is what the datastore does in one transaction. */
  lemma UninterruptedExchange(w: World, pid: nat, code: string, provider: string, session: string, id: string, verifier: string, now: int)
    requires pid !in w.pending && RecordsOk(w)
    ensures var r := ReadHandoff(w.db, CodeHash(code), provider, Binding(id, session, S256(verifier)), now);
            var w' := Next(Next(w, ReadForExchange(pid, code, provider, session, id, verifier, now)), CommitExchange(pid));
            if r.Ok? then MarkHandoff(w.db, CodeHash(code), now) == Some(w'.db) && |w'.log| == |w.log| + 1 else w' == w
  {
    hide RecordsOk, ProviderOrGoogle;
    if CodeHash(code) in w.db.handoffs { RowHolds(w, CodeHash(code)); }
  }

  /** The same for the callback: it consumes the state as the datastore's one transaction does, and then
      holds exactly the record that transaction returns. */
  lemma UninterruptedCallback(w: World, pid: nat, id: string, provider: string, now: int)
    requires pid !in w.pending && RecordsOk(w)
    ensures var r := ReadState(w.db, id, provider, now);
            var w' := Next(Next(w, ReadForCallback(pid, id, provider, now)), CommitCallback(pid));
            if r.Ok? then
              && MarkState(w.db, id, now) == Some(w'.db) && |w'.log| == |w.log| + 1
              && pid in w'.pending && w'.pending[pid] == Consumed(r.value.(usedAt := Some(now)), provider, now)
            else w' == w
  {
    hide RecordsOk, ProviderOrGoogle;
    if id in w.db.states { StateHolds(w, id); }
  }

  // ── a whole flow ────────────────────────────────────────────────────

  /** One authorization from its start through the provider's redirect to a minted handoff. */
  function Authorized(w: World, s: Step, pid: nat, provider: string, now: int, code: string, tokens: Tokens, scopes: seq<string>, ttl: int): World
    requires s.Start?
  {
    Next(Next(Next(Next(w, s), ReadForCallback(pid, s.id, provider, now)), CommitCallback(pid)), Mint(pid, code, tokens, scopes, ttl))
  }

  /** It mints exactly when the redirect names the provider of the start and comes before the state expires. */
  lemma AuthorizedIff(w: World, s: Step, pid: nat, provider: string, now: int, code: string, tokens: Tokens, scopes: seq<string>, ttl: int)
    requires s.Start? && s.id !in w.db.states && CodeHash(code) !in w.db.handoffs && pid !in w.pending
    ensures var w' := Authorized(w, s, pid, provider, now, code, tokens, scopes, ttl);
            && pid !in w'.pending
            && if ProviderOrGoogle(provider) == ProviderOrGoogle(s.provider) && now < s.expiresAt then
                 && CodeHash(code) in w'.db.handoffs
                 && w'.db.handoffs[CodeHash(code)] ==
                      Handoff(CodeHash(code), ProviderOrGoogle(provider), s.id, s.session, s.handoffChallenge,
                              Some(Sealed(Binding(s.id, s.session, s.handoffChallenge), tokens)), scopes, now + ttl, None)
                 && w'.log == w.log + [Started(NewState(s).(provider := ProviderOrGoogle(s.provider))), StateUsed(s.id, provider, now),
                                       Minted(s.id, CodeHash(code), tokens)]
               else CodeHash(code) !in w'.db.handoffs && w'.log == w.log + [Started(NewState(s).(provider := ProviderOrGoogle(s.provider)))]
  {
    hide ProviderOrGoogle;
    NormalizedOnce(s.provider);
    var w1 := Next(w, s);
    var w2 := Next(w1, ReadForCallback(pid, s.id, provider, now));
    var w3 := Next(w2, CommitCallback(pid));
    if ProviderOrGoogle(provider) == ProviderOrGoogle(s.provider) && now < s.expiresAt {
      assert w3.pending[pid].state.id == s.id && w3.log == w1.log + [StateUsed(s.id, provider, now)];
    } else {
      assert w2 == w1 && w3 == w1;
    }
  }

  /** A whole flow hands out its tokens if and only if each of its requests is in order: the redirect and the exchange
      name the provider of the start, both come in time, and the exchange proves the session, the state and the
      verifier of the start. */
  lemma FlowSucceedsIff(w: World, s: Step, pid: nat, provider: string, now: int, code: string, tokens: Tokens, scopes: seq<string>, ttl: int,
                        provider': string, session: string, id: string, verifier: string, now': int)
    requires s.Start? && s.id !in w.db.states && CodeHash(code) !in w.db.handoffs && pid !in w.pending
    ensures var a := Authorized(w, s, pid, provider, now, code, tokens, scopes, ttl);
            var w' := Next(Next(a, ReadForExchange(pid, code, provider', session, id, verifier, now')), CommitExchange(pid));
            if && ProviderOrGoogle(provider) == ProviderOrGoogle(s.provider) && ProviderOrGoogle(provider') == ProviderOrGoogle(s.provider)
               && now < s.expiresAt && now' < now + ttl
               && session == s.session && id == s.id && S256(verifier) == s.handoffChallenge
            then w'.log == a.log + [Exchanged(s.id, CodeHash(code), provider', s.session, verifier, now', Some(tokens))]
            else w' == a
  {
    hide ProviderOrGoogle, Authorized;
    NormalizedOnce(provider);
    AuthorizedIff(w, s, pid, provider, now, code, tokens, scopes, ttl);
  }
}
