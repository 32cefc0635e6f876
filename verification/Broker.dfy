/** The broker's single-use records: internal/broker/store/store.go, and the protocol that starts an
    authorization, consumes its state once, mints one handoff and exchanges it once. */
module Broker {
  import opened Wrappers

  /** The S256 code challenge of a verifier (section 4.2 of RFC 7636), or any other text. */
  datatype Challenge = S256(verifier: string) | OtherText(text: string)
  datatype CodeHash = CodeHash(code: string)
  datatype Tokens = Tokens(access: string, refresh: string, kind: string, expiry: Option<int>)

  /** Sealed token material opens only under the associated data it was sealed with. */
  datatype Binding = Binding(stateId: string, session: string, challenge: Challenge)
  datatype Sealed = Sealed(binding: Binding, tokens: Tokens)

  function Unseal(sealed: Sealed, binding: Binding): Option<Tokens> {
    if sealed.binding == binding then Some(sealed.tokens) else None
  }

  datatype OAuthState = OAuthState(id: string, provider: string, session: string, verifier: string, challenge: Challenge,
                                   handoffChallenge: Challenge, redirect: string, scopes: seq<string>, expiresAt: int,
                                   usedAt: Option<int>)

  datatype Handoff = Handoff(code: CodeHash, provider: string, stateId: string, session: string, challenge: Challenge,
                             payload: Option<Sealed>, scopes: seq<string>, expiresAt: int, usedAt: Option<int>)

  datatype Error = NotFound | Expired | AlreadyUsed | Mismatch | Conflict
  datatype Result<+T> = Ok(value: T) | Err(error: Error)

  datatype Db = Db(states: map<string, OAuthState>, handoffs: map<CodeHash, Handoff>)

  // ── provider names ──────────────────────────────────────────────────

  const SPACES := {'\t', '\n', '\U{0B}', '\U{0C}', '\r', ' ', '\U{85}', '\U{A0}', '\U{1680}', '\U{2028}', '\U{2029}',
                   '\U{202F}', '\U{205F}', '\U{3000}'}

  predicate IsSpace(c: char) {
    c in SPACES || '\U{2000}' <= c <= '\U{200A}'
  }

  function TrimLeft(s: string): (r: string)
    ensures r == [] || !IsSpace(r[0])
    ensures |r| <= |s| && (r != [] ==> s[|s| - 1] == r[|r| - 1])
  {
    if s == [] || !IsSpace(s[0]) then s else TrimLeft(s[1..])
  }

  function TrimRight(s: string): (r: string)
    ensures r == [] || !IsSpace(r[|r| - 1])
    ensures r <= s
    ensures s != [] && !IsSpace(s[|s| - 1]) ==> r == s
  {
    if s == [] || !IsSpace(s[|s| - 1]) then s else TrimRight(s[..|s| - 1])
  }

  function TrimSpace(s: string): string {
    TrimRight(TrimLeft(s))
  }

  predicate Blank(s: string) {
    forall i :: 0 <= i < |s| ==> IsSpace(s[i])
  }

  lemma {:induction false} LeftTrimmed(s: string) returns (i: nat)
    ensures i <= |s| && TrimLeft(s) == s[i..] && Blank(s[..i])
  {
    i := 0;
    while i < |s| && IsSpace(s[i])
      invariant i <= |s| && TrimLeft(s) == TrimLeft(s[i..]) && Blank(s[..i])
    {
      assert s[i..][1..] == s[i + 1..] && s[..i + 1] == s[..i] + [s[i]];
      i := i + 1;
    }
  }

  lemma {:induction false} RightTrimmed(s: string) returns (j: nat)
    ensures j <= |s| && TrimRight(s) == s[..j] && Blank(s[j..])
  {
    j := |s|;
    assert s[..j] == s;
    while j > 0 && IsSpace(s[j - 1])
      invariant j <= |s| && TrimRight(s) == TrimRight(s[..j]) && Blank(s[j..])
    {
      assert s[..j][..j - 1] == s[..j - 1] && s[j - 1..] == [s[j - 1]] + s[j..];
      j := j - 1;
    }
  }

  /** Trimming takes away exactly the space around a text: what is left neither begins nor ends with space. */
  lemma TrimsAround(s: string) returns (i: nat, j: nat)
    ensures i <= j <= |s| && TrimSpace(s) == s[i..j] && Blank(s[..i]) && Blank(s[j..])
    ensures i < j ==> !IsSpace(s[i]) && !IsSpace(s[j - 1])
  {
    i := LeftTrimmed(s);
    var t := s[i..];
    var n := RightTrimmed(t);
    j := i + n;
    assert t[..n] == s[i..j] && t[n..] == s[j..];
    if i < j { assert TrimSpace(s)[0] == s[i] && TrimSpace(s)[n - 1] == s[j - 1]; }
  }

  /** A blank provider name means Google, any other is meant without the space around it. */
  lemma BlankMeansGoogle(provider: string)
    ensures ProviderOrGoogle(provider) == if Blank(provider) then "google" else TrimSpace(provider)
  {
    var i, j := TrimsAround(provider);
    if i == j {
      assert provider == provider[..i] + provider[j..];
    } else {
      assert !IsSpace(provider[i]);
    }
  }

  function ProviderOrGoogle(provider: string): string {
    if TrimSpace(provider) == "" then "google" else TrimSpace(provider)
  }

  lemma NormalizedOnce(provider: string)
    ensures ProviderOrGoogle(ProviderOrGoogle(provider)) == ProviderOrGoogle(provider)
  {
    var t := TrimSpace(provider);
    if t != "" {
      assert t[0] == TrimLeft(provider)[0];
      assert TrimLeft(t) == t && TrimRight(t) == t;
    } else {
      assert "google"[0] == 'g' && "google"[5] == 'e';
      assert TrimLeft("google") == "google" && TrimRight("google") == "google";
    }
  }

  // ── records ─────────────────────────────────────────────────────────

  function InsertState(db: Db, rec: OAuthState): Result<Db> {
    if rec.id in db.states then Err(Conflict)
    else Ok(db.(states := db.states[rec.id := rec.(provider := ProviderOrGoogle(rec.provider), usedAt := None)]))
  }

  /** The reading half of consuming a state: what it must satisfy, in the order it is checked. */
  function ReadState(db: Db, id: string, provider: string, now: int): (r: Result<OAuthState>)
    ensures r.Ok? <==> id in db.states && db.states[id].usedAt.None? && now < db.states[id].expiresAt
                       && ProviderOrGoogle(db.states[id].provider) == ProviderOrGoogle(provider)
    ensures r.Ok? ==> r.value == db.states[id]
    ensures (r == Err(NotFound) <==> id !in db.states) && (r == Err(AlreadyUsed) <==> id in db.states && db.states[id].usedAt.Some?)
    ensures r == Err(Mismatch) <==>
              id in db.states && db.states[id].usedAt.None? && ProviderOrGoogle(db.states[id].provider) != ProviderOrGoogle(provider)
  {
    if id !in db.states then Err(NotFound)
    else
      var rec := db.states[id];
      if rec.usedAt.Some? then Err(AlreadyUsed)
      else if ProviderOrGoogle(rec.provider) != ProviderOrGoogle(provider) then Err(Mismatch)
      else if now >= rec.expiresAt then Err(Expired)
      else Ok(rec)
  }

  /** The writing half: it takes effect only on a row still unused. */
  function MarkState(db: Db, id: string, now: int): Option<Db> {
    if id in db.states && db.states[id].usedAt.None? then
      Some(db.(states := db.states[id := db.states[id].(usedAt := Some(now))]))
    else None
  }

  /** The handoff minted for a consumed state: bound to it, with the tokens sealed under that binding. */
  function MintedHandoff(st: OAuthState, provider: string, code: string, tokens: Tokens, scopes: seq<string>, expiresAt: int): Handoff {
    Handoff(CodeHash(code), provider, st.id, st.session, st.handoffChallenge,
            Some(Sealed(Binding(st.id, st.session, st.handoffChallenge), tokens)), scopes, expiresAt, None)
  }

  function InsertHandoff(db: Db, rec: Handoff): Result<Db> {
    if rec.code in db.handoffs then Err(Conflict)
    else Ok(db.(handoffs := db.handoffs[rec.code := rec.(provider := ProviderOrGoogle(rec.provider), usedAt := None)]))
  }

  function ReadHandoff(db: Db, code: CodeHash, provider: string, binding: Binding, now: int): (r: Result<Handoff>)
    ensures r.Ok? <==> code in db.handoffs && db.handoffs[code].usedAt.None? && now < db.handoffs[code].expiresAt
                       && ProviderOrGoogle(db.handoffs[code].provider) == ProviderOrGoogle(provider)
                       && db.handoffs[code].stateId == binding.stateId && db.handoffs[code].session == binding.session
                       && db.handoffs[code].challenge == binding.challenge
    ensures r.Ok? ==> r.value == db.handoffs[code]
    ensures (r == Err(NotFound) <==> code !in db.handoffs) && (r == Err(AlreadyUsed) <==> code in db.handoffs && db.handoffs[code].usedAt.Some?)
    ensures r == Err(Expired) <==> code in db.handoffs && db.handoffs[code].usedAt.None? && now >= db.handoffs[code].expiresAt
  {
    if code !in db.handoffs then Err(NotFound)
    else
      var rec := db.handoffs[code];
      if rec.usedAt.Some? then Err(AlreadyUsed)
      else if now >= rec.expiresAt then Err(Expired)
      else if ProviderOrGoogle(rec.provider) != ProviderOrGoogle(provider) then Err(Mismatch)
      else if Binding(rec.stateId, rec.session, rec.challenge) != binding then Err(Mismatch)
      else Ok(rec)
  }

  /** Marking a handoff used also scrubs its sealed payload. */
  function MarkHandoff(db: Db, code: CodeHash, now: int): Option<Db> {
    if code in db.handoffs && db.handoffs[code].usedAt.None? then
      Some(db.(handoffs := db.handoffs[code := db.handoffs[code].(usedAt := Some(now), payload := None)]))
    else None
  }

  /** The datastore. Each consuming method is one transaction; `Protocol` interleaves their halves. */
  class SQLiteStore {
    var states: map<string, OAuthState>
    var handoffs: map<CodeHash, Handoff>

    function Contents(): Db
      reads this
    {
      Db(states, handoffs)
    }

    constructor ()
      ensures Contents() == Db(map[], map[])
    {
      states, handoffs := map[], map[];
    }

    method SaveOAuthState(rec: OAuthState) returns (ok: bool)
      modifies this
      ensures ok <==> InsertState(old(Contents()), rec).Ok?
      ensures Contents() == if ok then InsertState(old(Contents()), rec).value else old(Contents())
    {
      if rec.id in states {
        return false;
      }
      states := states[rec.id := rec.(provider := ProviderOrGoogle(rec.provider), usedAt := None)];
      return true;
    }

    method ConsumeOAuthState(id: string, provider: string, now: int) returns (res: Result<OAuthState>)
      modifies this
      ensures match ReadState(old(Contents()), id, provider, now)
              case Err(e) => res == Err(e) && Contents() == old(Contents())
              case Ok(rec) => res == Ok(rec.(usedAt := Some(now))) && MarkState(old(Contents()), id, now) == Some(Contents())
    {
      if id !in states {
        return Err(NotFound);
      }
      var rec := states[id];
      if rec.usedAt.Some? {
        return Err(AlreadyUsed);
      }
      if ProviderOrGoogle(rec.provider) != ProviderOrGoogle(provider) {
        return Err(Mismatch);
      }
      if !(now < rec.expiresAt) {
        return Err(Expired);
      }
      states := states[id := rec.(usedAt := Some(now))];
      return Ok(rec.(usedAt := Some(now)));
    }

    method SaveHandoff(rec: Handoff) returns (ok: bool)
      modifies this
      ensures ok <==> InsertHandoff(old(Contents()), rec).Ok?
      ensures Contents() == if ok then InsertHandoff(old(Contents()), rec).value else old(Contents())
    {
      if rec.code in handoffs {
        return false;
      }
      handoffs := handoffs[rec.code := rec.(provider := ProviderOrGoogle(rec.provider), usedAt := None)];
      return true;
    }

    method ConsumeHandoff(code: CodeHash, provider: string, binding: Binding, now: int) returns (res: Result<Handoff>)
      modifies this
      ensures match ReadHandoff(old(Contents()), code, provider, binding, now)
              case Err(e) => res == Err(e) && Contents() == old(Contents())
              case Ok(rec) => res == Ok(rec.(usedAt := Some(now))) && MarkHandoff(old(Contents()), code, now) == Some(Contents())
    {
      if code !in handoffs {
        return Err(NotFound);
      }
      var rec := handoffs[code];
      if rec.usedAt.Some? {
        return Err(AlreadyUsed);
      }
      if !(now < rec.expiresAt) {
        return Err(Expired);
      }
      if ProviderOrGoogle(rec.provider) != ProviderOrGoogle(provider) {
        return Err(Mismatch);
      }
      if rec.session != binding.session || rec.stateId != binding.stateId || rec.challenge != binding.challenge {
        return Err(Mismatch);
      }
      handoffs := handoffs[code := rec.(usedAt := Some(now), payload := None)];
      return Ok(rec.(usedAt := Some(now)));
    }
  }
}
