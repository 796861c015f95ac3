/**
 * Launch tokens and browser sessions (`launch.py`, `browser_session.py`): what each service does to the index.
 * Records are kept under the digest of their token.
 */
module Sessions {
  import opened Wrappers
  import opened Collections
  import opened Numbers
  import opened Digests
  import opened Transaction

  datatype Mode = ACTIVE | TERMINAL

  datatype LaunchToken = LaunchToken(tx: nat, expiresAt: real)

  datatype Session = Session(tx: nat, mode: Mode, expiresAt: real)

  /** The token, session and external indexes, and the files of each transaction that point into them. */
  datatype Index = Index(
    tokens: map<Bytes, LaunchToken>, sessions: map<Bytes, Session>, external: map<Bytes, nat>,
    activeLaunches: map<nat, seq<Bytes>>, activeSession: map<nat, Bytes>, status: map<nat, Status>)

  /** `is_terminal_status`: narrower than the terminal set of the store. */
  predicate IsTerminalStatus(s: Status) {
    s in {COMPLETED, ATTEMPT_LIMIT_EXCEEDED}
  }

  function ReadActive(x: Index, tx: nat): seq<Bytes> {
    if tx in x.activeLaunches then x.activeLaunches[tx] else []
  }

  // ---------------------------------------------------------------- launches

  /** Claim of the external key; no transaction is made for a key already taken. */
  function ClaimExternal(x: Index, key: Bytes, tx: nat): (Index, bool) {
    if key in x.external then (x, false)
    else (x.(external := x.external[key := tx], status := x.status[tx := LAUNCHED]), true)
  }

  function PutToken(x: Index, hash: Bytes, token: LaunchToken): Index {
    x.(tokens := x.tokens[hash := token])
  }

  function WriteActive(x: Index, tx: nat, list: seq<Bytes>): Index {
    x.(activeLaunches := x.activeLaunches[tx := list])
  }

  /** `_store_launch_token`. */
  function StoreLaunchToken(x: Index, tx: nat, hash: Bytes, expiresAt: real): Index {
    WriteActive(PutToken(x, hash, LaunchToken(tx, expiresAt)), tx, ReadActive(x, tx) + [hash])
  }

  /** `_revoke_active_launch_tokens`. */
  function RevokeTokens(x: Index, tx: nat): Index {
    WriteActive(x.(tokens := x.tokens - Elements(ReadActive(x, tx))), tx, [])
  }

  /** The locked section of `reissue_launch`. */
  function Reissue(x: Index, tx: nat, hash: Bytes, expiresAt: real): Index {
    StoreLaunchToken(RevokeTokens(x, tx), tx, hash, expiresAt)
  }

  // ---------------------------------------------------------------- redemption

  datatype Redemption = INVALID | EXPIRED | Admitted(tx: nat, mode: Mode)

  /** Token and status checks of `redeem_launch_token`; a redeemed token stays redeemable until it expires. */
  function Redeem(x: Index, hash: Bytes, now: real): (Index, Redemption) {
    if hash !in x.tokens then (x, INVALID)
    else if now >= x.tokens[hash].expiresAt then (x.(tokens := x.tokens - {hash}), EXPIRED)
    else
      (x, Admitted(x.tokens[hash].tx, ModeFor(x, x.tokens[hash].tx)))
  }

  function ModeFor(x: Index, tx: nat): Mode {
    var status := if tx in x.status then x.status[tx] else LAUNCHED;
    if IsTerminalStatus(status) then TERMINAL else ACTIVE
  }

  function InvalidatePreviousActive(x: Index, tx: nat): Index {
    if tx in x.activeSession then x.(sessions := x.sessions - {x.activeSession[tx]}) else x
  }

  /** The locked section of `_create_session`. */
  function CreateSession(x: Index, tx: nat, mode: Mode, hash: Bytes, expiresAt: real): Index {
    var cleared := if mode == ACTIVE then InvalidatePreviousActive(x, tx) else x;
    cleared.(sessions := cleared.sessions[hash := Session(tx, mode, expiresAt)],
             activeSession := if mode == ACTIVE then x.activeSession[tx := hash] else x.activeSession)
  }

  /** `resolve_browser_session`: an expired record is removed on the way. */
  function Resolve(x: Index, hash: Bytes, now: real): (Index, Option<Session>) {
    if hash !in x.sessions then (x, None)
    else if now >= x.sessions[hash].expiresAt then (x.(sessions := x.sessions - {hash}), None)
    else (x, Some(x.sessions[hash]))
  }

  /** The end of a completing submit: status, then `_revoke_after_completion`. */
  function Complete(x: Index, tx: nat): Index {
    InvalidatePreviousActive(x.(status := x.status[tx := COMPLETED]), tx)
  }

  /** Every stored token of `tx` is on its list. */
  predicate AllListed(x: Index, tx: nat) {
    forall h :: h in x.tokens && x.tokens[h].tx == tx ==> h in ReadActive(x, tx)
  }

  /** Every active session but these is the one its transaction points to. */
  predicate EachActivePointed(x: Index, orphans: set<Bytes>) {
    forall h :: h in x.sessions && x.sessions[h].mode == ACTIVE && h !in orphans ==>
      x.sessions[h].tx in x.activeSession && x.activeSession[x.sessions[h].tx] == h
  }

  // ---------------------------------------------------------------- deaths inside a locked section

  /** The last write of a worker that dies while it opens a session or reissues a launch. */
  datatype IndexDeath = PreviousDropped | RecordStored | TokensDropped(count: nat) | ListEmptied | TokenStored

  function OpeningDeath(x: Index, tx: nat, mode: Mode, hash: Bytes, expiresAt: real, at: IndexDeath): Index {
    var cleared := if mode == ACTIVE then InvalidatePreviousActive(x, tx) else x;
    if at.RecordStored? then cleared.(sessions := cleared.sessions[hash := Session(tx, mode, expiresAt)]) else cleared
  }

  function ReissueDeath(x: Index, tx: nat, hash: Bytes, expiresAt: real, at: IndexDeath): Index {
    match at
    case TokenStored => PutToken(RevokeTokens(x, tx), hash, LaunchToken(tx, expiresAt))
    case ListEmptied => RevokeTokens(x, tx)
    case TokensDropped(count) =>
      var listed := ReadActive(x, tx);
      x.(tokens := x.tokens - Elements(listed[..Min(count, |listed|)]))
    case _ => x
  }

  // ---------------------------------------------------------------- what the services answer

  /** The transaction is over for the browser. */
  predicate IsOver(x: Index, tx: nat) {
    tx in x.status && (x.status[tx] == COMPLETED || x.status[tx] == ATTEMPT_LIMIT_EXCEEDED)
  }

  /** A token opens its transaction before its expiry, for capture unless that is over; an expired one is forgotten. */
  lemma RedeemTable(x: Index, hash: Bytes, now: real)
    ensures var (x', result) := Redeem(x, hash, now);
      && (result == INVALID <==> hash !in x.tokens)
      && (result == EXPIRED <==> hash in x.tokens && x.tokens[hash].expiresAt <= now)
      && (result.Admitted? ==> result == Admitted(x.tokens[hash].tx, if IsOver(x, x.tokens[hash].tx) then TERMINAL else ACTIVE))
      && x' == x.(tokens := if result == EXPIRED then x.tokens - {hash} else x.tokens)
  {}

  /** A session resolves before its expiry; an expired one is forgotten. */
  lemma ResolveTable(x: Index, hash: Bytes, now: real)
    ensures var (x', record) := Resolve(x, hash, now);
      var live := hash in x.sessions && now < x.sessions[hash].expiresAt;
      && record == (if live then Some(x.sessions[hash]) else None)
      && x' == x.(sessions := if live then x.sessions else x.sessions - {hash})
  {}

  /** The session its transaction points to. */
  function Pointed(x: Index, tx: nat): set<Bytes> {
    if tx in x.activeSession then {x.activeSession[tx]} else {}
  }

  /** An active session takes the place of the one pointed to; a terminal one is added beside it. */
  lemma OpeningTable(x: Index, tx: nat, mode: Mode, hash: Bytes, expiresAt: real)
    ensures var x' := CreateSession(x, tx, mode, hash, expiresAt);
      && x' == x.(sessions := x'.sessions, activeSession := x'.activeSession)
      && x'.sessions == (x.sessions - if mode == ACTIVE then Pointed(x, tx) else {})[hash := Session(tx, mode, expiresAt)]
      && x'.activeSession == if mode == ACTIVE then x.activeSession[tx := hash] else x.activeSession
  {}

  /** A worker that dies leaves the writes before its death, and none after. */
  lemma OpeningDeathTable(x: Index, tx: nat, mode: Mode, hash: Bytes, expiresAt: real)
    ensures var left := x.sessions - if mode == ACTIVE then Pointed(x, tx) else {};
      && OpeningDeath(x, tx, mode, hash, expiresAt, PreviousDropped) == x.(sessions := left)
      && OpeningDeath(x, tx, mode, hash, expiresAt, RecordStored) == x.(sessions := left[hash := Session(tx, mode, expiresAt)])
  {}

  lemma ReissueDeathTable(x: Index, tx: nat, hash: Bytes, expiresAt: real, count: nat)
    ensures var listed := ReadActive(x, tx);
      var revoked := x.(tokens := x.tokens - Elements(listed), activeLaunches := x.activeLaunches[tx := []]);
      && ReissueDeath(x, tx, hash, expiresAt, ListEmptied) == revoked
      && ReissueDeath(x, tx, hash, expiresAt, TokenStored) ==
         revoked.(tokens := revoked.tokens[hash := LaunchToken(tx, expiresAt)])
      && (count <= |listed| ==>
          ReissueDeath(x, tx, hash, expiresAt, TokensDropped(count)) == x.(tokens := x.tokens - Elements(listed[..count])))
  {}

  // ---------------------------------------------------------------- the services on stored fields

  class IndexStore {
    var tokens: map<Bytes, LaunchToken>
    var sessions: map<Bytes, Session>
    var external: map<Bytes, nat>
    var activeLaunches: map<nat, seq<Bytes>>
    var activeSession: map<nat, Bytes>
    var status: map<nat, Status>

    ghost function View(): Index
      reads this
    {
      Index(tokens, sessions, external, activeLaunches, activeSession, status)
    }

    method ReadActiveLaunches(tx: nat) returns (active: seq<Bytes>)
      ensures active == ReadActive(View(), tx)
    {
      active := if tx in activeLaunches then activeLaunches[tx] else [];
    }

    method StoreToken(tx: nat, hash: Bytes, expiresAt: real)
      modifies this`tokens, this`activeLaunches
      ensures View() == StoreLaunchToken(old(View()), tx, hash, expiresAt)
      // The token is redeemed for its transaction until it expires, and every other token as before.
      ensures forall now :: Redeem(View(), hash, now).1 == if now < expiresAt then Admitted(tx, ModeFor(View(), tx)) else EXPIRED
      ensures forall h, now :: h != hash ==> Redeem(View(), h, now).1 == Redeem(old(View()), h, now).1
      // A list that held every token of its transaction still does.
      ensures forall t :: hash !in old(tokens) && AllListed(old(View()), t) ==> AllListed(View(), t)
    {
      tokens := tokens[hash := LaunchToken(tx, expiresAt)];
      var active := ReadActiveLaunches(tx);
      active := active + [hash];
      activeLaunches := activeLaunches[tx := active];
    }

    method RevokeActiveLaunchTokens(tx: nat)
      modifies this`tokens, this`activeLaunches
      ensures View() == RevokeTokens(old(View()), tx)
      ensures forall h, now ::
        Redeem(View(), h, now).1 == (if h in old(ReadActive(View(), tx)) then INVALID else Redeem(old(View()), h, now).1)
    {
      var active := ReadActiveLaunches(tx);
      for i := 0 to |active|
        invariant tokens == old(tokens) - Elements(active[..i])
        invariant activeLaunches == old(activeLaunches)
      {
        tokens := tokens - {active[i]};
        assert Elements(active[..i + 1]) == Elements(active[..i]) + {active[i]};
      }
      assert active[..|active|] == active;
      activeLaunches := activeLaunches[tx := []];
    }

    /** The locked section of a reissue. */
    method ReissueLaunch(tx: nat, hash: Bytes, expiresAt: real)
      modifies this`tokens, this`activeLaunches
      ensures View() == Reissue(old(View()), tx, hash, expiresAt)
      // The new token is redeemed, the listed ones are unknown, and those of other transactions are untouched.
      ensures forall now :: Redeem(View(), hash, now).1 == if now < expiresAt then Admitted(tx, ModeFor(View(), tx)) else EXPIRED
      ensures forall h, now :: h != hash ==>
        Redeem(View(), h, now).1 == (if h in old(ReadActive(View(), tx)) then INVALID else Redeem(old(View()), h, now).1)
      ensures AllListed(old(View()), tx) ==> forall h :: h in tokens && tokens[h].tx == tx ==> h == hash
    {
      RevokeActiveLaunchTokens(tx);
      StoreToken(tx, hash, expiresAt);
    }

    method RedeemLaunchToken(hash: Bytes, now: real) returns (result: Redemption)
      modifies this`tokens
      ensures (View(), result) == Redeem(old(View()), hash, now)
      // A token that was refused is refused from then on; one that was admitted can be used again until it expires.
      ensures !result.Admitted? ==> forall later :: Redeem(View(), hash, later).1 == INVALID
      ensures result.Admitted? ==> forall later ::
        Redeem(View(), hash, later).1 == (if later < old(tokens)[hash].expiresAt then result else EXPIRED)
      ensures forall h, later :: h != hash ==> Redeem(View(), h, later).1 == Redeem(old(View()), h, later).1
      ensures result.Admitted? && result.mode == ACTIVE ==> result.tx !in status || !IsTerminalStatus(status[result.tx])
    {
      if hash !in tokens {
        return INVALID;
      }
      var record := tokens[hash];
      if now >= record.expiresAt {
        tokens := tokens - {hash};
        return EXPIRED;
      }
      var current := if record.tx in status then status[record.tx] else LAUNCHED;
      if IsTerminalStatus(current) {
        return Admitted(record.tx, TERMINAL);
      }
      return Admitted(record.tx, ACTIVE);
    }

    method DropActiveSession(tx: nat)
      modifies this`sessions
      ensures View() == InvalidatePreviousActive(old(View()), tx)
    {
      if tx in activeSession {
        sessions := sessions - {activeSession[tx]};
      }
    }

    /** The locked section of a redemption. */
    method CreateSessionLocked(tx: nat, mode: Mode, hash: Bytes, expiresAt: real)
      modifies this`sessions, this`activeSession
      ensures View() == CreateSession(old(View()), tx, mode, hash, expiresAt)
      // The new session resolves until it expires.
      ensures forall now :: now < expiresAt ==> Resolve(View(), hash, now).1 == Some(Session(tx, mode, expiresAt))
      // A new active session is the only one of its transaction; a terminal one displaces nobody.
      ensures EachActivePointed(old(View()), {}) && hash !in old(sessions) && hash !in old(activeSession).Values ==>
        && EachActivePointed(View(), {})
        && (mode == ACTIVE ==> forall h :: h in sessions && sessions[h].tx == tx && sessions[h].mode == ACTIVE ==> h == hash)
      ensures mode == TERMINAL ==> forall h, now :: h != hash ==> Resolve(View(), h, now).1 == Resolve(old(View()), h, now).1
    {
      if mode == ACTIVE {
        DropActiveSession(tx);
      }
      sessions := sessions[hash := Session(tx, mode, expiresAt)];
      if mode == ACTIVE {
        activeSession := activeSession[tx := hash];
      }
    }

    method ResolveBrowserSession(hash: Bytes, now: real) returns (record: Option<Session>)
      modifies this`sessions
      ensures (View(), record) == Resolve(old(View()), hash, now)
      // Nothing that failed to resolve resolves later; what did keeps doing so until it expires; others are untouched.
      ensures record.None? ==> forall later :: Resolve(View(), hash, later).1.None?
      ensures record.Some? ==> forall later :: later < record.value.expiresAt ==> Resolve(View(), hash, later).1 == record
      ensures forall h, later :: h != hash ==> Resolve(View(), h, later).1 == Resolve(old(View()), h, later).1
    {
      if hash !in sessions {
        return None;
      }
      if now >= sessions[hash].expiresAt {
        sessions := sessions - {hash};
        return None;
      }
      return Some(sessions[hash]);
    }

    method CompleteLocked(tx: nat)
      modifies this`status, this`sessions
      ensures View() == Complete(old(View()), tx)
      // No active session of the transaction is left, and its tokens only open terminal ones.
      ensures EachActivePointed(old(View()), {}) ==>
        EachActivePointed(View(), {}) && forall h :: h in sessions && sessions[h].tx == tx ==> sessions[h].mode == TERMINAL
      ensures forall h, now, mode :: Redeem(View(), h, now).1 == Admitted(tx, mode) ==> mode == TERMINAL
    {
      status := status[tx := COMPLETED];
      DropActiveSession(tx);
    }
  }
}
