/** Concurrent launches, reissues, redemptions and completions over one index. */
module SessionProtocol {
  import opened Digests
  import opened Transaction
  import opened Sessions

  /** A request between two of its sections. */
  datatype Op =
    | KeyTaken(tx: nat)
    | TokenPut(tx: nat, hash: Bytes)
    | ListRead(tx: nat, hash: Bytes, list: seq<Bytes>)
    | Redeeming(tx: nat, mode: Mode)

  /**
   * `issued` holds every token digest ever generated: 256-bit tokens do not repeat. `orphans` holds those of sessions
   * whose worker died before it pointed to the record, and so never returned the token.
   */
  datatype World = World(
    index: Index, ops: map<nat, Op>, now: real, issued: set<Bytes>, nextTx: nat, orphans: set<Bytes>)

  datatype Action =
    | ClaimKey(op: nat, key: Bytes)
    | PutFirstToken(op: nat, hash: Bytes, ttl: real)
    | ReadList(op: nat)
    | WriteList(op: nat)
    | ReissueKey(key: Bytes, hash: Bytes, ttl: real)
    | RedeemToken(op: nat, hash: Bytes)
    | ReissueDies(key: Bytes, hash: Bytes, ttl: real, at: IndexDeath)
    | OpenSession(op: nat, hash: Bytes, ttl: real)
    | OpeningDies(op: nat, hash: Bytes, ttl: real, at: IndexDeath)
    | ResolveSession(hash: Bytes)
    | CompleteTx(tx: nat)
    | StatusMoves(tx: nat, status: Status)
    | Crash(op: nat)
    | Tick(seconds: real)

  predicate Enabled(w: World, a: Action) {
    match a
    case ClaimKey(op, _) => op !in w.ops
    case PutFirstToken(op, hash, _) => op in w.ops && w.ops[op].KeyTaken? && hash !in w.issued
    case ReadList(op) => op in w.ops && w.ops[op].TokenPut?
    case WriteList(op) => op in w.ops && w.ops[op].ListRead?
    case ReissueKey(key, hash, _) => key in w.index.external && hash !in w.issued
    case RedeemToken(op, _) => op !in w.ops
    case ReissueDies(key, hash, _, at) =>
      key in w.index.external && hash !in w.issued && (at.TokensDropped? || at.ListEmptied? || at.TokenStored?)
    case OpenSession(op, hash, _) => op in w.ops && w.ops[op].Redeeming? && hash !in w.issued
    case OpeningDies(op, hash, _, at) =>
      op in w.ops && w.ops[op].Redeeming? && hash !in w.issued && (at.PreviousDropped? || at.RecordStored?)
    case ResolveSession(_) => true
    case CompleteTx(_) => true
    case StatusMoves(_, _) => true
    case Crash(op) => op in w.ops
    case Tick(seconds) => seconds >= 0.0
  }

  function Do(w: World, a: Action): World
    requires Enabled(w, a)
  {
    var x := w.index;
    match a
    case ClaimKey(op, key) =>
      var (y, claimed) := ClaimExternal(x, key, w.nextTx);
      if claimed then w.(index := y, ops := w.ops[op := KeyTaken(w.nextTx)], nextTx := w.nextTx + 1) else w
    case PutFirstToken(op, hash, ttl) =>
      w.(index := PutToken(x, hash, LaunchToken(w.ops[op].tx, w.now + ttl)), ops := w.ops[op := TokenPut(w.ops[op].tx, hash)],
         issued := w.issued + {hash})
    case ReadList(op) => w.(ops := w.ops[op := ListRead(w.ops[op].tx, w.ops[op].hash, ReadActive(x, w.ops[op].tx))])
    case WriteList(op) => w.(index := WriteActive(x, w.ops[op].tx, w.ops[op].list + [w.ops[op].hash]), ops := w.ops - {op})
    case ReissueKey(key, hash, ttl) => w.(index := Reissue(x, x.external[key], hash, w.now + ttl), issued := w.issued + {hash})
    case RedeemToken(op, hash) =>
      var (y, result) := Redeem(x, hash, w.now);
      if result.Admitted? then w.(index := y, ops := w.ops[op := Redeeming(result.tx, result.mode)]) else w.(index := y)
    case OpenSession(op, hash, ttl) =>
      w.(index := CreateSession(x, w.ops[op].tx, w.ops[op].mode, hash, w.now + ttl), ops := w.ops - {op},
         issued := w.issued + {hash})
    case ReissueDies(key, hash, ttl, at) =>
      w.(index := ReissueDeath(x, x.external[key], hash, w.now + ttl, at), issued := w.issued + {hash})
    case OpeningDies(op, hash, ttl, at) =>
      w.(index := OpeningDeath(x, w.ops[op].tx, w.ops[op].mode, hash, w.now + ttl, at), ops := w.ops - {op},
         issued := w.issued + {hash}, orphans := w.orphans + {hash})
    case ResolveSession(hash) => w.(index := Resolve(x, hash, w.now).0)
    case CompleteTx(tx) => w.(index := Complete(x, tx))
    case StatusMoves(tx, status) => w.(index := x.(status := x.status[tx := status]))
    case Crash(op) => w.(ops := w.ops - {op})
    case Tick(seconds) => w.(now := w.now + seconds)
  }

  function Empty(): World {
    World(Index(map[], map[], map[], map[], map[], map[]), map[], 0.0, {}, 0, {})
  }

  /** A launch of `tx` has claimed its key and not yet stored its token and its list. */
  predicate CreationInFlight(w: World, tx: nat) {
    exists i :: i in w.ops && Creating(w.ops[i]) && w.ops[i].tx == tx
  }

  predicate Creating(o: Op) {
    o.KeyTaken? || o.TokenPut? || o.ListRead?
  }

  /** No launch is reissued before its creation has finished, and no creation or reissue dies. */
  predicate Orderly(w: World, a: Action) {
    && (a.ReissueKey? && a.key in w.index.external ==> !CreationInFlight(w, w.index.external[a.key]))
    && (a.Crash? && a.op in w.ops ==> !Creating(w.ops[a.op])) && !a.ReissueDies?
  }

  predicate Run(w: World, actions: seq<Action>, w': World)
    decreases |actions|
  {
    if actions == [] then w' == w
    else Enabled(w, actions[0]) && Run(Do(w, actions[0]), actions[1..], w')
  }

  predicate OrderlyRun(w: World, actions: seq<Action>, w': World)
    decreases |actions|
  {
    if actions == [] then w' == w
    else Enabled(w, actions[0]) && Orderly(w, actions[0]) && OrderlyRun(Do(w, actions[0]), actions[1..], w')
  }

  // ---------------------------------------------------------------- sessions

  predicate SessionsIssued(x: Index, issued: set<Bytes>) {
    && (forall h :: h in x.sessions ==> h in issued)
    && (forall t :: t in x.activeSession ==> x.activeSession[t] in issued)
  }

  /**
   * Every active session whose worker lived is the one its transaction points to; all were issued, and no orphan is
   * pointed to.
   */
  predicate InvSessions(w: World) {
    && SessionsIssued(w.index, w.issued) && w.orphans <= w.issued && NoOrphanPointed(w.index, w.orphans)
    && EachActivePointed(w.index, w.orphans)
  }

  predicate NoOrphanPointed(x: Index, orphans: set<Bytes>) {
    forall t :: t in x.activeSession ==> x.activeSession[t] !in orphans
  }

  lemma OpeningKeepsSessions(x: Index, issued: set<Bytes>, orphans: set<Bytes>, tx: nat, mode: Mode, hash: Bytes, expiresAt: real)
    requires EachActivePointed(x, orphans) && SessionsIssued(x, issued) && hash !in issued
    ensures EachActivePointed(CreateSession(x, tx, mode, hash, expiresAt), orphans)
  {}

  lemma OpeningDeathKeepsSessions(x: Index, orphans: set<Bytes>, tx: nat, mode: Mode, hash: Bytes, expiresAt: real, at: IndexDeath)
    requires EachActivePointed(x, orphans)
    ensures EachActivePointed(OpeningDeath(x, tx, mode, hash, expiresAt, at), orphans + {hash})
  {}

  lemma ExpiryKeepsPointed(x: Index, orphans: set<Bytes>, hash: Bytes, now: real)
    requires EachActivePointed(x, orphans)
    ensures EachActivePointed(Resolve(x, hash, now).0, orphans)
  {}

  lemma CompletionKeepsPointed(x: Index, orphans: set<Bytes>, tx: nat)
    requires EachActivePointed(x, orphans)
    ensures EachActivePointed(Complete(x, tx), orphans)
  {}

  lemma OthersLeaveSessions(w: World, a: Action)
    requires Enabled(w, a) && !a.OpenSession? && !a.OpeningDies? && !a.ResolveSession? && !a.CompleteTx?
    ensures Do(w, a).orphans == w.orphans
    ensures EachActivePointed(w.index, w.orphans) ==> EachActivePointed(Do(w, a).index, w.orphans)
  {
    assert Do(w, a).index.sessions == w.index.sessions && Do(w, a).index.activeSession == w.index.activeSession;
  }

  lemma StepLeavesIssued(w: World, a: Action)
    requires SessionsIssued(w.index, w.issued) && Enabled(w, a)
    ensures SessionsIssued(Do(w, a).index, Do(w, a).issued) && w.issued <= Do(w, a).issued
  {}

  lemma StepLeavesOrphans(w: World, a: Action)
    requires SessionsIssued(w.index, w.issued) && w.orphans <= w.issued && NoOrphanPointed(w.index, w.orphans) && Enabled(w, a)
    ensures Do(w, a).orphans <= Do(w, a).issued && NoOrphanPointed(Do(w, a).index, Do(w, a).orphans)
  {}

  lemma StepKeepsSessions(w: World, a: Action)
    requires InvSessions(w) && Enabled(w, a)
    ensures InvSessions(Do(w, a)) && w.issued <= Do(w, a).issued
  {
    StepLeavesIssued(w, a);
    StepLeavesOrphans(w, a);
    StepKeepsPointed(w, a);
  }

  lemma StepKeepsPointed(w: World, a: Action)
    requires InvSessions(w) && Enabled(w, a)
    ensures EachActivePointed(Do(w, a).index, Do(w, a).orphans)
  {
    match a
    case OpenSession(op, hash, ttl) =>
      OpeningKeepsSessions(w.index, w.issued, w.orphans, w.ops[op].tx, w.ops[op].mode, hash, w.now + ttl);
    case OpeningDies(op, hash, ttl, at) =>
      OpeningDeathKeepsSessions(w.index, w.orphans, w.ops[op].tx, w.ops[op].mode, hash, w.now + ttl, at);
    case ResolveSession(hash) => ExpiryKeepsPointed(w.index, w.orphans, hash, w.now);
    case CompleteTx(tx) => CompletionKeepsPointed(w.index, w.orphans, tx);
    case _ => OthersLeaveSessions(w, a);
  }

  lemma {:induction false} RunKeepsSessions(w: World, actions: seq<Action>, w': World)
    requires InvSessions(w) && Run(w, actions, w')
    ensures InvSessions(w')
    decreases |actions|
  {
    if actions != [] {
      StepKeepsSessions(w, actions[0]);
      RunKeepsSessions(Do(w, actions[0]), actions[1..], w');
    }
  }

  /**
   * At most one active session record per transaction, after any requests in any order, besides records whose worker
   * died before it pointed to them.
   */
  lemma OneActiveSession(actions: seq<Action>, w: World, a: Bytes, b: Bytes)
    requires Run(Empty(), actions, w)
    requires a in w.index.sessions && b in w.index.sessions
    requires w.index.sessions[a].mode == ACTIVE && w.index.sessions[b].mode == ACTIVE
    requires w.index.sessions[a].tx == w.index.sessions[b].tx && a !in w.orphans && b !in w.orphans
    ensures a == b
  {
    RunKeepsSessions(Empty(), actions, w);
  }

  lemma StepLeavesGone(w: World, a: Action, hash: Bytes)
    requires Enabled(w, a) && hash in w.issued && hash !in w.index.sessions
    ensures hash in Do(w, a).issued && hash !in Do(w, a).index.sessions
  {}

  /** A session that is gone never comes back. */
  lemma {:induction false} GoneForGood(w: World, hash: Bytes, actions: seq<Action>, w': World)
    requires Run(w, actions, w') && hash in w.issued && hash !in w.index.sessions
    ensures hash !in w'.index.sessions && Resolve(w'.index, hash, w'.now).1.None?
    decreases |actions|
  {
    if actions != [] {
      StepLeavesGone(w, actions[0], hash);
      GoneForGood(Do(w, actions[0]), hash, actions[1..], w');
    }
  }

  /**
   * The newest redemption wins: the active session opened before it resolves to nothing, now and later, and only a
   * record whose token nobody was given is left.
   */
  lemma NewestRedemptionWins(before: seq<Action>, w: World, old_: Bytes, op: nat, hash: Bytes, ttl: real,
                             after: seq<Action>, w': World)
    requires Run(Empty(), before, w) && Enabled(w, OpenSession(op, hash, ttl)) && w.ops[op].mode == ACTIVE
    requires old_ in w.index.sessions && w.index.sessions[old_] == Session(w.ops[op].tx, ACTIVE, w.index.sessions[old_].expiresAt)
    requires Run(Do(w, OpenSession(op, hash, ttl)), after, w')
    ensures old_ in Do(w, OpenSession(op, hash, ttl)).index.sessions <==> old_ in w.orphans
    ensures old_ !in w.orphans ==> Resolve(w'.index, old_, w'.now).1.None?
  {
    RunKeepsSessions(Empty(), before, w);
    if old_ !in w.orphans {
      GoneForGood(Do(w, OpenSession(op, hash, ttl)), old_, after, w');
    }
  }

  // ---------------------------------------------------------------- launch tokens

  /** The creation `o` of `tx` is about to put `hash` on the list. */
  predicate PutsOnList(o: Op, tx: nat, hash: Bytes) {
    (o.TokenPut? || o.ListRead?) && o.tx == tx && o.hash == hash
  }

  predicate Listed(w: World, tx: nat, hash: Bytes) {
    hash in ReadActive(w.index, tx) || exists i :: i in w.ops && PutsOnList(w.ops[i], tx, hash)
  }

  /** Every stored token is on the list of its transaction, or its creation is about to put it there. */
  predicate InvTokens(w: World) {
    forall h :: h in w.index.tokens ==> h in w.issued && Listed(w, w.index.tokens[h].tx, h)
  }

  /** The first token of a creation is stored for its transaction, if it is still stored. */
  predicate InvFirstTokens(w: World) {
    forall i :: i in w.ops && (w.ops[i].TokenPut? || w.ops[i].ListRead?) ==> FirstTokenOk(w, w.ops[i].tx, w.ops[i].hash)
  }

  predicate FirstTokenOk(w: World, tx: nat, hash: Bytes) {
    hash in w.issued && (hash in w.index.tokens ==> w.index.tokens[hash].tx == tx)
  }

  /** Each transaction has at most one creation, and has listed nothing before that one finishes. */
  predicate InvCreations(w: World) {
    && (forall i :: i in w.ops && Creating(w.ops[i]) ==> w.ops[i].tx < w.nextTx)
    && OneCreationEach(w)
    && (forall i :: i in w.ops && Creating(w.ops[i]) ==> NothingListed(w, w.ops[i]))
    && (forall t :: t in w.index.activeLaunches ==> t < w.nextTx)
  }

  predicate OneCreationEach(w: World) {
    forall i, j :: i in w.ops && j in w.ops && Creating(w.ops[i]) && Creating(w.ops[j]) && w.ops[i].tx == w.ops[j].tx ==> i == j
  }

  predicate NothingListed(w: World, o: Op)
    requires Creating(o)
  {
    ReadActive(w.index, o.tx) == [] && (o.ListRead? ==> o.list == [])
  }

  predicate InvKeys(w: World) {
    && (forall k :: k in w.index.external ==> w.index.external[k] < w.nextTx)
    && (forall k, l :: k in w.index.external && l in w.index.external && w.index.external[k] == w.index.external[l] ==> k == l)
  }

  lemma StepKeepsKeys(w: World, a: Action)
    requires InvKeys(w) && Enabled(w, a)
    ensures InvKeys(Do(w, a))
  {}

  lemma ClaimKeepsCreations(w: World, op: nat, key: Bytes)
    requires InvCreations(w) && op !in w.ops
    ensures InvCreations(Do(w, ClaimKey(op, key)))
  {}

  lemma StepKeepsCreations(w: World, a: Action)
    requires InvCreations(w) && InvKeys(w) && Enabled(w, a) && Orderly(w, a)
    ensures InvCreations(Do(w, a))
  {
    if a.ClaimKey? {
      ClaimKeepsCreations(w, a.op, a.key);
    } else if a.ReissueKey? {
      ReissueKeepsCreations(w, a);
    } else if a.WriteList? {
      WriteListKeepsCreations(w, a);
    } else {
      OthersKeepCreations(w, a);
    }
  }

  lemma ReissueKeepsCreations(w: World, a: Action)
    requires InvCreations(w) && InvKeys(w) && Enabled(w, a) && Orderly(w, a) && a.ReissueKey?
    ensures InvCreations(Do(w, a))
  {}

  lemma OthersKeepOneEach(w: World, a: Action)
    requires OneCreationEach(w) && Enabled(w, a) && !a.ClaimKey?
    ensures OneCreationEach(Do(w, a))
  {
    assert forall i :: i in Do(w, a).ops && Creating(Do(w, a).ops[i]) ==>
        i in w.ops && Creating(w.ops[i]) && Do(w, a).ops[i].tx == w.ops[i].tx;
  }

  lemma WriteListKeepsCreations(w: World, a: Action)
    requires InvCreations(w) && Enabled(w, a) && a.WriteList?
    ensures InvCreations(Do(w, a))
  {
    OthersKeepOneEach(w, a);
  }

  /** Creations are those there were, and the lists are as they were. */
  predicate CreationsFollow(w: World, w': World) {
    && w'.nextTx == w.nextTx && w'.index.activeLaunches == w.index.activeLaunches
    && forall i :: i in w'.ops && Creating(w'.ops[i]) ==> i in w.ops && Follows(w, w.ops[i], w'.ops[i])
  }

  predicate Follows(w: World, o: Op, o': Op) {
    && Creating(o) && Creating(o') && o'.tx == o.tx
    && (o'.ListRead? ==> o' == o || o'.list == ReadActive(w.index, o.tx))
  }

  lemma FollowingKeepsCreations(w: World, w': World)
    requires InvCreations(w) && CreationsFollow(w, w')
    ensures InvCreations(w')
  {
    forall i | i in w'.ops && Creating(w'.ops[i]) ensures NothingListed(w', w'.ops[i]) && w'.ops[i].tx < w'.nextTx {
      assert NothingListed(w, w.ops[i]);
    }
  }

  lemma OthersKeepCreations(w: World, a: Action)
    requires InvCreations(w) && Enabled(w, a) && !a.ClaimKey? && !a.ReissueKey? && !a.ReissueDies? && !a.WriteList?
    ensures InvCreations(Do(w, a))
  {
    OthersFollow(w, a);
    FollowingKeepsCreations(w, Do(w, a));
  }

  lemma OthersFollow(w: World, a: Action)
    requires Enabled(w, a) && !a.ClaimKey? && !a.ReissueKey? && !a.ReissueDies? && !a.WriteList?
    ensures CreationsFollow(w, Do(w, a))
  {}

  lemma StepKeepsFirstTokens(w: World, a: Action)
    requires InvFirstTokens(w) && Enabled(w, a)
    ensures InvFirstTokens(Do(w, a))
  {}

  /** A token that stays stored stays listed: only its own creation or a reissue rewrites the list. */
  lemma StaysListed(w: World, a: Action, h: Bytes)
    requires InvCreations(w) && Enabled(w, a) && Orderly(w, a)
    requires h in w.index.tokens && h in Do(w, a).index.tokens && Do(w, a).index.tokens[h] == w.index.tokens[h]
    requires Listed(w, w.index.tokens[h].tx, h)
    ensures Listed(Do(w, a), w.index.tokens[h].tx, h)
  {
    var t := w.index.tokens[h].tx;
    if h in ReadActive(w.index, t) {
      ListKeeps(w, a, t, h);
    } else {
      var i :| i in w.ops && PutsOnList(w.ops[i], t, h);
      PutterStays(w, a, i, t, h);
    }
  }

  lemma ListKeeps(w: World, a: Action, t: nat, h: Bytes)
    requires InvCreations(w) && Enabled(w, a) && !a.ReissueDies? && h in ReadActive(w.index, t)
    requires h in w.index.tokens && h in Do(w, a).index.tokens
    ensures h in ReadActive(Do(w, a).index, t)
  {
    if a.WriteList? {
      assert NothingListed(w, w.ops[a.op]);
    }
  }

  lemma PutterStays(w: World, a: Action, i: nat, t: nat, h: Bytes)
    requires Enabled(w, a) && Orderly(w, a) && i in w.ops && PutsOnList(w.ops[i], t, h)
    ensures Listed(Do(w, a), t, h)
  {
    var w' := Do(w, a);
    assert (a.WriteList? && a.op == i) || (i in w'.ops && PutsOnList(w'.ops[i], t, h));
  }

  lemma StepKeepsTokens(w: World, a: Action)
    requires InvTokens(w) && InvCreations(w) && Enabled(w, a) && Orderly(w, a)
    ensures InvTokens(Do(w, a))
  {
    var w' := Do(w, a);
    forall h | h in w'.index.tokens ensures h in w'.issued && Listed(w', w'.index.tokens[h].tx, h) {
      var t := w'.index.tokens[h].tx;
      if a.PutFirstToken? && h == a.hash {
        assert PutsOnList(w'.ops[a.op], t, h);
      } else if a.ReissueKey? && h == a.hash {
        assert h in ReadActive(w'.index, t);
      } else {
        StaysListed(w, a, h);
      }
    }
  }

  predicate InvLaunches(w: World) {
    InvTokens(w) && InvFirstTokens(w) && InvCreations(w) && InvKeys(w)
  }

  lemma {:induction false} RunKeepsLaunches(w: World, actions: seq<Action>, w': World)
    requires InvLaunches(w) && OrderlyRun(w, actions, w')
    ensures InvLaunches(w')
    decreases |actions|
  {
    if actions != [] {
      StepKeepsFirstTokens(w, actions[0]);
      StepKeepsCreations(w, actions[0]);
      StepKeepsKeys(w, actions[0]);
      StepKeepsTokens(w, actions[0]);
      RunKeepsLaunches(Do(w, actions[0]), actions[1..], w');
    }
  }

  lemma StepKeepsKey(w: World, a: Action, key: Bytes)
    requires Enabled(w, a) && key in w.index.external
    ensures key in Do(w, a).index.external && Do(w, a).index.external[key] == w.index.external[key]
  {
    if !a.ClaimKey? {
      OthersLeaveKeys(w, a);
    }
  }

  lemma OthersLeaveKeys(w: World, a: Action)
    requires Enabled(w, a) && !a.ClaimKey?
    ensures Do(w, a).index.external == w.index.external
  {
    match a
    case ReissueKey(key, hash, ttl) => ReissueLeavesKeys(w.index, w.index.external[key], hash, w.now + ttl, TokenStored);
    case ReissueDies(key, hash, ttl, at) => ReissueLeavesKeys(w.index, w.index.external[key], hash, w.now + ttl, at);
    case OpenSession(op, hash, ttl) =>
      OpeningLeavesKeys(w.index, w.ops[op].tx, w.ops[op].mode, hash, w.now + ttl, RecordStored);
    case OpeningDies(op, hash, ttl, at) => OpeningLeavesKeys(w.index, w.ops[op].tx, w.ops[op].mode, hash, w.now + ttl, at);
    case _ =>
  }

  lemma ReissueLeavesKeys(x: Index, tx: nat, hash: Bytes, expiresAt: real, at: IndexDeath)
    ensures Reissue(x, tx, hash, expiresAt).external == x.external == ReissueDeath(x, tx, hash, expiresAt, at).external
  {}

  lemma OpeningLeavesKeys(x: Index, tx: nat, mode: Mode, hash: Bytes, expiresAt: real, at: IndexDeath)
    ensures CreateSession(x, tx, mode, hash, expiresAt).external == x.external
    ensures OpeningDeath(x, tx, mode, hash, expiresAt, at).external == x.external
  {}

  /** A key keeps the transaction it was launched with. */
  lemma {:induction false} KeyKeepsTransaction(w: World, key: Bytes, actions: seq<Action>, w': World)
    requires Run(w, actions, w') && key in w.index.external
    ensures key in w'.index.external && w'.index.external[key] == w.index.external[key]
    decreases |actions|
  {
    if actions != [] {
      StepKeepsKey(w, actions[0], key);
      KeyKeepsTransaction(Do(w, actions[0]), key, actions[1..], w');
    }
  }

  /** Every creation in flight serves the transaction of some key, and no other creation does. */
  predicate InvCreators(w: World) {
    && (forall i :: i in w.ops && Creating(w.ops[i]) ==> w.ops[i].tx in w.index.external.Values && w.ops[i].tx < w.nextTx)
    && (forall i, j :: i in w.ops && j in w.ops && Creating(w.ops[i]) && Creating(w.ops[j]) && w.ops[i].tx == w.ops[j].tx ==> i == j)
  }

  lemma ClaimKeepsCreators(w: World, op: nat, key: Bytes)
    requires InvCreators(w) && op !in w.ops
    ensures InvCreators(Do(w, ClaimKey(op, key)))
  {
    var x, y := w.index.external, Do(w, ClaimKey(op, key)).index.external;
    forall v | v in x.Values ensures v in y.Values {
      var k :| k in x && x[k] == v;
      assert y[k] == v;
    }
    if key !in x {
      assert y[key] == w.nextTx;
    }
  }

  lemma StepKeepsCreators(w: World, a: Action)
    requires InvCreators(w) && Enabled(w, a)
    ensures InvCreators(Do(w, a))
  {
    if a.ClaimKey? {
      ClaimKeepsCreators(w, a.op, a.key);
    } else {
      OthersLeaveKeys(w, a);
    }
  }

  lemma {:induction false} RunKeepsCreators(w: World, actions: seq<Action>, w': World)
    requires InvKeys(w) && InvCreators(w) && Run(w, actions, w')
    ensures InvKeys(w') && InvCreators(w')
    decreases |actions|
  {
    if actions != [] {
      StepKeepsKeys(w, actions[0]);
      StepKeepsCreators(w, actions[0]);
      RunKeepsCreators(Do(w, actions[0]), actions[1..], w');
    }
  }

  /** After any requests in any order no two keys share a transaction, and each is created by the one that took its key. */
  lemma OneLaunchPerKey(actions: seq<Action>, w: World)
    requires Run(Empty(), actions, w)
    ensures forall k, l :: k in w.index.external && l in w.index.external && k != l ==> w.index.external[k] != w.index.external[l]
    ensures forall i :: i in w.ops && Creating(w.ops[i]) ==> w.ops[i].tx in w.index.external.Values
    ensures forall i, j :: i in w.ops && j in w.ops && i != j && Creating(w.ops[i]) && Creating(w.ops[j]) ==>
      w.ops[i].tx != w.ops[j].tx
  {
    RunKeepsCreators(Empty(), actions, w);
  }

  /** A launch takes a new key or ends, and a request that has stored what it was to store is over. */
  lemma LaunchTable(w: World, a: Action)
    requires Enabled(w, a)
    ensures a.ClaimKey? && a.key in w.index.external ==> Do(w, a) == w
    ensures a.ClaimKey? && a.key !in w.index.external ==>
      && Do(w, a).index.external == w.index.external[a.key := w.nextTx] && w.nextTx < Do(w, a).nextTx
      && Do(w, a).ops == w.ops[a.op := KeyTaken(w.nextTx)]
    ensures a.WriteList? || a.OpenSession? || a.OpeningDies? || a.Crash? ==> Do(w, a).ops == w.ops - {a.op}
  {}

  /** What is given out works exactly until its lifetime has passed, and time does not go back. */
  lemma Lifetimes(w: World, a: Action, later: real)
    requires Enabled(w, a)
    ensures a.PutFirstToken? || a.ReissueKey? ==> (Redeem(Do(w, a).index, a.hash, later).1.Admitted? <==> later < w.now + a.ttl)
    ensures a.OpenSession? ==> (Resolve(Do(w, a).index, a.hash, later).1.Some? <==> later < w.now + a.ttl)
    ensures w.now <= Do(w, a).now
  {}

  // ---------------------------------------------------------------- what a reissue leaves redeemable

  predicate OnlyToken(w: World, tx: nat, hash: Bytes) {
    forall h :: h in w.index.tokens && w.index.tokens[h].tx == tx ==> h == hash
  }

  /** No other token of `tx` is stored or can be without another reissue. */
  predicate Sealed(w: World, key: Bytes, tx: nat, hash: Bytes) {
    && OnlyToken(w, tx, hash) && tx < w.nextTx && NoneToCome(w, tx)
    && (forall k :: k in w.index.external && w.index.external[k] == tx ==> k == key)
  }

  /** No creation of `tx` has its first token still to store. */
  predicate NoneToCome(w: World, tx: nat) {
    forall i :: i in w.ops && w.ops[i].KeyTaken? ==> w.ops[i].tx != tx
  }

  predicate Reissues(actions: seq<Action>, key: Bytes) {
    exists a :: a in actions && ReissuesKey(a, key)
  }

  /** The action reissues the launch, or begins to. */
  predicate ReissuesKey(a: Action, key: Bytes) {
    (a.ReissueKey? || a.ReissueDies?) && a.key == key
  }

  lemma StepKeepsSealed(w: World, a: Action, key: Bytes, tx: nat, hash: Bytes)
    requires Sealed(w, key, tx, hash) && Enabled(w, a) && !ReissuesKey(a, key)
    ensures Sealed(Do(w, a), key, tx, hash)
  {}

  lemma {:induction false} RunKeepsSealed(w: World, key: Bytes, tx: nat, hash: Bytes, actions: seq<Action>, w': World)
    requires Sealed(w, key, tx, hash) && Run(w, actions, w') && !Reissues(actions, key)
    ensures OnlyToken(w', tx, hash)
    decreases |actions|
  {
    if actions != [] {
      StepKeepsSealed(w, actions[0], key, tx, hash);
      RunKeepsSealed(Do(w, actions[0]), key, tx, hash, actions[1..], w');
    }
  }

  /** Some digest has not been issued. */
  lemma UnusedDigest(issued: set<Bytes>) returns (h: Bytes)
    ensures h !in issued
  {
    h := Longer(issued);
  }

  lemma {:induction false} Longer(s: set<Bytes>) returns (h: Bytes)
    ensures forall x :: x in s ==> |x| < |h|
  {
    if s == {} {
      h := [];
    } else {
      var x :| x in s;
      var rest := Longer(s - {x});
      h := rest + x + [0];
      assert forall y :: y in s ==> y == x || y in s - {x};
    }
  }

  /** Stored tokens were issued. */
  predicate InvIssued(w: World) {
    forall h :: h in w.index.tokens ==> h in w.issued
  }

  lemma StepKeepsIssued(w: World, a: Action)
    requires InvIssued(w) && Enabled(w, a)
    ensures InvIssued(Do(w, a))
  {}

  lemma {:induction false} RunKeepsKeys(w: World, actions: seq<Action>, w': World)
    requires InvKeys(w) && InvIssued(w) && Run(w, actions, w')
    ensures InvKeys(w') && InvIssued(w')
    decreases |actions|
  {
    if actions != [] {
      StepKeepsKeys(w, actions[0]);
      StepKeepsIssued(w, actions[0]);
      RunKeepsKeys(Do(w, actions[0]), actions[1..], w');
    }
  }

  /** What every continuation without another reissue of `key` keeps. */
  predicate StaysOnly(w: World, key: Bytes, tx: nat, hash: Bytes, after: seq<Action>, w': World) {
    Run(w, after, w') && !Reissues(after, key) ==> OnlyToken(w', tx, hash)
  }

  /**
   * After a reissue the new token is the only one stored for its transaction, now and until the next reissue,
   * exactly when every token stored for it is on its list and no creation has its first token still to store.
   */
  lemma ReissueExactly(before: seq<Action>, w: World, key: Bytes, hash: Bytes, ttl: real)
    requires Run(Empty(), before, w) && Enabled(w, ReissueKey(key, hash, ttl))
    ensures var tx, start := w.index.external[key], Do(w, ReissueKey(key, hash, ttl));
      (forall after, w' :: StaysOnly(start, key, tx, hash, after, w')) <==> AllListed(w.index, tx) && NoneToCome(w, tx)
  {
    RunKeepsKeys(Empty(), before, w);
    var tx, start := w.index.external[key], Do(w, ReissueKey(key, hash, ttl));
    if !AllListed(w.index, tx) {
      UnlistedStays(w, key, hash, ttl);
    } else if !NoneToCome(w, tx) {
      FirstTokenComes(w, key, hash, ttl);
    } else {
      forall after, w' ensures StaysOnly(start, key, tx, hash, after, w') {
        if Run(start, after, w') && !Reissues(after, key) {
          RunKeepsSealed(start, key, tx, hash, after, w');
        }
      }
    }
  }

  lemma UnlistedStays(w: World, key: Bytes, hash: Bytes, ttl: real)
    requires InvIssued(w) && Enabled(w, ReissueKey(key, hash, ttl)) && !AllListed(w.index, w.index.external[key])
    ensures var tx, start := w.index.external[key], Do(w, ReissueKey(key, hash, ttl));
      exists after, w' :: !StaysOnly(start, key, tx, hash, after, w')
  {
    var tx, start := w.index.external[key], Do(w, ReissueKey(key, hash, ttl));
    var h :| h in w.index.tokens && w.index.tokens[h].tx == tx && h !in ReadActive(w.index, tx);
    assert h in start.index.tokens && h != hash;
    assert !StaysOnly(start, key, tx, hash, [], start);
  }

  lemma FirstTokenComes(w: World, key: Bytes, hash: Bytes, ttl: real)
    requires Enabled(w, ReissueKey(key, hash, ttl)) && !NoneToCome(w, w.index.external[key])
    ensures var tx, start := w.index.external[key], Do(w, ReissueKey(key, hash, ttl));
      exists after, w' :: !StaysOnly(start, key, tx, hash, after, w')
  {
    var tx, start := w.index.external[key], Do(w, ReissueKey(key, hash, ttl));
    var i :| i in w.ops && w.ops[i].KeyTaken? && w.ops[i].tx == tx;
    var first := UnusedDigest(start.issued);
    var put := PutFirstToken(i, first, ttl);
    RunOne(start, put);
    assert first in Do(start, put).index.tokens && first != hash;
    assert !StaysOnly(start, key, tx, hash, [put], Do(start, put));
  }

  lemma RunOne(w: World, a: Action)
    requires Enabled(w, a)
    ensures Run(w, [a], Do(w, a))
  {
    assert [a][1..] == [];
    assert Run(Do(w, a), [], Do(w, a));
  }

  // ---------------------------------------------------------------- orderly histories, and one that is not

  /** The creation of `tx` can still store its first token, or has stored it without listing it yet. */
  predicate FirstTokenAtLarge(w: World, tx: nat) {
    exists i :: i in w.ops && AtLarge(w, w.ops[i], tx)
  }

  predicate AtLarge(w: World, o: Op, tx: nat) {
    Creating(o) && o.tx == tx && (o.KeyTaken? || o.hash in w.index.tokens)
  }

  /** A stored token is on the list, unless its creation left it at large. */
  lemma StoredIsListed(w: World, tx: nat, h: Bytes)
    requires InvTokens(w) && h in w.index.tokens && w.index.tokens[h].tx == tx
    ensures h in ReadActive(w.index, tx) || FirstTokenAtLarge(w, tx)
  {
    if h !in ReadActive(w.index, tx) {
      var i :| i in w.ops && PutsOnList(w.ops[i], tx, h);
      assert AtLarge(w, w.ops[i], tx);
    }
  }

  /** When launches are reissued only after their creation, a reissue revokes all but a first token at large. */
  lemma OrderlyReissueExactly(before: seq<Action>, w: World, key: Bytes, hash: Bytes, ttl: real)
    requires OrderlyRun(Empty(), before, w) && Enabled(w, ReissueKey(key, hash, ttl))
    ensures var tx, start := w.index.external[key], Do(w, ReissueKey(key, hash, ttl));
      (forall after, w' :: StaysOnly(start, key, tx, hash, after, w')) <==> !FirstTokenAtLarge(w, tx)
  {
    var tx := w.index.external[key];
    RunKeepsLaunches(Empty(), before, w);
    OrderlyRunIsRun(Empty(), before, w);
    ReissueExactly(before, w, key, hash, ttl);
    forall h | h in w.index.tokens && w.index.tokens[h].tx == tx
      ensures h in ReadActive(w.index, tx) || FirstTokenAtLarge(w, tx)
    {
      StoredIsListed(w, tx, h);
    }
    forall i | i in w.ops && w.ops[i].KeyTaken? && w.ops[i].tx == tx ensures FirstTokenAtLarge(w, tx) {
      assert AtLarge(w, w.ops[i], tx);
    }
    if FirstTokenAtLarge(w, tx) {
      var i :| i in w.ops && AtLarge(w, w.ops[i], tx);
      assert NothingListed(w, w.ops[i]);
      assert !w.ops[i].KeyTaken? ==> FirstTokenOk(w, tx, w.ops[i].hash);
    }
  }

  lemma {:induction false} OrderlyRunIsRun(w: World, actions: seq<Action>, w': World)
    requires OrderlyRun(w, actions, w')
    ensures Run(w, actions, w')
    decreases |actions|
  {
    if actions != [] {
      OrderlyRunIsRun(Do(w, actions[0]), actions[1..], w');
    }
  }

  lemma {:induction false} RunThen(w0: World, actions: seq<Action>, w: World, a: Action)
    requires Run(w0, actions, w) && Enabled(w, a)
    ensures Run(w0, actions + [a], Do(w, a))
    decreases |actions|
  {
    if actions == [] {
      assert actions + [a] == [a];
      RunOne(w, a);
    } else {
      RunThen(Do(w0, actions[0]), actions[1..], w, a);
      assert (actions + [a])[1..] == actions[1..] + [a];
    }
  }

  ghost predicate Reachable(w: World) {
    exists actions :: Run(Empty(), actions, w)
  }

  lemma Then(w: World, a: Action) returns (w': World)
    requires Reachable(w) && Enabled(w, a)
    ensures w' == Do(w, a) && Reachable(w')
  {
    var actions :| Run(Empty(), actions, w);
    RunThen(Empty(), actions, w, a);
    w' := Do(w, a);
  }

  /**
   * A launch reissued during its creation: the creation overwrites the list without the reissued token, and so the
   * next reissue, long after the creation, leaves that token stored.
   */
  lemma ReissueLosesItsToken(key: Bytes, first: Bytes, second: Bytes, third: Bytes) returns (w: World)
    requires first != second && second != third && first != third
    ensures Reachable(w) && w.ops == map[] && !FirstTokenAtLarge(w, 0) && w.index.external == map[key := 0]
    ensures Enabled(w, ReissueKey(key, third, 1.0)) && second in Do(w, ReissueKey(key, third, 1.0)).index.tokens
    ensures Redeem(Do(w, ReissueKey(key, third, 1.0)).index, second, w.now).1 == Admitted(0, ACTIVE)
  {
    assert Run(Empty(), [], Empty());
    var w1 := Then(Empty(), ClaimKey(1, key));
    var w2 := Then(w1, PutFirstToken(1, first, 1.0));
    var w3 := Then(w2, ReadList(1));
    var w4 := Then(w3, ReissueKey(key, second, 1.0));
    w := Then(w4, WriteList(1));
    assert ReadActive(w.index, 0) == [first];
  }

  /** A launch whose token can be redeemed. */
  lemma LaunchedNow(key: Bytes, token: Bytes) returns (w: World)
    ensures Reachable(w) && w.ops == map[] && w.now == 0.0 && w.issued == {token} && w.index.sessions == map[]
    ensures w.index.tokens == map[token := LaunchToken(0, 1.0)] && w.index.status == map[0 := LAUNCHED]
    ensures w.index.activeSession == map[] && w.orphans == {}
  {
    assert Run(Empty(), [], Empty());
    var w1 := Then(Empty(), ClaimKey(1, key));
    var w2 := Then(w1, PutFirstToken(1, token, 1.0));
    var w3 := Then(w2, ReadList(1));
    w := Then(w3, WriteList(1));
  }

  /** A worker that dies before it points to its record leaves a second active one beside that of the next redemption. */
  lemma OrphanStays(key: Bytes, token: Bytes, lost: Bytes, kept: Bytes) returns (w: World)
    requires token != lost && lost != kept && token != kept
    ensures Reachable(w) && w.orphans == {lost} && w.index.sessions.Keys == {lost, kept}
    ensures forall h :: h in w.index.sessions ==> w.index.sessions[h] == Session(0, ACTIVE, 1.0)
  {
    var launched := LaunchedNow(key, token);
    var w1 := Then(launched, RedeemToken(2, token));
    var w2 := Then(w1, OpeningDies(2, lost, 1.0, RecordStored));
    var w3 := Then(w2, RedeemToken(2, token));
    w := Then(w3, OpenSession(2, kept, 1.0));
  }
}
