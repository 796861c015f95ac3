/**
 * The connectivity gate of `useConnectivity.ts`: epoch, single-flight and pending recheck. An event runs to
 * completion before the next one; a check that reaches the backend suspends and resumes as `ProbeReturns`.
 */
module Connectivity {

  datatype Status = CHECKING | READY | OFFLINE | BACKEND_UNREACHABLE | BROWSER_UPDATE_REQUIRED | UNSUPPORTED

  datatype PolicyState = SUPPORTED | VERSION_TOO_OLD | UNSUPPORTED_BROWSER | VERSION_UNKNOWN | POLICY_UNAVAILABLE

  datatype ProbeResult = Unreachable | Reachable(policy: PolicyState)

  /** What the browser tells at the moment of an event. */
  datatype Browser = Browser(capable: bool, online: bool)

  /** A probe in flight: the epoch it captured, and the event that started it. */
  datatype Probe = Probe(epoch: nat, startedAt: nat)

  datatype Event =
    | CheckRequested(browser: Browser)
    | WentOffline
    | WentOnline(browser: Browser)
    | ProbeReturns(i: nat, result: ProbeResult, browser: Browser)

  /**
   * The refs and states of the hook, and the suspended probes. `clock` counts events; `offlineAt`, `onlineAt`,
   * `checkAt` and `readyFrom` date the last OFFLINE and ONLINE event, the start of the last check, and the
   * start of the probe that last reported a supported browser.
   */
  datatype Gate = Gate(
    status: Status, readyOnce: bool, epoch: nat, inFlight: bool, pendingRecheck: bool, probes: seq<Probe>,
    clock: nat, offlineAt: nat, onlineAt: nat, checkAt: nat, readyFrom: nat)

  function Rank(g: Gate): nat {
    if g.pendingRecheck then 1 else 0
  }

  /** `runCheck` up to its `await`, or to its end when it does not probe. */
  function Start(g: Gate, browser: Browser): (r: Gate)
    ensures r.clock == g.clock && r.offlineAt == g.offlineAt && r.onlineAt == g.onlineAt && r.readyFrom == g.readyFrom
    ensures !g.inFlight ==> r.checkAt == g.clock && r.status != READY && r.epoch > g.epoch
    ensures !g.inFlight && !g.pendingRecheck ==>
      !r.pendingRecheck && r.probes == g.probes + if r.inFlight then [Probe(r.epoch, g.clock)] else []
    decreases Rank(g), 1
  {
    if g.inFlight then g
    else
      var begun := g.(epoch := g.epoch + 1, inFlight := true, status := CHECKING, checkAt := g.clock);
      if !browser.capable then Release(begun.(status := UNSUPPORTED), browser)
      else if !browser.online then Release(begun.(status := OFFLINE), browser)
      else begun.(probes := begun.probes + [Probe(begun.epoch, g.clock)])
  }

  /** The `finally` block. */
  function Release(g: Gate, browser: Browser): (r: Gate)
    ensures r.clock == g.clock && r.offlineAt == g.offlineAt && r.onlineAt == g.onlineAt && r.readyFrom == g.readyFrom
    ensures g.pendingRecheck ==> r.checkAt == g.clock && r.status != READY && r.epoch > g.epoch && !r.pendingRecheck
    decreases Rank(g), 0
  {
    var free := g.(inFlight := false);
    if free.pendingRecheck then Start(free.(pendingRecheck := false), browser) else free
  }

  /** The result of a probe that is still current. */
  function Apply(g: Gate, probe: Probe, result: ProbeResult): Gate {
    match result
    case Unreachable => g.(status := BACKEND_UNREACHABLE)
    case Reachable(SUPPORTED) => g.(readyOnce := true, status := READY, readyFrom := probe.startedAt)
    case Reachable(UNSUPPORTED_BROWSER) => g.(status := UNSUPPORTED)
    case Reachable(_) => g.(status := BROWSER_UPDATE_REQUIRED)
  }

  /** The rest of a check, up to its `finally`. */
  function Resume(g: Gate, i: nat, result: ProbeResult): Gate
    requires i < |g.probes|
  {
    var probe, rest := g.probes[i], g.(probes := g.probes[..i] + g.probes[i + 1..]);
    if probe.epoch == g.epoch then Apply(rest, probe, result) else rest
  }

  predicate Enabled(g: Gate, e: Event) {
    e.ProbeReturns? ==> e.i < |g.probes|
  }

  function Handle(before: Gate, e: Event): Gate
    requires Enabled(before, e)
  {
    var g := before.(clock := before.clock + 1);
    match e
    case CheckRequested(browser) => Start(g, browser)
    case WentOffline => g.(epoch := g.epoch + 1, pendingRecheck := false, status := OFFLINE, offlineAt := g.clock)
    case WentOnline(browser) =>
      var heard := g.(onlineAt := g.clock);
      if heard.inFlight then heard.(pendingRecheck := true) else Start(heard, browser)
    case ProbeReturns(i, result, browser) => Release(Resume(g, i, result), browser)
  }

  /** The hook as first rendered, and the check its effect runs. */
  function Rendered(): Gate {
    Gate(CHECKING, false, 0, false, false, [], 0, 0, 0, 0, 0)
  }

  function Mounted(browser: Browser): Gate {
    Handle(Rendered(), CheckRequested(browser))
  }

  predicate Run(g: Gate, events: seq<Event>, g': Gate)
    decreases |events|
  {
    if events == [] then g' == g
    else Enabled(g, events[0]) && Run(Handle(g, events[0]), events[1..], g')
  }

  // ---------------------------------------------------------------- invariant

  predicate SingleFlight(g: Gate) {
    && |g.probes| <= 1
    && (g.inFlight <==> |g.probes| == 1)
    && (g.pendingRecheck ==> g.inFlight)
  }

  /** A probe has the current epoch exactly when it began after the last OFFLINE event. */
  predicate EpochsDateProbes(g: Gate) {
    g.probes != [] ==>
      && g.probes[0].epoch <= g.epoch && g.probes[0].startedAt == g.checkAt
      && (g.probes[0].epoch == g.epoch <==> g.offlineAt < g.probes[0].startedAt)
  }

  /** Shown as ready only on behalf of a probe begun after the last OFFLINE and not before the last ONLINE event. */
  predicate ReadyIsFresh(g: Gate) {
    g.status == READY ==> g.offlineAt < g.readyFrom && g.onlineAt <= g.readyFrom && !g.inFlight
  }

  /** An ONLINE event with no OFFLINE event after it has been answered by a check, or one is queued. */
  predicate OnlineIsAnswered(g: Gate) {
    g.offlineAt < g.onlineAt ==> g.onlineAt <= g.checkAt || g.pendingRecheck
  }

  predicate CheckingIsLive(g: Gate) {
    g.status == CHECKING ==> g.probes != [] && g.probes[0].epoch == g.epoch
  }

  predicate Inv(g: Gate) {
    && SingleFlight(g) && EpochsDateProbes(g) && ReadyIsFresh(g) && OnlineIsAnswered(g) && CheckingIsLive(g)
    && g.offlineAt <= g.clock && g.onlineAt <= g.clock && g.checkAt <= g.clock
    && (g.pendingRecheck ==> g.offlineAt < g.onlineAt)
    && (g.inFlight && !g.pendingRecheck && g.probes[0].epoch == g.epoch ==> g.onlineAt <= g.probes[0].startedAt)
  }

  /** A free slot with nothing queued: a new check starts and leaves the gate consistent. */
  lemma StartKeeps(g: Gate, browser: Browser)
    requires !g.inFlight && !g.pendingRecheck && g.probes == []
    requires g.offlineAt < g.clock && g.onlineAt <= g.clock
    ensures Inv(Start(g, browser)) && Start(g, browser).checkAt == g.clock
    ensures Start(g, browser).status != READY
  {}

  lemma ReturnKeeps(g: Gate, i: nat, result: ProbeResult, browser: Browser)
    requires Inv(g) && i < |g.probes|
    ensures Inv(Handle(g, ProbeReturns(i, result, browser)))
  {
    var resumed := Resume(g.(clock := g.clock + 1), i, result);
    ResumeIs(g, resumed, i, result);
    ReleaseKeeps(g, resumed, browser);
    assert Handle(g, ProbeReturns(i, result, browser)) == Release(resumed, browser);
  }

  /** What the rest of a check changes: its probe is gone, and a current one has set the status. */
  predicate ResumedFrom(g: Gate, r: Gate) {
    && g.probes != [] && r.probes == [] && r.clock == g.clock + 1 && r.pendingRecheck == g.pendingRecheck
    && r.offlineAt == g.offlineAt && r.onlineAt == g.onlineAt && r.checkAt == g.checkAt
    && if g.probes[0].epoch == g.epoch
       then r.status != CHECKING && (r.status == READY ==> r.readyFrom == g.probes[0].startedAt)
       else r.status == g.status
  }

  lemma ResumeIs(g: Gate, r: Gate, i: nat, result: ProbeResult)
    requires SingleFlight(g) && i < |g.probes| && r == Resume(g.(clock := g.clock + 1), i, result)
    ensures ResumedFrom(g, r)
  {
    assert g.probes[..i] + g.probes[i + 1..] == [];
  }

  lemma ReleaseKeeps(g: Gate, resumed: Gate, browser: Browser)
    requires Inv(g) && ResumedFrom(g, resumed)
    ensures Inv(Release(resumed, browser))
  {
    if g.pendingRecheck {
      StartKeeps(resumed.(inFlight := false, pendingRecheck := false), browser);
    }
  }

  lemma HandleKeeps(g: Gate, e: Event)
    requires Inv(g) && Enabled(g, e)
    ensures Inv(Handle(g, e))
  {
    var ticked := g.(clock := g.clock + 1);
    match e
    case ProbeReturns(i, result, browser) => ReturnKeeps(g, i, result, browser);
    case CheckRequested(browser) =>
      if !g.inFlight {
        StartKeeps(ticked, browser);
      }
    case WentOffline =>
    case WentOnline(browser) =>
      if !g.inFlight {
        StartKeeps(ticked.(onlineAt := ticked.clock), browser);
      }
  }

  lemma OnlinePromises(g: Gate, r: Gate, browser: Browser)
    requires Inv(g) && r == Handle(g, WentOnline(browser))
    ensures Inv(r) && |r.probes| <= 1 && r.status != READY
    ensures r.checkAt == r.clock || (r.pendingRecheck && r.inFlight)
  {
    HandleKeeps(g, WentOnline(browser));
  }

  lemma {:induction false} RunKeeps(g: Gate, events: seq<Event>, g': Gate)
    requires Inv(g) && Run(g, events, g')
    ensures Inv(g')
    decreases |events|
  {
    if events != [] {
      HandleKeeps(g, events[0]);
      RunKeeps(Handle(g, events[0]), events[1..], g');
    }
  }

  // ---------------------------------------------------------------- what the dates mean

  /** `at` is the position, counted from `base`, of the last of `events` of this kind, or `before` if there is none. */
  predicate DatesLast(events: seq<Event>, kind: Event -> bool, base: nat, before: nat, at: nat) {
    && (forall k :: 0 <= k < |events| && kind(events[k]) ==> base + k + 1 <= at)
    && (at == before || (base < at <= base + |events| && kind(events[at - base - 1])))
  }

  lemma HandleDates(g: Gate, e: Event)
    requires Enabled(g, e)
    ensures Handle(g, e).clock == g.clock + 1
    ensures Handle(g, e).offlineAt == (if e.WentOffline? then g.clock + 1 else g.offlineAt)
    ensures Handle(g, e).onlineAt == (if e.WentOnline? then g.clock + 1 else g.onlineAt)
  {}

  lemma {:induction false} RunDates(g: Gate, events: seq<Event>, g': Gate)
    requires Run(g, events, g') && g.offlineAt <= g.clock && g.onlineAt <= g.clock
    ensures g'.clock == g.clock + |events|
    ensures DatesLast(events, (e: Event) => e.WentOffline?, g.clock, g.offlineAt, g'.offlineAt)
    ensures DatesLast(events, (e: Event) => e.WentOnline?, g.clock, g.onlineAt, g'.onlineAt)
    decreases |events|
  {
    if events != [] {
      HandleDates(g, events[0]);
      RunDates(Handle(g, events[0]), events[1..], g');
      assert forall k :: 1 <= k < |events| ==> events[k] == events[1..][k - 1];
    }
  }

  /** Every promise of the hook, after any events in any order. */
  lemma GatePromises(browser: Browser, events: seq<Event>, g: Gate)
    requires Run(Mounted(browser), events, g)
    ensures DatesLast(events, (e: Event) => e.WentOffline?, 1, 0, g.offlineAt)
    ensures DatesLast(events, (e: Event) => e.WentOnline?, 1, 0, g.onlineAt)
    ensures SingleFlight(g) && ReadyIsFresh(g) && OnlineIsAnswered(g) && CheckingIsLive(g)
  {
    StartKeeps(Rendered().(clock := 1), browser);
    RunKeeps(Mounted(browser), events, g);
    RunDates(Mounted(browser), events, g);
  }

  /** Only a supported verdict, of a probe no OFFLINE event has superseded, turns the gate ready. */
  lemma ReadyOnlyBySupported(g: Gate, e: Event)
    requires Inv(g) && Enabled(g, e) && g.status != READY && Handle(g, e).status == READY
    ensures e.ProbeReturns? && e.result == Reachable(SUPPORTED) && !g.pendingRecheck
    ensures g.probes[e.i].epoch == g.epoch && g.offlineAt < g.probes[e.i].startedAt == Handle(g, e).readyFrom
  {
    assert e.ProbeReturns? ==> g.probes[..e.i] + g.probes[e.i + 1..] == [];
  }

  /** A queued recheck starts in the very event that ends the probe it waited for. */
  lemma QueuedCheckRuns(g: Gate, result: ProbeResult, browser: Browser)
    requires Inv(g) && g.pendingRecheck
    ensures var g' := Handle(g, ProbeReturns(0, result, browser));
      g'.checkAt == g.clock + 1 && !g'.pendingRecheck && g'.status != READY
  {
    assert g.probes[..0] + g.probes[1..] == [];
  }

  /** "Check again" is answered by a check that can still report, except while a superseded probe is in flight. */
  lemma RetryIsAnsweredUnlessSuperseded(g: Gate, browser: Browser)
    requires Inv(g)
    ensures var g' := Handle(g, CheckRequested(browser));
      (g'.offlineAt < g'.checkAt) <==> !(g.inFlight && g.probes[0].epoch != g.epoch)
  {
    if !g.inFlight {
      StartKeeps(g.(clock := g.clock + 1), browser);
    }
  }

  /** The answer of a probe makes the gate ready exactly when it is supported, current and not to be repeated. */
  lemma ReadyExactly(g: Gate, i: nat, result: ProbeResult, browser: Browser)
    requires Inv(g) && i < |g.probes|
    ensures Handle(g, ProbeReturns(i, result, browser)).status == READY <==>
      result == Reachable(SUPPORTED) && g.offlineAt < g.probes[i].startedAt && !g.pendingRecheck
    ensures g.pendingRecheck ==>
      Handle(g, ProbeReturns(i, result, browser)).checkAt == g.clock + 1 && !Handle(g, ProbeReturns(i, result, browser)).pendingRecheck
  {
    assert g.probes[..i] + g.probes[i + 1..] == [];
  }

  /** What the gate shows for the answer of a probe that nothing has superseded. */
  predicate Shows(result: ProbeResult, status: Status) {
    && (status == BACKEND_UNREACHABLE <==> result == Unreachable)
    && (status == READY <==> result == Reachable(SUPPORTED))
    && (status == UNSUPPORTED <==> result == Reachable(UNSUPPORTED_BROWSER))
    && (status == BROWSER_UPDATE_REQUIRED <==>
        result in {Reachable(VERSION_TOO_OLD), Reachable(VERSION_UNKNOWN), Reachable(POLICY_UNAVAILABLE)})
  }

  /** A check has begun: it suspends on a probe, unless the browser itself already rules the page out. */
  predicate Checks(r: Gate, browser: Browser) {
    && (r.status == CHECKING <==> browser.capable && browser.online) && (r.inFlight <==> browser.capable && browser.online)
    && (r.status == UNSUPPORTED <==> !browser.capable) && (r.status == OFFLINE <==> browser.capable && !browser.online)
  }

  lemma StartChecks(g: Gate, browser: Browser)
    requires !g.inFlight && !g.pendingRecheck
    ensures Checks(Start(g, browser), browser) && Start(g, browser).readyOnce == g.readyOnce
  {
    assert Release(g.(inFlight := true), browser) == g;
  }

  /**
   * What the answer of a probe does: with a recheck queued that check begins; otherwise a current answer is shown and a
   * superseded one is dropped. Only a current supported answer makes the page one that has been ready.
   */
  lemma AnswerTable(g: Gate, i: nat, result: ProbeResult, browser: Browser)
    requires Inv(g) && i < |g.probes|
    ensures var r, current := Handle(g, ProbeReturns(i, result, browser)), g.offlineAt < g.probes[i].startedAt;
      && (if g.pendingRecheck then Checks(r, browser)
          else if current then Shows(result, r.status) && !r.inFlight
          else r.status == g.status && !r.inFlight)
      && (r.readyOnce <==> g.readyOnce || (current && result == Reachable(SUPPORTED)))
  {
    assert g.probes[..i] + g.probes[i + 1..] == [];
    var resumed := Resume(g.(clock := g.clock + 1), i, result);
    if g.pendingRecheck {
      StartChecks(resumed.(inFlight := false, pendingRecheck := false), browser);
    }
  }

  /** What the other events do. */
  lemma EventTable(g: Gate, browser: Browser)
    requires Inv(g)
    ensures Handle(g, WentOffline).status == OFFLINE
    ensures g.inFlight ==>
      && Handle(g, CheckRequested(browser)) == g.(clock := g.clock + 1)
      && Handle(g, WentOnline(browser)) == g.(clock := g.clock + 1, onlineAt := g.clock + 1, pendingRecheck := true)
    ensures !g.inFlight ==> Checks(Handle(g, CheckRequested(browser)), browser) && Checks(Handle(g, WentOnline(browser)), browser)
    ensures forall e :: e in {CheckRequested(browser), WentOffline, WentOnline(browser)} ==> Handle(g, e).readyOnce == g.readyOnce
  {
    if !g.inFlight {
      StartChecks(g.(clock := g.clock + 1), browser);
      StartChecks(g.(clock := g.clock + 1, onlineAt := g.clock + 1), browser);
    }
  }

  lemma AnswerPromises(g: Gate, r: Gate, i: nat, result: ProbeResult, browser: Browser)
    requires Inv(g) && i < |g.probes| && r == Handle(g, ProbeReturns(i, result, browser))
    ensures Inv(r)
    ensures r.status == READY <==> result == Reachable(SUPPORTED) && g.offlineAt < g.probes[i].startedAt && !g.pendingRecheck
    ensures g.pendingRecheck ==> r.checkAt == r.clock && !r.pendingRecheck
  {
    ReturnKeeps(g, i, result, browser);
    ReadyExactly(g, i, result, browser);
  }

  // ---------------------------------------------------------------- the hook, event by event

  class ConnectivityHook {
    var status: Status
    var readyOnce: bool
    var epochRef: nat
    var inFlightRef: bool
    var pendingRecheckRef: bool
    // The probes awaiting their answer, and the dates the statements above speak of.
    var suspended: seq<Probe>
    var clock: nat
    var offlineAt: nat
    var onlineAt: nat
    var checkAt: nat
    var readyFrom: nat

    ghost function View(): Gate
      reads this
    {
      Gate(status, readyOnce, epochRef, inFlightRef, pendingRecheckRef, suspended, clock, offlineAt, onlineAt, checkAt, readyFrom)
    }

    constructor ()
      ensures View() == Rendered()
    {
      status, readyOnce, epochRef, inFlightRef, pendingRecheckRef := CHECKING, false, 0, false, false;
      suspended, clock, offlineAt, onlineAt, checkAt, readyFrom := [], 0, 0, 0, 0, 0;
    }

    /** Dropped while the slot is taken; otherwise at most one probe starts, in an epoch of its own, and nothing is ready. */
    method RunCheck(browser: Browser)
      modifies this
      ensures View() == Start(old(View()), browser)
      ensures old(inFlightRef) ==> View() == old(View())
      ensures !old(inFlightRef) ==> status != READY && checkAt == clock && epochRef > old(epochRef)
      ensures !old(inFlightRef) && !old(pendingRecheckRef) ==>
        suspended == old(suspended) + if inFlightRef then [Probe(epochRef, clock)] else []
      decreases Rank(View()), 1
    {
      if inFlightRef {
        return;
      }
      epochRef := epochRef + 1;
      var epoch := epochRef;
      inFlightRef := true;
      status := CHECKING;
      checkAt := clock;
      if !browser.capable {
        if epoch == epochRef {
          status := UNSUPPORTED;
        }
        ReleaseSlot(browser);
        return;
      }
      if !browser.online {
        if epoch == epochRef {
          status := OFFLINE;
        }
        ReleaseSlot(browser);
        return;
      }
      suspended := suspended + [Probe(epoch, clock)];
    }

    method ReleaseSlot(browser: Browser)
      modifies this
      ensures View() == Release(old(View()), browser)
      ensures old(pendingRecheckRef) ==> epochRef > old(epochRef)
      ensures !old(pendingRecheckRef) ==> epochRef == old(epochRef) && suspended == old(suspended) && !inFlightRef
      decreases Rank(View()), 0
    {
      inFlightRef := false;
      if pendingRecheckRef {
        pendingRecheckRef := false;
        RunCheck(browser);
      }
    }

    /** Mount effect, repeated effect or "Check again": never a second probe, never ready by itself. */
    method Retry(browser: Browser)
      requires Inv(View())
      modifies this
      ensures View() == Handle(old(View()), CheckRequested(browser))
      ensures Inv(View()) && |suspended| <= 1 && status != READY
    {
      HandleKeeps(View(), CheckRequested(browser));
      clock := clock + 1;
      RunCheck(browser);
    }

    /** No probe in flight can be applied any more, and no recheck is left waiting for it. */
    method HandleOffline()
      requires Inv(View())
      modifies this
      ensures View() == Handle(old(View()), WentOffline)
      ensures Inv(View()) && status == OFFLINE && !pendingRecheckRef
      ensures forall p :: p in suspended ==> p.epoch != epochRef
    {
      HandleKeeps(View(), WentOffline);
      clock := clock + 1;
      epochRef := epochRef + 1;
      pendingRecheckRef := false;
      status := OFFLINE;
      offlineAt := clock;
    }

    /** Never ready by itself: a check starts now, or waits for the probe in flight, and there is still one at most. */
    method HandleOnline(browser: Browser)
      requires Inv(View())
      modifies this
      ensures View() == Handle(old(View()), WentOnline(browser))
      ensures Inv(View()) && |suspended| <= 1 && status != READY
      ensures checkAt == clock || (pendingRecheckRef && inFlightRef)
    {
      ghost var before := View();
      HearOnline(browser);
      OnlinePromises(before, View(), browser);
    }

    method HearOnline(browser: Browser)
      modifies this
      ensures View() == Handle(old(View()), WentOnline(browser))
    {
      clock := clock + 1;
      onlineAt := clock;
      if inFlightRef {
        pendingRecheckRef := true;
        return;
      }
      RunCheck(browser);
    }

    /** What the probe reports, unless an OFFLINE event has moved the epoch on. */
    method TakeAnswer(i: nat, result: ProbeResult)
      requires i < |suspended|
      modifies this
      ensures View() == Resume(old(View()), i, result)
    {
      var probe := suspended[i];
      suspended := suspended[..i] + suspended[i + 1..];
      if probe.epoch == epochRef {
        match result {
          case Unreachable => status := BACKEND_UNREACHABLE;
          case Reachable(SUPPORTED) =>
            readyOnce := true;
            status := READY;
            readyFrom := probe.startedAt;
          case Reachable(UNSUPPORTED_BROWSER) => status := UNSUPPORTED;
          case Reachable(_) => status := BROWSER_UPDATE_REQUIRED;
        }
      }
    }

    /**
     * The rest of a suspended check, once its probe has an answer: ready exactly for a supported one that nothing has
     * superseded and nobody asked to repeat; a queued recheck starts at once.
     */
    method ResumeCheck(i: nat, result: ProbeResult, browser: Browser)
      requires Inv(View()) && i < |suspended|
      modifies this
      ensures View() == Handle(old(View()), ProbeReturns(i, result, browser))
      ensures Inv(View())
      ensures status == READY <==>
        result == Reachable(SUPPORTED) && old(offlineAt) < old(suspended)[i].startedAt && !old(pendingRecheckRef)
      ensures old(pendingRecheckRef) ==> checkAt == clock && !pendingRecheckRef
    {
      ghost var before := View();
      FinishCheck(i, result, browser);
      AnswerPromises(before, View(), i, result, browser);
    }

    method FinishCheck(i: nat, result: ProbeResult, browser: Browser)
      requires i < |suspended|
      modifies this
      ensures View() == Handle(old(View()), ProbeReturns(i, result, browser))
    {
      clock := clock + 1;
      assert View() == old(View()).(clock := clock);
      TakeAnswer(i, result);
      ReleaseSlot(browser);
    }
  }
}
