/**
 * The clipboard monitoring engine: a three-state lifecycle (idle,
 * monitoring, paused), the change-count poll tick with its allowlist
 * decision, the bounded newest-first event history and the rate-limited
 * alert.
 *
 * The platform is reduced to parameters: the pasteboard change count is
 * `currentCount`, the frontmost application is `front`, the clock is `now`
 * and a loaded configuration is `loaded`. The repeating poll timer and the
 * one-shot dismiss timer are the flags `pollArmed` and `dismissArmed`; the
 * deferred auto-resume of `PauseFor` is a count of pending callbacks, each
 * run by `AutoResumeFire`.
 */
module Monitor {
  import opened Types
  import opened RateLimiter

  /** Maximum number of recent events kept in memory. */
  const MaxRecentEvents: nat := 20

  /** What the platform reports about the frontmost application. */
  datatype FrontApp = FrontApp(bundleIdentifier: Option<string>, localizedName: Option<string>)

  /** How one poll tick ends. */
  datatype TickOutcome =
    | CountUnchanged
    | Unattributed
    | Allowlisted(bundleID: string)
    | Detected(bundleID: string, appName: string)

  /**
   * The decision of a poll tick: an unchanged count ends it; otherwise a
   * missing front application or bundle ID, or an exact allowlist match,
   * ends it without an event; otherwise an event is detected, named by the
   * localized name or, lacking one, by the bundle ID.
   */
  function Classify(last: int, current: int, front: Option<FrontApp>, allowlist: seq<string>): TickOutcome {
    if current == last then CountUnchanged
    else if front.None? || front.value.bundleIdentifier.None? then Unattributed
    else
      var id := front.value.bundleIdentifier.value;
      if id in allowlist then Allowlisted(id)
      else Detected(id, front.value.localizedName.GetOr(id))
  }

  /** An event is detected exactly for a changed count attributed to a bundle ID outside the allowlist. */
  lemma DetectedIff(last: int, current: int, front: Option<FrontApp>, allowlist: seq<string>)
    ensures Classify(last, current, front, allowlist).Detected? <==>
            current != last && front.Some? && front.value.bundleIdentifier.Some? &&
            front.value.bundleIdentifier.value !in allowlist
    ensures Classify(last, current, front, allowlist).Detected? ==>
            var o := Classify(last, current, front, allowlist);
            o.bundleID == front.value.bundleIdentifier.value &&
            o.appName == (if front.value.localizedName.Some? then front.value.localizedName.value else o.bundleID)
  {
  }

  /** An allowlisted bundle ID never yields an event, whatever the count does. */
  lemma AllowlistedNeverDetected(last: int, current: int, app: FrontApp, allowlist: seq<string>)
    requires app.bundleIdentifier.Some? && app.bundleIdentifier.value in allowlist
    ensures !Classify(last, current, Some(app), allowlist).Detected?
    ensures current != last ==> Classify(last, current, Some(app), allowlist) == Allowlisted(app.bundleIdentifier.value)
  {
  }

  /** The history after inserting `ev` at the front and evicting one entry from the back once over capacity. */
  function Recorded(events: seq<ClipboardEvent>, ev: ClipboardEvent): (r: seq<ClipboardEvent>)
    ensures |events| <= MaxRecentEvents ==> |r| <= MaxRecentEvents
    ensures |r| >= 1 && r[0] == ev
    ensures r[1..] == if |events| < MaxRecentEvents then events else events[..|events| - 1]
  {
    var inserted := [ev] + events;
    if |inserted| > MaxRecentEvents then inserted[..|inserted| - 1] else inserted
  }

  /** Ids strictly decrease along the history: newest first. */
  ghost predicate NewestFirst(events: seq<ClipboardEvent>) {
    forall i, j :: 0 <= i < j < |events| ==> events[i].id > events[j].id
  }

  ghost predicate IdsBelow(events: seq<ClipboardEvent>, n: nat) {
    forall i :: 0 <= i < |events| ==> events[i].id < n
  }

  /** Recording an event newer than every recorded one keeps the history newest-first. */
  lemma RecordedKeepsNewestFirst(events: seq<ClipboardEvent>, ev: ClipboardEvent)
    requires NewestFirst(events) && IdsBelow(events, ev.id)
    ensures NewestFirst(Recorded(events, ev)) && IdsBelow(Recorded(events, ev), ev.id + 1)
  {
    var r := Recorded(events, ev);
    forall i | 0 < i < |r| ensures r[i] == events[i - 1] {
      assert r[i] == r[1..][i - 1];
    }
  }

  /** The history after recording each event of `evs` in turn. */
  function RecordAll(events: seq<ClipboardEvent>, evs: seq<ClipboardEvent>): seq<ClipboardEvent>
    decreases |evs|
  {
    if evs == [] then events else RecordAll(Recorded(events, evs[0]), evs[1..])
  }

  function Reversed<T>(s: seq<T>): (r: seq<T>)
    ensures |r| == |s|
    ensures forall k :: 0 <= k < |s| ==> r[k] == s[|s| - 1 - k]
  {
    if s == [] then [] else Reversed(s[1..]) + [s[0]]
  }

  function Min(a: int, b: int): int {
    if a < b then a else b
  }

  lemma PrefixOfTruncatedTail<T>(a: seq<T>, b: seq<T>, k: nat, m: nat)
    requires k <= |b| && m <= |a| + k
    ensures (a + b[..k])[..m] == (a + b)[..m]
  {
    assert forall i :: 0 <= i < m ==> (a + b[..k])[i] == (a + b)[i];
  }

  /**
   * Recording events one after another keeps exactly the most recent
   * `MaxRecentEvents` of all events, newest first.
   */
  lemma {:induction false} RecordAllKeepsNewest(events: seq<ClipboardEvent>, evs: seq<ClipboardEvent>)
    requires |events| <= MaxRecentEvents
    ensures RecordAll(events, evs) == (Reversed(evs) + events)[..Min(|evs| + |events|, MaxRecentEvents)]
    decreases |evs|
  {
    if evs == [] {
      assert Reversed(evs) + events == events;
    } else {
      var e0, rest := evs[0], evs[1..];
      var k := Min(|events| + 1, MaxRecentEvents);
      var h1 := Recorded(events, e0);
      assert h1 == ([e0] + events)[..k];
      RecordAllKeepsNewest(h1, rest);
      PrefixOfTruncatedTail(Reversed(rest), [e0] + events, k, Min(|rest| + k, MaxRecentEvents));
      assert Reversed(evs) + events == Reversed(rest) + ([e0] + events);
    }
  }

  /** From an empty history, N recordings keep the last min(N, 20) events, newest first. */
  lemma HistoryHoldsMostRecent(evs: seq<ClipboardEvent>)
    ensures RecordAll([], evs) == Reversed(evs)[..Min(|evs|, MaxRecentEvents)]
  {
    RecordAllKeepsNewest([], evs);
    assert Reversed(evs) + [] == Reversed(evs);
  }

  /** Lifecycle commands, each naming an operation that may change the state. */
  datatype Command =
    | Start
    | Stop
    | Pause
    | Resume
    | AutoResume
    | Reload(enabled: bool)
    | SetEnabled(on: bool)

  /** The lifecycle state after one command. */
  function NextState(s: AppState, c: Command): AppState {
    match c
    case Start => Monitoring
    case Stop => Idle
    case Pause => Paused
    case Resume => if s == Paused then Monitoring else s
    case AutoResume => if s == Paused then Monitoring else s
    case Reload(enabled) => if s == Monitoring && !enabled then Idle else s
    case SetEnabled(on) => if on then Monitoring else Idle
  }

  function Run(s: AppState, cs: seq<Command>): AppState
    decreases |cs|
  {
    if cs == [] then s else Run(NextState(s, cs[0]), cs[1..])
  }

  predicate StartsMonitoring(c: Command) {
    c == Start || c == Resume || c == AutoResume || c == SetEnabled(true)
  }

  /** Stop lands in Idle from anywhere; Start from Monitoring and Resume outside Paused are no-ops. */
  lemma GuardedTransitions(s: AppState)
    ensures NextState(s, Stop) == Idle
    ensures s == Monitoring ==> NextState(s, Start) == s
    ensures s != Paused ==> NextState(s, Resume) == s && NextState(s, AutoResume) == s
    ensures NextState(s, Reload(true)) == s
  {
  }

  /**
   * Monitoring is entered only through start, resume, the auto-resume
   * callback or switching monitoring on: any run of other commands from a
   * state that is not monitoring never reaches it.
   */
  lemma {:induction false} MonitoringOnlyThroughStartOrResume(s: AppState, cs: seq<Command>)
    requires s != Monitoring
    requires forall i :: 0 <= i < |cs| ==> !StartsMonitoring(cs[i])
    ensures Run(s, cs) != Monitoring
    decreases |cs|
  {
    if cs != [] {
      assert !StartsMonitoring(cs[0]);
      MonitoringOnlyThroughStartOrResume(NextState(s, cs[0]), cs[1..]);
    }
  }

  /** The monitor's fields other than its rate limiter, as one value. */
  datatype MonitorView = MonitorView(
    state: AppState,
    config: NudgeConfig,
    recentEvents: seq<ClipboardEvent>,
    currentAlert: Option<ClipboardEvent>,
    sessionAlertCount: int,
    pollArmed: bool,
    dismissArmed: bool,
    lastChangeCount: int,
    nextEventID: nat,
    pendingAutoResumes: nat
  )

  class ClipboardMonitor {
    var state: AppState
    var config: NudgeConfig
    var recentEvents: seq<ClipboardEvent>
    var currentAlert: Option<ClipboardEvent>
    var sessionAlertCount: int
    /** The repeating poll timer is scheduled. */
    var pollArmed: bool
    /** The one-shot auto-dismiss timer is scheduled. */
    var dismissArmed: bool
    var lastChangeCount: int
    var rateLimiter: AlertRateLimiter
    /** Source of unique event ids. */
    var nextEventID: nat
    /** Auto-resume callbacks scheduled by PauseFor that have not run yet. */
    var pendingAutoResumes: nat

    ghost function View(): MonitorView
      reads this
    {
      MonitorView(state, config, recentEvents, currentAlert, sessionAlertCount,
                  pollArmed, dismissArmed, lastChangeCount, nextEventID, pendingAutoResumes)
    }

    /**
     * The poll timer runs exactly while monitoring, the history is bounded,
     * newest first with ids below the next one, and every limiter window is
     * bounded.
     */
    ghost predicate Valid()
      reads this, rateLimiter
    {
      && (pollArmed <==> state == Monitoring)
      && |recentEvents| <= MaxRecentEvents
      && NewestFirst(recentEvents)
      && IdsBelow(recentEvents, nextEventID)
      && rateLimiter.Valid()
    }

    constructor (loaded: NudgeConfig, currentCount: int)
      ensures Valid() && fresh(rateLimiter)
      ensures View() == MonitorView(Idle, loaded, [], None, 0, false, false, currentCount, 0, 0)
      ensures rateLimiter.alertHistory == map[]
      ensures rateLimiter.maxAlerts == loaded.maxAlertsPerApp && rateLimiter.cooldown == loaded.alertCooldown
    {
      state := Idle;
      config := loaded;
      recentEvents := [];
      currentAlert := None;
      sessionAlertCount := 0;
      pollArmed := false;
      dismissArmed := false;
      lastChangeCount := currentCount;
      rateLimiter := new AlertRateLimiter(loaded.maxAlertsPerApp, loaded.alertCooldown);
      nextEventID := 0;
      pendingAutoResumes := 0;
    }

    /** Starts monitoring at launch when the configuration enables it and the monitor is idle. */
    method AutoStartIfNeeded(currentCount: int)
      requires Valid()
      modifies this
      ensures Valid() && rateLimiter == old(rateLimiter)
      ensures if old(config.enabled) && old(state) == Idle
              then View() == old(View()).(state := Monitoring, pollArmed := true, lastChangeCount := currentCount)
              else View() == old(View())
    {
      if !(config.enabled && state == Idle) {
        return;
      }
      Start(currentCount);
    }

    /** Starts monitoring from a fresh baseline; a no-op when already monitoring. */
    method Start(currentCount: int)
      requires Valid()
      modifies this
      ensures Valid() && rateLimiter == old(rateLimiter)
      ensures state == NextState(old(state), Command.Start)
      ensures if old(state) == Monitoring
              then View() == old(View())
              else View() == old(View()).(state := Monitoring, pollArmed := true, lastChangeCount := currentCount)
    {
      if state == Monitoring {
        return;
      }
      lastChangeCount := currentCount;
      state := Monitoring;
      pollArmed := true;
    }

    /** Stops monitoring from any state, cancelling the poll and the auto-dismiss timers. */
    method Stop()
      requires Valid()
      modifies this
      ensures Valid() && rateLimiter == old(rateLimiter)
      ensures state == NextState(old(state), Command.Stop)
      ensures View() == old(View()).(state := Idle, pollArmed := false, dismissArmed := false)
    {
      pollArmed := false;
      dismissArmed := false;
      state := Idle;
    }

    /** Pauses from any state, cancelling only the poll timer. */
    method Pause()
      requires Valid()
      modifies this
      ensures Valid() && rateLimiter == old(rateLimiter)
      ensures state == NextState(old(state), Command.Pause)
      ensures View() == old(View()).(state := Paused, pollArmed := false)
    {
      pollArmed := false;
      state := Paused;
    }

    /** Resumes from a fresh baseline; a no-op unless paused. */
    method Resume(currentCount: int)
      requires Valid()
      modifies this
      ensures Valid() && rateLimiter == old(rateLimiter)
      ensures state == NextState(old(state), Command.Resume)
      ensures if old(state) == Paused
              then View() == old(View()).(state := Monitoring, pollArmed := true, lastChangeCount := currentCount)
              else View() == old(View())
    {
      if state != Paused {
        return;
      }
      state := Monitoring;
      lastChangeCount := currentCount;
      pollArmed := true;
    }

    /** Pauses and schedules one auto-resume callback after `seconds`. */
    method PauseFor(seconds: real)
      requires Valid()
      modifies this
      ensures Valid() && rateLimiter == old(rateLimiter)
      ensures View() == old(View()).(state := Paused, pollArmed := false,
                                     pendingAutoResumes := old(pendingAutoResumes) + 1)
    {
      Pause();
      pendingAutoResumes := pendingAutoResumes + 1;
    }

    /** A scheduled auto-resume callback runs: it resumes only if the monitor is still paused. */
    method AutoResumeFire(currentCount: int)
      requires Valid()
      requires pendingAutoResumes > 0
      modifies this
      ensures Valid() && rateLimiter == old(rateLimiter)
      ensures state == NextState(old(state), AutoResume)
      ensures var v := old(View()).(pendingAutoResumes := old(pendingAutoResumes) - 1);
              if old(state) == Paused
              then View() == v.(state := Monitoring, pollArmed := true, lastChangeCount := currentCount)
              else View() == v
    {
      pendingAutoResumes := pendingAutoResumes - 1;
      if state != Paused {
        return;
      }
      Resume(currentCount);
    }

    /** Empties the history, zeroes the session count and forgets every limiter window; the state is untouched. */
    method ClearHistory()
      requires Valid()
      modifies this, rateLimiter
      ensures Valid() && rateLimiter == old(rateLimiter)
      ensures View() == old(View()).(recentEvents := [], sessionAlertCount := 0)
      ensures rateLimiter.alertHistory == map[]
    {
      recentEvents := [];
      sessionAlertCount := 0;
      rateLimiter.Reset();
    }

    /**
     * Replaces the configuration with `loaded` and rebuilds the limiter
     * empty with its limits. A monitoring monitor is stopped first and
     * restarted from a fresh baseline only when `loaded` is enabled; a
     * paused or idle one keeps its state.
     */
    method ReloadConfig(loaded: NudgeConfig, currentCount: int)
      requires Valid()
      modifies this
      ensures Valid() && fresh(rateLimiter)
      ensures rateLimiter.alertHistory == map[]
      ensures rateLimiter.maxAlerts == loaded.maxAlertsPerApp && rateLimiter.cooldown == loaded.alertCooldown
      ensures state == NextState(old(state), Reload(loaded.enabled))
      ensures var was := old(state) == Monitoring;
              var restart := was && loaded.enabled;
              View() == old(View()).(
                config := loaded,
                state := if was && !loaded.enabled then Idle else old(state),
                pollArmed := if was then loaded.enabled else old(pollArmed),
                dismissArmed := if was then false else old(dismissArmed),
                lastChangeCount := if restart then currentCount else old(lastChangeCount))
    {
      var wasMonitoring := state == Monitoring;
      if wasMonitoring {
        Stop();
      }
      config := loaded;
      rateLimiter := new AlertRateLimiter(config.maxAlertsPerApp, config.alertCooldown);
      if wasMonitoring && config.enabled {
        Start(currentCount);
      }
    }

    /**
     * One poll tick. A changed count becomes the new baseline; a change
     * attributed to a bundle ID outside the allowlist is always recorded
     * and counted, and is shown as the current alert, re-arming the
     * auto-dismiss timer, only when popups are on and the limiter grants
     * it. With popups off the limiter is not consulted.
     */
    method CheckClipboard(currentCount: int, front: Option<FrontApp>, now: real)
      requires Valid() && pollArmed
      modifies this, rateLimiter
      ensures Valid() && rateLimiter == old(rateLimiter)
      ensures match Classify(old(lastChangeCount), currentCount, front, old(config.allowlist))
        case CountUnchanged =>
          View() == old(View()) && rateLimiter.alertHistory == old(rateLimiter.alertHistory)
        case Unattributed =>
          View() == old(View()).(lastChangeCount := currentCount) &&
          rateLimiter.alertHistory == old(rateLimiter.alertHistory)
        case Allowlisted(_) =>
          View() == old(View()).(lastChangeCount := currentCount) &&
          rateLimiter.alertHistory == old(rateLimiter.alertHistory)
        case Detected(id, name) =>
          var ev := ClipboardEvent(old(nextEventID), now, id, name, currentCount);
          var d := if old(config.showPopup)
                   then Decide(old(rateLimiter.alertHistory), id, now, rateLimiter.maxAlerts, rateLimiter.cooldown)
                   else Decision(false, old(rateLimiter.alertHistory));
          rateLimiter.alertHistory == d.history &&
          View() == old(View()).(
            lastChangeCount := currentCount,
            recentEvents := Recorded(old(recentEvents), ev),
            sessionAlertCount := old(sessionAlertCount) + 1,
            nextEventID := old(nextEventID) + 1,
            currentAlert := if d.granted then Some(ev) else old(currentAlert),
            dismissArmed := d.granted || old(dismissArmed))
    {
      if currentCount == lastChangeCount {
        return;
      }
      lastChangeCount := currentCount;
      if front.None? || front.value.bundleIdentifier.None? {
        return;
      }
      var bundleID := front.value.bundleIdentifier.value;
      var appName := front.value.localizedName.GetOr(bundleID);
      if bundleID in config.allowlist {
        return;
      }
      var event := ClipboardEvent(nextEventID, now, bundleID, appName, currentCount);
      nextEventID := nextEventID + 1;
      RecordEvent(event);
      if config.showPopup {
        var granted := rateLimiter.ShouldAlert(bundleID, now);
        if granted {
          ShowAlert(event);
        }
      }
    }

    /** Inserts `event` at the front of the history, evicting the oldest when over capacity, and counts it. */
    method RecordEvent(event: ClipboardEvent)
      requires Valid()
      requires event.id < nextEventID && IdsBelow(recentEvents, event.id)
      modifies this
      ensures Valid() && rateLimiter == old(rateLimiter)
      ensures View() == old(View()).(recentEvents := Recorded(old(recentEvents), event),
                                     sessionAlertCount := old(sessionAlertCount) + 1)
    {
      RecordedKeepsNewestFirst(recentEvents, event);
      recentEvents := [event] + recentEvents;
      if |recentEvents| > MaxRecentEvents {
        recentEvents := recentEvents[..|recentEvents| - 1];
      }
      sessionAlertCount := sessionAlertCount + 1;
    }

    /** Makes `event` the current alert, replacing any earlier one and its auto-dismiss timer. */
    method ShowAlert(event: ClipboardEvent)
      requires Valid()
      modifies this
      ensures Valid() && rateLimiter == old(rateLimiter)
      ensures View() == old(View()).(currentAlert := Some(event), dismissArmed := true)
    {
      dismissArmed := false;
      currentAlert := Some(event);
      dismissArmed := true;
    }

    /** Clears the current alert and its auto-dismiss timer; calling it again changes nothing. */
    method DismissAlert()
      requires Valid()
      modifies this
      ensures Valid() && rateLimiter == old(rateLimiter)
      ensures View() == old(View()).(currentAlert := None, dismissArmed := false)
    {
      dismissArmed := false;
      currentAlert := None;
    }

    /** The auto-dismiss timer fires. */
    method DismissTimerFire()
      requires Valid()
      requires dismissArmed
      modifies this
      ensures Valid() && rateLimiter == old(rateLimiter)
      ensures View() == old(View()).(currentAlert := None, dismissArmed := false)
    {
      DismissAlert();
    }
  }
}
