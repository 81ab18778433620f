/**
 * Concrete runs of the limiter and of the monitor: the unit tests of the
 * rate limiter, with the instants of their calls made explicit, and
 * example runs of the monitor.
 */
module Scenarios {
  import opened Types
  import opened RateLimiter
  import opened Monitor

  /** A fresh limiter grants the first alert. */
  method AllowsFirstAlert(now: real) returns (first: bool)
    ensures first
  {
    var limiter := new AlertRateLimiter(3, 10.0);
    first := limiter.ShouldAlert("com.test.app", now);
  }

  /** With two alerts per minute, three calls within a minute are granted, granted, denied. */
  method BlocksAfterMax(t0: real, t1: real, t2: real) returns (a: bool, b: bool, c: bool)
    requires t0 <= t1 <= t2 < t0 + 60.0
    ensures a && b && !c
  {
    var limiter := new AlertRateLimiter(2, 60.0);
    a := limiter.ShouldAlert("com.test.app", t0);
    b := limiter.ShouldAlert("com.test.app", t1);
    c := limiter.ShouldAlert("com.test.app", t2);
  }

  /** A second application is granted while the first is throttled. */
  method TracksAppsIndependently(t0: real, t1: real, t2: real) returns (a: bool, b: bool, c: bool)
    requires t0 <= t1 <= t2 < t0 + 60.0
    ensures a && !b && c
  {
    var limiter := new AlertRateLimiter(1, 60.0);
    a := limiter.ShouldAlert("com.test.app1", t0);
    b := limiter.ShouldAlert("com.test.app1", t1);
    c := limiter.ShouldAlert("com.test.app2", t2);
  }

  /** After a reset a throttled application is granted again. */
  method ResetClearsState(t0: real, t1: real, t2: real) returns (a: bool, b: bool, c: bool)
    requires t0 <= t1 <= t2 < t0 + 60.0
    ensures a && !b && c
  {
    var limiter := new AlertRateLimiter(1, 60.0);
    a := limiter.ShouldAlert("com.test.app", t0);
    b := limiter.ShouldAlert("com.test.app", t1);
    limiter.Reset();
    c := limiter.ShouldAlert("com.test.app", t2);
  }

  function TestConfig(allowlist: seq<string>): NudgeConfig {
    NudgeConfig(true, 0.5, allowlist, true, 3.0, 2, 60.0)
  }

  /**
   * Two alerts per minute: three clipboard changes by one application within
   * five seconds give three recorded events, and the alert shown after each
   * change is that of the first, the second and again the second change.
   * `alertCounts` holds the change count of the current alert after each
   * tick, `None` where no alert is shown.
   */
  method ThreeChangesTwoAlerts(t0: real) returns (events: nat, alertCounts: seq<Option<int>>)
    ensures events == 3
    ensures alertCounts == [Some(1), Some(2), Some(2)]
  {
    var m := new ClipboardMonitor(TestConfig([]), 0);
    m.Start(0);
    var x := Some(FrontApp(Some("X"), None));
    assert Classify(0, 1, x, []) == Detected("X", "X");
    m.CheckClipboard(1, x, t0);
    assert m.rateLimiter.alertHistory["X"] == [t0];
    var first := m.currentAlert;
    assert first.value.changeCount == 1;
    assert |m.recentEvents| == 1;

    assert Classify(1, 2, x, []) == Detected("X", "X");
    assert Prune([t0], t0 + 2.0 - 60.0) == [t0];
    m.CheckClipboard(2, x, t0 + 2.0);
    var second := m.currentAlert;
    assert second.value.changeCount == 2;
    assert |m.recentEvents| == 2;

    assert Classify(2, 3, x, []) == Detected("X", "X");
    assert Prune([t0, t0 + 2.0], t0 + 5.0 - 60.0) == [t0, t0 + 2.0];
    m.CheckClipboard(3, x, t0 + 5.0);
    var third := m.currentAlert;
    events := |m.recentEvents|;
    alertCounts := [ChangeCountOf(first), ChangeCountOf(second), ChangeCountOf(third)];
  }

  /** The change count of the alert shown, if any. */
  function ChangeCountOf(alert: Option<ClipboardEvent>): Option<int> {
    match alert
    case Some(e) => Some(e.changeCount)
    case None => None
  }

  /** Changes made while an allowlisted editor is in front yield no event and no alert. */
  method AllowlistedEditorIsSilent(t0: real) returns (events: nat, count: int, alert: Option<ClipboardEvent>)
    ensures events == 0 && count == 0 && alert == None
  {
    var m := new ClipboardMonitor(TestConfig(["com.editor"]), 0);
    m.Start(0);
    var editor := Some(FrontApp(Some("com.editor"), Some("Editor")));
    m.CheckClipboard(1, editor, t0);
    m.CheckClipboard(2, editor, t0 + 1.0);
    events := |m.recentEvents|;
    count := m.sessionAlertCount;
    alert := m.currentAlert;
  }

  /**
   * Pausing for ten minutes and resuming by hand: the monitor is monitoring
   * again, and the later auto-resume callback changes neither the state nor
   * the baseline.
   */
  method PauseForThenManualResume() returns (state: AppState, baseline: int)
    ensures state == Monitoring && baseline == 7
  {
    var m := new ClipboardMonitor(DefaultConfig(), 0);
    m.AutoStartIfNeeded(0);
    m.PauseFor(600.0);
    m.Resume(7);
    m.AutoResumeFire(9);
    state := m.state;
    baseline := m.lastChangeCount;
  }
}
