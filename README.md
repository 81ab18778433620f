# Nudge clipboard monitor — a Dafny model

Nudge is a macOS menu-bar app that notices when an application that is not
on the user's allowlist changes the clipboard, and shows a brief popup. It
never reads the clipboard's contents. This project models its monitoring
engine and the rules that feed it:

- `types.dfy` (module `Types`): the configuration record and its defaults,
  the lifecycle state `Idle | Monitoring | Paused`, and the event record.
- `rate_limiter.dfy` (module `RateLimiter`): the per-application
  sliding-window alert limiter. It is a class whose map of windows is
  reassigned in place. The class is specified by the pure function
  `Decide`, and the lemmas are stated about `Decide`.
- `clipboard_monitor.dfy` (module `Monitor`): the `ClipboardMonitor` class.
  It covers start, stop, pause, resume, pause-for with its auto-resume
  callback, configuration reload, clearing the history, and the poll tick.
  The tick takes a baseline, attributes the change, checks the allowlist,
  records the event and shows a rate-limited alert. The history is bounded
  and newest-first, and the lifecycle is abstracted as `NextState`.
- `menu_bar.dfy` (module `MenuBar`): the status label, the
  recent-events summary, and the settings setters. These are the Enabled
  and popup toggles, allowlist add and remove, and the clamped popup
  duration and alert cooldown.
- `scenarios.dfy` (module `Scenarios`): the rate limiter's unit tests and
  example runs of the monitor, as methods whose postconditions give the
  expected outcomes.

Platform queries become parameters:

- the pasteboard change count is `currentCount`;
- the frontmost application is `front`, with an optional bundle ID and an
  optional localized name;
- `Date()` is `now`, in seconds as `real`;
- a loaded configuration is `loaded`.

Timers become state:

- the repeating poll timer is the flag `pollArmed`;
- the auto-dismiss timer is the flag `dismissArmed`;
- the deferred auto-resume of `pauseFor` is a count of pending callbacks,
  each run by `AutoResumeFire`.

Event UUIDs are drawn from a counter, `nextEventID`. Every state-changing
method states its whole new state through `View()`, which packs the
monitor's fields into one value.

Four behaviours of the code worth noting:

- `pause()` has no guard. From `Idle` it also goes to `Paused`.
- Allowlisted applications leave no history entry.
- `sessionAlertCount` counts recorded events, not alerts shown.
- `stop()` cancels the auto-dismiss timer but leaves `currentAlert` set.

## Model

| member | source | states |
|---|---|---|
| `Types.DefaultConfig` | Sources/Nudge/Types.swift:16-38 | the defaults enable monitoring and popups, poll at a positive interval, hold a duplicate-free allowlist, at least one alert per app, and a popup duration and a cooldown inside the ranges the settings form clamps to |
| `Types.DefaultConfigValues` | Tests/NudgeTests/TypesTests.swift:8-24 | the default values the unit tests expect: enabled, poll 0.5 s, popups on, popup 3 s, 3 alerts, cooldown 10 s, and the four listed allowlist entries |
| `RateLimiter.Prune` | Sources/Nudge/Types.swift:121-122 | the pruned window keeps every instant later than the cutoff as many times as it occurs and drops every other, is no longer than the original, and equals it when every instant is later |
| `RateLimiter.PruneDistributes` | Sources/Nudge/Types.swift:121-122 | pruning a concatenation prunes each part and concatenates the results, so the kept instants stay in their original order |
| `RateLimiter.Decide` | Sources/Nudge/Types.swift:117-131 | the decision always stores a window for the asked ID, never grants when the maximum is 0 or less, and leaves every other ID's window unchanged |
| `RateLimiter.DecideKeepsOnlyRecent` | Sources/Nudge/Types.swift:118-130 | after a decision the asked window holds only instants later than `now - cooldown`, followed by `now` when granted |
| `RateLimiter.DenialOnlyPrunes` | Sources/Nudge/Types.swift:122-127 | a call is denied exactly when the pruned count is at least the maximum; a denial stores the pruned window and appends nothing |
| `RateLimiter.GrantAppendsNow` | Sources/Nudge/Types.swift:129-130 | a grant stores the pruned window plus `now`, one longer and still within the maximum |
| `RateLimiter.DecidePreservesBound` | Sources/Nudge/Types.swift:117-131 | if every window is within `max(0, maxAlerts)`, it stays so after any decision |
| `RateLimiter.FullWindowDenies` | Sources/Nudge/Types.swift:122-127 | a window holding at least the maximum of unexpired instants denies and stays as it is |
| `RateLimiter.GrantedAgainAfterOldestExpires` | Sources/Nudge/Types.swift:119-130 | once the oldest instant of a window within the limit is no later than `now - cooldown`, the next call is granted |
| `RateLimiter.GrantsWithinOneCooldownBounded` | Sources/Nudge/Types.swift:117-131 | when every instant already held lies inside a cooldown-long interval, the window plus the grants at calls inside it never exceed the maximum; from an empty window, at most `maxAlerts` grants |
| `RateLimiter.CountAtLeastBound` | Sources/Nudge/Types.swift:117-131 | the instants of a window inside an interval are at most all of its instants |
| `RateLimiter.CountAtLeastAppend` | Sources/Nudge/Types.swift:129 | appending a grant instant adds one to the instants inside an interval exactly when it lies inside |
| `RateLimiter.PruneKeepsCountAtLeast` | Sources/Nudge/Types.swift:122 | pruning at a cutoff before the interval keeps every instant inside it |
| `RateLimiter.DecideCountsInInterval` | Sources/Nudge/Types.swift:117-131 | one decision at an instant inside an interval adds one instant inside it on a grant and none on a denial, and a grant stays within the maximum |
| `RateLimiter.GrantsInAnyIntervalBounded` | Sources/Nudge/Types.swift:117-131 | for any cooldown-long interval and any windows, including instants held from before the interval, the held instants inside it plus the grants at calls inside it never exceed `max(0, maxAlerts)`, unless the held ones alone already did |
| `RateLimiter.AtMostMaxGrantsPerCooldown` | Sources/Nudge/Types.swift:117-131 | from windows within the bound, at most `max(0, maxAlerts)` alerts are granted to one application in any cooldown-long interval |
| `RateLimiter.AlertRateLimiter.constructor` | Sources/Nudge/Types.swift:106-113 | a new limiter has no windows and keeps the given limits |
| `RateLimiter.AlertRateLimiter.ShouldAlert` | Sources/Nudge/Types.swift:117-131 | the result and the new windows are those of `Decide`, and the windows stay bounded |
| `RateLimiter.AlertRateLimiter.Update` | Sources/Nudge/Types.swift:134-138 | accepting new limits changes nothing |
| `RateLimiter.AlertRateLimiter.Reset` | Sources/Nudge/Types.swift:141-143 | every window is forgotten |
| `Monitor.DetectedIff` | Sources/Nudge/ClipboardMonitor.swift:134-157 | a tick detects an event exactly when the count changed and the front app's bundle ID exists and is not allowlisted; the event's name is the localized name, else the bundle ID |
| `Monitor.AllowlistedNeverDetected` | Sources/Nudge/ClipboardMonitor.swift:146-149 | an allowlisted bundle ID never yields an event, whatever the count does |
| `Monitor.Recorded` | Sources/Nudge/ClipboardMonitor.swift:169-173 | recording puts the event first and keeps the old history behind it, minus its last entry when it was full; a history within 20 stays within 20 |
| `Monitor.RecordedKeepsNewestFirst` | Sources/Nudge/ClipboardMonitor.swift:169-173 | recording an event newer than all recorded ones keeps the history ordered newest first |
| `Monitor.RecordAllKeepsNewest` | Sources/Nudge/ClipboardMonitor.swift:169-173 | recording events one by one keeps exactly the most recent 20 of all events, newest first |
| `Monitor.HistoryHoldsMostRecent` | Sources/Nudge/ClipboardMonitor.swift:169-173 | from an empty history, N recordings keep the last `min(N, 20)` events in reverse order |
| `Monitor.GuardedTransitions` | Sources/Nudge/ClipboardMonitor.swift:52-113 | stop lands in Idle from anywhere; start while monitoring, resume or auto-resume outside Paused, and an enabled reload keep the state |
| `Monitor.MonitoringOnlyThroughStartOrResume` | Sources/Nudge/ClipboardMonitor.swift:52-113 | from a state other than Monitoring, no run of commands without start, resume, auto-resume or enabling reaches Monitoring |
| `Monitor.ClipboardMonitor.constructor` | Sources/Nudge/ClipboardMonitor.swift:33-41 | a new monitor is idle, has the loaded configuration, baseline and an empty limiter with the configured limits, and no events, alert or timers |
| `Monitor.ClipboardMonitor.AutoStartIfNeeded` | Sources/Nudge/ClipboardMonitor.swift:46-49 | starts only when the configuration is enabled and the monitor is idle; otherwise nothing changes |
| `Monitor.ClipboardMonitor.Start` | Sources/Nudge/ClipboardMonitor.swift:52-57 | a no-op when monitoring; otherwise (also from Paused) monitoring with a fresh baseline and the poll timer armed, nothing else changed |
| `Monitor.ClipboardMonitor.Stop` | Sources/Nudge/ClipboardMonitor.swift:60-66 | from any state, Idle with both timers cleared, nothing else changed |
| `Monitor.ClipboardMonitor.Pause` | Sources/Nudge/ClipboardMonitor.swift:69-73 | from any state, Idle included, Paused with only the poll timer cleared |
| `Monitor.ClipboardMonitor.Resume` | Sources/Nudge/ClipboardMonitor.swift:76-81 | a no-op unless paused; otherwise monitoring with a fresh baseline and the poll timer armed |
| `Monitor.ClipboardMonitor.PauseFor` | Sources/Nudge/ClipboardMonitor.swift:84-90 | pauses and schedules one more auto-resume callback |
| `Monitor.ClipboardMonitor.AutoResumeFire` | Sources/Nudge/ClipboardMonitor.swift:86-89 | the callback is consumed and resumes only if the monitor is still paused; otherwise nothing else changes |
| `Monitor.ClipboardMonitor.ClearHistory` | Sources/Nudge/ClipboardMonitor.swift:93-97 | empties the history, zeroes the session count and the limiter's windows; the state and everything else stay |
| `Monitor.ClipboardMonitor.ReloadConfig` | Sources/Nudge/ClipboardMonitor.swift:100-113 | the configuration is replaced and the limiter rebuilt empty with its limits; monitoring ends Idle when disabled, monitoring again with a fresh baseline when enabled; paused and idle keep their state |
| `Monitor.ClipboardMonitor.CheckClipboard` | Sources/Nudge/ClipboardMonitor.swift:122-165 | a tick happens only while the poll timer is armed, which is exactly while monitoring; an unchanged count changes nothing; an unattributed or allowlisted change only moves the baseline; a detected change always records the event and counts it, and shows it as the alert, re-arming the dismiss timer, exactly when popups are on and the limiter grants; with popups off the limiter is untouched |
| `Monitor.ClipboardMonitor.RecordEvent` | Sources/Nudge/ClipboardMonitor.swift:169-175 | the history becomes `Recorded` of the old one and the session count grows by one |
| `Monitor.ClipboardMonitor.ShowAlert` | Sources/Nudge/ClipboardMonitor.swift:179-192 | the event becomes the current alert and the dismiss timer is armed |
| `Monitor.ClipboardMonitor.DismissAlert` | Sources/Nudge/ClipboardMonitor.swift:195-200 | the current alert and the dismiss timer are cleared, so a second call changes nothing |
| `Monitor.ClipboardMonitor.DismissTimerFire` | Sources/Nudge/ClipboardMonitor.swift:187-189 | the dismiss timer dismisses the alert |
| `MenuBar.StatusTextDistinct` | Sources/Nudge/MenuBarView.swift:69-75 | the status labels of two states are equal exactly when the states are |
| `MenuBar.ShownEvents` | Sources/Nudge/MenuBarView.swift:148 | the listed events are a prefix of the history of length `min(count, 5)` |
| `MenuBar.MoreCount` | Sources/Nudge/MenuBarView.swift:162-163 | the "+N more" line appears exactly when some events are not listed, and then listed plus N is the history's length |
| `MenuBar.SkipWhitespace` | Sources/Nudge/MenuBarView.swift:256 | the scan from an index stops at the first character that is not whitespace, or at the end, and passes over whitespace only |
| `MenuBar.BackOverWhitespace` | Sources/Nudge/MenuBarView.swift:256 | the backward scan from an index stops just after the last character that is not whitespace, or at the start, and passes over whitespace only |
| `MenuBar.TrimLeading` | Sources/Nudge/MenuBarView.swift:256 | the result is a suffix of the text that does not start with whitespace, and all that was dropped is whitespace |
| `MenuBar.TrimTrailing` | Sources/Nudge/MenuBarView.swift:256 | the result is a prefix of the text that does not end with whitespace, and all that was dropped is whitespace |
| `MenuBar.Trim` | Sources/Nudge/MenuBarView.swift:256 | the trimmed entry is the slice of the text that starts at its first non-whitespace character, with only whitespace before and after it; it neither starts nor ends with whitespace, and is empty exactly when the text is all whitespace |
| `MenuBar.TrimIdempotent` | Sources/Nudge/MenuBarView.swift:256 | trimming twice equals trimming once |
| `MenuBar.AllowlistAdd` | Sources/Nudge/MenuBarView.swift:256-259 | the list is unchanged when the trimmed entry is empty or already listed; otherwise the entry is appended at the end and the list grows by exactly one, earlier entries in place |
| `MenuBar.AddMembership` | Sources/Nudge/MenuBarView.swift:256-259 | after adding, an id is listed exactly when it was listed before or is the non-empty trimmed entry |
| `MenuBar.AddKeepsDistinct` | Sources/Nudge/MenuBarView.swift:256-259 | adding keeps a duplicate-free allowlist duplicate-free |
| `MenuBar.AllowlistRemove` | Sources/Nudge/MenuBarView.swift:235 | no occurrence of the ID remains, and every other entry keeps its multiplicity |
| `MenuBar.RemoveKeepsDistinct` | Sources/Nudge/MenuBarView.swift:235 | removing keeps a duplicate-free allowlist duplicate-free |
| `MenuBar.RemoveDistributes` | Sources/Nudge/MenuBarView.swift:235 | removal distributes over concatenation, so the remaining entries keep their relative order |
| `MenuBar.RemoveAbsentUnchanged` | Sources/Nudge/MenuBarView.swift:235 | removing an ID that is not listed leaves the list unchanged |
| `MenuBar.AddThenRemove` | Sources/Nudge/MenuBarView.swift:235-259 | adding an unlisted entry and then removing it restores the list |
| `MenuBar.ClampPopupDuration` | Sources/Nudge/MenuBarView.swift:279 | the stored duration lies in [1, 10], equals the input inside that range and the nearer bound outside it |
| `MenuBar.ClampAlertCooldown` | Sources/Nudge/MenuBarView.swift:296 | the stored cooldown lies in [5, 120], equals the input inside that range and the nearer bound outside it |
| `MenuBar.SetEnabled` | Sources/Nudge/MenuBarView.swift:81-92 | stores the flag, then starts monitoring (a no-op when already monitoring) when on, and stops when off |
| `MenuBar.SetShowPopup` | Sources/Nudge/MenuBarView.swift:208-213 | stores the popup flag and nothing else |
| `MenuBar.AddAllowlistEntry` | Sources/Nudge/MenuBarView.swift:255-262 | the allowlist becomes `AllowlistAdd` of the old one; the text field is emptied only when an entry was added |
| `MenuBar.RemoveAllowlistEntry` | Sources/Nudge/MenuBarView.swift:234-237 | the allowlist becomes `AllowlistRemove` of the old one |
| `MenuBar.SetPopupDuration` | Sources/Nudge/MenuBarView.swift:276-281 | stores the clamped popup duration and nothing else |
| `MenuBar.SetAlertCooldown` | Sources/Nudge/MenuBarView.swift:293-298 | stores the clamped cooldown in the configuration only; the live limiter is untouched |
| `Scenarios.AllowsFirstAlert` | Tests/NudgeTests/TypesTests.swift:40-43 | a fresh limiter grants the first alert |
| `Scenarios.BlocksAfterMax` | Tests/NudgeTests/TypesTests.swift:45-50 | with max 2 and cooldown 60, three calls within a minute give true, true, false |
| `Scenarios.TracksAppsIndependently` | Tests/NudgeTests/TypesTests.swift:52-57 | with max 1, app1 gives true then false, and app2 then gives true |
| `Scenarios.ResetClearsState` | Tests/NudgeTests/TypesTests.swift:59-65 | with max 1, true then false, and after reset true again |
| `Scenarios.ThreeChangesTwoAlerts` | Sources/Nudge/ClipboardMonitor.swift:152-164 | with max 2 per minute, three changes by one app in five seconds record three events; the alert shown stays that of the second change |
| `Scenarios.AllowlistedEditorIsSilent` | Sources/Nudge/ClipboardMonitor.swift:146-149 | changes while an allowlisted app is in front give no event, no count and no alert |
| `Scenarios.PauseForThenManualResume` | Sources/Nudge/ClipboardMonitor.swift:84-90 | after pause-for and a manual resume, the later auto-resume callback changes neither the state nor the baseline |

## Left out

- Loading, saving and locating the configuration file (`load`, `save`, `configURL`, `saveConfig`). These are file-system and JSON I/O. A loaded configuration is a parameter, and saving has no effect on engine state.
- The popup window: construction, placement and fading. The presenter is modelled only as `currentAlert` being set or cleared. The `onDismiss` closure that `showAlert` hands to the presenter is never invoked by `PopupWindowController.show`, so it is not modelled.
- Real time and scheduling (`Timer`, `RunLoop`, `DispatchQueue.asyncAfter`), so the poll interval and the popup duration are stored but never used as delays. Ticks and timer firings are explicit method calls. `Date()` is the `now` parameter.
- `UUID()` and `timeString`. Event ids come from a counter, which also makes "newest first" checkable. Time formatting is a foreign library call.
- The SwiftUI view bodies, layout, the popover, the stepper step sizes, the menu-bar icon, the status colour and the "N alerts" label text.
- The `@Published` change notifications to the view layer.
- Durations are `real`, not IEEE doubles, so NaN and infinities are not modelled.
- ClampPopupDuration: does not model Swift's `min`/`max` behaviour on NaN inputs, because durations are real numbers here.
- ClampAlertCooldown: does not model Swift's `min`/`max` behaviour on NaN inputs, for the same reason.
- String equality: bundle IDs, allowlist entries and the limiter's keys compare as sequences of Unicode scalars, while Swift's `String ==` and dictionary keys use canonical equivalence. A precomposed and a decomposed spelling of the same text are therefore different entries here and equal in Swift. Bundle IDs are ASCII in practice, where the two notions agree.
- `NudgeApp.swift` (the app entry and global instance) and `Package.swift` are wiring, not logic.
