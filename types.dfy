/**
 * Value types of the Nudge clipboard monitor: the configuration record and
 * its defaults, the monitor's lifecycle state and the detected-event record.
 * Durations and instants are seconds, as `real`.
 */
module Types {

  datatype Option<+T> = None | Some(value: T) {
    function GetOr(default: T): T {
      match this
      case Some(v) => v
      case None => default
    }
  }

  /** No entry of `s` occurs twice. */
  predicate NoDup<T(==)>(s: seq<T>) {
    forall i, j :: 0 <= i < j < |s| ==> s[i] != s[j]
  }

  /** User-configurable settings. */
  datatype NudgeConfig = NudgeConfig(
    enabled: bool,
    pollInterval: real,
    allowlist: seq<string>,
    showPopup: bool,
    popupDuration: real,
    maxAlertsPerApp: int,
    alertCooldown: real
  )

  /** The configuration used when no stored one can be loaded. */
  function DefaultConfig(): (c: NudgeConfig)
    ensures c.enabled && c.showPopup
    ensures c.pollInterval > 0.0
    ensures NoDup(c.allowlist)
    // the defaults lie inside the ranges the settings form clamps to
    ensures 1.0 <= c.popupDuration <= 10.0
    ensures 5.0 <= c.alertCooldown <= 120.0
    ensures c.maxAlertsPerApp >= 1
  {
    NudgeConfig(
      enabled := true,
      pollInterval := 0.5,
      allowlist := [
        "com.apple.Terminal",
        "com.googlecode.iterm2",
        "com.microsoft.VSCode",
        "com.apple.Safari",
        "com.google.Chrome",
        "org.mozilla.firefox",
        "com.apple.finder",
        "com.apple.dt.Xcode",
        "com.jetbrains.intellij",
        "com.sublimetext.4",
        "com.hegenberg.BetterTouchTool",
        "com.raycast.macos",
        "com.alfredapp.Alfred"
      ],
      showPopup := true,
      popupDuration := 3.0,
      maxAlertsPerApp := 3,
      alertCooldown := 10.0
    )
  }

  /** The concrete values the unit tests expect of the defaults. */
  lemma DefaultConfigValues()
    ensures DefaultConfig().enabled
    ensures DefaultConfig().pollInterval == 0.5
    ensures DefaultConfig().showPopup
    ensures DefaultConfig().popupDuration == 3.0
    ensures DefaultConfig().maxAlertsPerApp == 3
    ensures DefaultConfig().alertCooldown == 10.0
    ensures "com.apple.Terminal" in DefaultConfig().allowlist
    ensures "com.microsoft.VSCode" in DefaultConfig().allowlist
    ensures "com.apple.Safari" in DefaultConfig().allowlist
    ensures "com.google.Chrome" in DefaultConfig().allowlist
  {
    var c := DefaultConfig();
    assert c.allowlist[0] == "com.apple.Terminal";
    assert c.allowlist[2] == "com.microsoft.VSCode";
    assert c.allowlist[3] == "com.apple.Safari";
    assert c.allowlist[4] == "com.google.Chrome";
  }

  /** Operating state of the monitor. */
  datatype AppState = Idle | Monitoring | Paused

  /**
   * One detected clipboard change by a non-allowlisted application:
   * metadata only, never the clipboard contents. `id` stands for the
   * record's UUID.
   */
  datatype ClipboardEvent = ClipboardEvent(
    id: nat,
    timestamp: real,
    appBundleID: string,
    appName: string,
    changeCount: int
  )
}
