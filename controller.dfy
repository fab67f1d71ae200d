/**
 * The NetworkDownloadManager's behaviour as functions on a value of its five
 * fields. Each method of the class in manager.dfy is proved to change its
 * fields exactly as the function of the same name here says, and the lemmas
 * below state what those changes guarantee.
 */
module Controller {
  import opened Wrappers
  import opened Classifier
  import opened Bookkeeping

  /** The manager's fields, as one value. */
  datatype State = State(
    isMonitoring: bool,
    currentNetworkType: NetworkType,
    pausedDownloads: set<DownloadId>,
    speedThreshold: real,
    isEnabled: bool)

  /** The threshold in Mbps used until settings say otherwise. */
  const DefaultThreshold: real := 0.7

  /** The fields as the constructor sets them, before the settings are loaded. */
  const Initial: State := State(false, Unknown, {}, DefaultThreshold, true)

  /** Monitoring only runs while the extension is enabled. */
  predicate Consistent(s: State) {
    s.isMonitoring ==> s.isEnabled
  }

  // ----- Settings loaded at start-up -----

  /** The two keys as chrome.storage.local returns them; None for a key never stored. */
  datatype StoredSettings = StoredSettings(isEnabled: Option<bool>, speedThreshold: Option<real>)

  /** `isEnabled !== false`: only an explicitly stored false disables the extension. */
  function EnabledSetting(stored: Option<bool>): (enabled: bool)
    ensures !enabled <==> stored == Some(false)
  {
    match stored
    case Some(b) => b
    case None => true
  }

  /** `speedThreshold || 0.7`: a missing or zero threshold falls back to the default. */
  function ThresholdSetting(stored: Option<real>): (threshold: real)
    ensures threshold != 0.0
    ensures stored.Some? && stored.value != 0.0 ==> threshold == stored.value
    ensures stored.None? ==> threshold == DefaultThreshold
  {
    match stored
    case Some(v) => if v != 0.0 then v else DefaultThreshold
    case None => DefaultThreshold
  }

  /**
   * Storing a value and loading it back: the flag always survives, the
   * threshold survives unless it is 0, which comes back as 0.7.
   */
  lemma SettingsRoundTrip(enabled: bool, threshold: real)
    ensures EnabledSetting(Some(enabled)) == enabled
    ensures ThresholdSetting(Some(threshold)) == threshold <==> threshold != 0.0
    ensures threshold == 0.0 ==> ThresholdSetting(Some(threshold)) == DefaultThreshold
  {
  }

  /** On a fresh install, loading settings gives the constructor's defaults. */
  lemma FreshInstallKeepsDefaults()
    ensures EnabledSetting(None) == Initial.isEnabled
    ensures ThresholdSetting(None) == Initial.speedThreshold
  {
  }

  // ----- Pausing and resuming -----

  /**
   * pauseAllDownloads: the set gains the ids whose pause succeeded and the
   * count of successful pause calls is returned; a failed search changes
   * nothing and returns 0.
   */
  function PauseAll(s: State, api: DownloadsApi): (State, nat) {
    match api.inProgress
    case None => (s, 0)
    case Some(downloads) =>
      (s.(pausedDownloads := s.pausedDownloads + PausedIds(downloads)), PauseCount(downloads))
  }

  /**
   * resumePausedDownloads: every tracked id is dropped whether its resume
   * succeeds or not, and the number of successful resumes is returned.
   */
  function ResumeAll(s: State, api: DownloadsApi): (State, nat) {
    (s.(pausedDownloads := {}), |ResumedIds(s.pausedDownloads, api.resumeOk)|)
  }

  /** A pause pass never tracks a download whose pause failed and touches nothing but the set. */
  lemma PauseAllAddsOnlyPaused(s: State, api: DownloadsApi, id: DownloadId)
    ensures PauseAll(s, api).0 == s.(pausedDownloads := PauseAll(s, api).0.pausedDownloads)
    ensures s.pausedDownloads <= PauseAll(s, api).0.pausedDownloads
    ensures id in PauseAll(s, api).0.pausedDownloads && id !in s.pausedDownloads ==>
      api.inProgress.Some? &&
      exists i :: 0 <= i < |api.inProgress.value| && api.inProgress.value[i].id == id && api.inProgress.value[i].pauseOk
    ensures api.inProgress.Some? ==> PauseAll(s, api).1 <= |api.inProgress.value|
  {
    if api.inProgress.Some? {
      PausedIdsMembers(api.inProgress.value, id);
    }
  }

  /**
   * A resume pass leaves nothing tracked even when every resume fails; its
   * count is at most the number tracked before, and equal to it exactly when
   * every resume succeeds.
   */
  lemma ResumeAllEmptiesSet(s: State, api: DownloadsApi)
    ensures ResumeAll(s, api).0.pausedDownloads == {}
    ensures ResumeAll(s, api).0 == s.(pausedDownloads := {})
    ensures ResumeAll(s, api).1 <= |s.pausedDownloads|
    ensures ResumeAll(s, api).1 == |s.pausedDownloads| <==>
      forall id :: id in s.pausedDownloads ==> ResumeSucceeds(api.resumeOk, id)
  {
    ResumeCountBound(s.pausedDownloads, api.resumeOk);
  }

  // ----- Transitions -----

  /** handleNetworkChange: pause on a move to '4g', resume on a move to '5g'. */
  function HandleNetworkChange(s: State, from: NetworkType, to: NetworkType, api: DownloadsApi): State {
    if to == FourG && (from == FiveG || from == Unknown) then PauseAll(s, api).0
    else if to == FiveG && (from == FourG || from == Unknown) then ResumeAll(s, api).0
    else s
  }

  /** The whole transition table: every move into a class reacts, staying put never does. */
  lemma TransitionTable(s: State, from: NetworkType, to: NetworkType, api: DownloadsApi)
    ensures to == FourG && from != FourG ==> HandleNetworkChange(s, from, to, api) == PauseAll(s, api).0
    ensures to == FiveG && from != FiveG ==> HandleNetworkChange(s, from, to, api) == ResumeAll(s, api).0
    ensures to == from || to == Unknown ==> HandleNetworkChange(s, from, to, api) == s
  {
  }

  /** One monitoring cycle's inputs: the sample, and the downloads API's answers. */
  datatype Cycle = Cycle(info: NetworkInfo, api: DownloadsApi)

  /**
   * checkNetworkSpeed: classify against the current threshold; only on a
   * change of class react, and only then record the new class.
   */
  function CheckNetworkSpeed(s: State, c: Cycle): State {
    var detected := AnalyzeNetworkSpeed(c.info, s.speedThreshold);
    if detected != s.currentNetworkType then
      HandleNetworkChange(s, s.currentNetworkType, detected, c.api).(currentNetworkType := detected)
    else s
  }

  /** One firing of the monitor loop: it does nothing once monitoring is off. */
  function MonitorTick(s: State, c: Cycle): State {
    if !s.isMonitoring then s else CheckNetworkSpeed(s, c)
  }

  /** startNetworkMonitoring: set the flag, check once, then the loop's first tick checks again. */
  function StartNetworkMonitoring(s: State, first: Cycle, second: Cycle): State {
    MonitorTick(CheckNetworkSpeed(s.(isMonitoring := true), first), second)
  }

  /** stopNetworkMonitoring: clear the flag; the class is kept. */
  function StopNetworkMonitoring(s: State): State {
    s.(isMonitoring := false)
  }

  /** initializeExtension: load the settings and, when enabled, start monitoring. */
  function InitializeExtension(s: State, stored: StoredSettings, first: Cycle, second: Cycle): State {
    var loaded := s.(isEnabled := EnabledSetting(stored.isEnabled),
                     speedThreshold := ThresholdSetting(stored.speedThreshold));
    if loaded.isEnabled then StartNetworkMonitoring(loaded, first, second) else loaded
  }

  /**
   * After a check the class is the one the classifier gives for the current
   * threshold, so it is never 'unknown' again; the flags and the threshold
   * are untouched.
   */
  lemma CheckSettlesClass(s: State, c: Cycle)
    ensures CheckNetworkSpeed(s, c).currentNetworkType == AnalyzeNetworkSpeed(c.info, s.speedThreshold)
    ensures CheckNetworkSpeed(s, c).currentNetworkType != Unknown
    ensures CheckNetworkSpeed(s, c).isMonitoring == s.isMonitoring
    ensures CheckNetworkSpeed(s, c).isEnabled == s.isEnabled
    ensures CheckNetworkSpeed(s, c).speedThreshold == s.speedThreshold
  {
  }

  /** A check that detects the class already recorded changes nothing at all. */
  lemma CheckWithoutChangeIsNoOp(s: State, c: Cycle)
    requires AnalyzeNetworkSpeed(c.info, s.speedThreshold) == s.currentNetworkType
    ensures CheckNetworkSpeed(s, c) == s
  {
  }

  /** Repeating a cycle with the same sample reacts at most once. */
  lemma CheckIdempotent(s: State, c: Cycle, again: DownloadsApi)
    ensures CheckNetworkSpeed(CheckNetworkSpeed(s, c), Cycle(c.info, again)) == CheckNetworkSpeed(s, c)
  {
  }

  /**
   * A check that detects a change reacts to it: a move to '4g' pauses, a move
   * to '5g' resumes, and the set is touched in no other case.
   */
  lemma CheckReacts(s: State, c: Cycle)
    ensures var detected := AnalyzeNetworkSpeed(c.info, s.speedThreshold);
      CheckNetworkSpeed(s, c).pausedDownloads ==
        if detected == s.currentNetworkType then s.pausedDownloads
        else if detected == FourG then PauseAll(s, c.api).0.pausedDownloads
        else {}
  {
  }

  /**
   * A failed probe without a positive hint is not "no change": it reads as
   * '4g' and pauses downloads unless the class is already '4g'.
   */
  lemma FailedProbeCanPause(s: State, downlink: real, api: DownloadsApi)
    requires downlink <= 0.0 && s.currentNetworkType != FourG
    ensures CheckNetworkSpeed(s, Cycle(NetworkInfo(downlink, FailedSpeedTest), api))
         == PauseAll(s, api).0.(currentNetworkType := FourG)
  {
  }

  /**
   * Threshold 0.7 and three active downloads: a 0.5 Mbps sample pauses all
   * three; a 1.2 Mbps sample then resumes all three and empties the set.
   */
  lemma SlowThenFastScenario()
    ensures var api := DownloadsApi(Some([PauseAttempt(1, true), PauseAttempt(2, true), PauseAttempt(3, true)]),
                                    map[1 := true, 2 := true, 3 := true]);
      var slow := CheckNetworkSpeed(Initial, Cycle(NetworkInfo(0.0, SpeedTest(0.5, 250.0, true)), api));
      var fast := CheckNetworkSpeed(slow, Cycle(NetworkInfo(0.0, SpeedTest(1.2, 110.0, true)), api));
      && slow.currentNetworkType == FourG && PauseAll(Initial, api).1 == 3 && |slow.pausedDownloads| == 3
      && fast.currentNetworkType == FiveG && ResumeAll(slow, api).1 == 3 && fast.pausedDownloads == {}
  {
    var downloads := [PauseAttempt(1, true), PauseAttempt(2, true), PauseAttempt(3, true)];
    var api := DownloadsApi(Some(downloads), map[1 := true, 2 := true, 3 := true]);
    assert downloads[..2] == [PauseAttempt(1, true), PauseAttempt(2, true)];
    assert downloads[..2][..1] == [PauseAttempt(1, true)];
    assert PausedIds(downloads[..2][..1]) == {1};
    assert PausedIds(downloads[..2]) == {1, 2};
    assert PausedIds(downloads) == {1, 2, 3};
    var slow := CheckNetworkSpeed(Initial, Cycle(NetworkInfo(0.0, SpeedTest(0.5, 250.0, true)), api));
    assert slow.pausedDownloads == {1, 2, 3};
    assert ResumedIds({1, 2, 3}, api.resumeOk) == {1, 2, 3};
  }

  /** Once monitoring is off, the loop's ticks change nothing. */
  lemma StoppedMonitorIsInert(s: State, c: Cycle)
    ensures MonitorTick(StopNetworkMonitoring(s), c) == StopNetworkMonitoring(s)
  {
  }

  /** Loading settings from the constructed state yields a consistent state. */
  lemma InitializeIsConsistent(s: State, stored: StoredSettings, first: Cycle, second: Cycle)
    requires !s.isMonitoring
    ensures Consistent(InitializeExtension(s, stored, first, second))
    ensures InitializeExtension(s, stored, first, second).isMonitoring <==> EnabledSetting(stored.isEnabled)
    ensures InitializeExtension(s, stored, first, second).speedThreshold == ThresholdSetting(stored.speedThreshold)
  {
  }

  // ----- Download events -----

  /** The part of a downloads.onChanged delta the manager reads: the id and `state.current`, if present. */
  datatype DownloadDelta = DownloadDelta(id: DownloadId, state: Option<string>)

  /** The download left the pausable states. */
  predicate EndsDownload(delta: DownloadDelta) {
    delta.state == Some("complete") || delta.state == Some("interrupted")
  }

  /** handleDownloadChange: forget a download once it completes or is interrupted. */
  function HandleDownloadChange(s: State, delta: DownloadDelta): State {
    if EndsDownload(delta) then s.(pausedDownloads := s.pausedDownloads - {delta.id}) else s
  }

  /** handleNewDownload: a delayed pause is scheduled only while the class is '4g'. */
  predicate SchedulesAutoPause(s: State) {
    s.currentNetworkType == FourG
  }

  /** The delayed auto-pause firing: the id is tracked only if its pause succeeded. */
  function AutoPauseFired(s: State, id: DownloadId, pauseOk: bool): State {
    if pauseOk then s.(pausedDownloads := s.pausedDownloads + {id}) else s
  }

  /**
   * A download event removes the id exactly when the download completes or is
   * interrupted, without resuming anything and without touching other fields.
   */
  lemma DownloadChangeForgets(s: State, delta: DownloadDelta, other: DownloadId)
    requires other != delta.id
    ensures HandleDownloadChange(s, delta) == s.(pausedDownloads := HandleDownloadChange(s, delta).pausedDownloads)
    ensures delta.id in HandleDownloadChange(s, delta).pausedDownloads <==> delta.id in s.pausedDownloads && !EndsDownload(delta)
    ensures other in HandleDownloadChange(s, delta).pausedDownloads <==> other in s.pausedDownloads
  {
  }

  // ----- Command dispatch -----

  /** A message from the popup: the action name and, for updateSpeedThreshold, the value. */
  datatype Message = Message(action: string, threshold: real)

  /** The reply objects handleMessage sends back; a Pong's timestamp is not modelled. */
  datatype Response =
    | Pong(success: bool)
    | StatusReport(isEnabled: bool, isMonitoring: bool, currentNetworkType: NetworkType,
                   pausedDownloadsCount: nat, speedThreshold: real)
    | Toggled(isEnabled: bool, success: bool)
    | ThresholdUpdated(success: bool, threshold: real)
    | Counted(success: bool, count: nat)
    | SpeedChecked(success: bool, currentType: NetworkType)
    | Failed(success: bool, error: string)

  /** The actions handleMessage recognises. */
  const KnownActions: set<string> :=
    {"ping", "getStatus", "toggleEnabled", "updateSpeedThreshold", "manualPause", "manualResume", "forceSpeedCheck"}

  /** The getStatus reply: a projection of the fields, the paused count being the set's size. */
  function GetStatus(s: State): Response {
    StatusReport(s.isEnabled, s.isMonitoring, s.currentNetworkType, |s.pausedDownloads|, s.speedThreshold)
  }

  /**
   * handleMessage. `first` feeds the check, the pause or the resume a command
   * runs; enabling starts monitoring, which checks twice, the second time with `second`.
   */
  function HandleMessage(s: State, msg: Message, first: Cycle, second: Cycle): (State, Response) {
    if msg.action == "ping" then
      (s, Pong(true))
    else if msg.action == "getStatus" then
      (s, GetStatus(s))
    else if msg.action == "toggleEnabled" then
      var flipped := s.(isEnabled := !s.isEnabled);
      var after :=
        if flipped.isEnabled then StartNetworkMonitoring(flipped, first, second)
        else ResumeAll(StopNetworkMonitoring(flipped), first.api).0;
      (after, Toggled(after.isEnabled, true))
    else if msg.action == "updateSpeedThreshold" then
      (s.(speedThreshold := msg.threshold), ThresholdUpdated(true, msg.threshold))
    else if msg.action == "manualPause" then
      var (after, count) := PauseAll(s, first.api);
      (after, Counted(true, count))
    else if msg.action == "manualResume" then
      var (after, count) := ResumeAll(s, first.api);
      (after, Counted(true, count))
    else if msg.action == "forceSpeedCheck" then
      var after := CheckNetworkSpeed(s, first);
      (after, SpeedChecked(true, after.currentNetworkType))
    else
      (s, Failed(false, "Unknown action"))
  }

  /** getStatus changes nothing and reports the size of the paused set. */
  lemma StatusIsProjection(s: State, first: Cycle, second: Cycle)
    ensures HandleMessage(s, Message("getStatus", 0.0), first, second).0 == s
    ensures HandleMessage(s, Message("getStatus", 0.0), first, second).1.pausedDownloadsCount == |s.pausedDownloads|
    ensures HandleMessage(s, Message("getStatus", 0.0), first, second).1.currentNetworkType == s.currentNetworkType
  {
  }

  /** Any other action, such as the content script's reports, is refused and changes nothing. */
  lemma UnknownActionRefused(s: State, msg: Message, first: Cycle, second: Cycle)
    requires msg.action !in KnownActions
    ensures HandleMessage(s, msg, first, second) == (s, Failed(false, "Unknown action"))
  {
  }

  /** The threshold is stored as given, with no check that it is positive. */
  lemma ThresholdStoredUnchecked(s: State, value: real, first: Cycle, second: Cycle)
    ensures HandleMessage(s, Message("updateSpeedThreshold", value), first, second)
         == (s.(speedThreshold := value), ThresholdUpdated(true, value))
  {
  }

  /**
   * Disabling stops monitoring and releases every paused download, even if
   * each resume fails, and keeps the last class.
   */
  lemma DisablingReleasesAll(s: State, first: Cycle, second: Cycle)
    requires s.isEnabled
    ensures var (t, r) := HandleMessage(s, Message("toggleEnabled", 0.0), first, second);
      && !t.isEnabled && !t.isMonitoring && t.pausedDownloads == {}
      && t.currentNetworkType == s.currentNetworkType
      && t.speedThreshold == s.speedThreshold
      && r == Toggled(false, true)
  {
  }

  /** Enabling starts monitoring and leaves a settled class. */
  lemma EnablingStartsMonitoring(s: State, first: Cycle, second: Cycle)
    requires !s.isEnabled
    ensures var (t, r) := HandleMessage(s, Message("toggleEnabled", 0.0), first, second);
      t.isEnabled && t.isMonitoring && t.currentNetworkType != Unknown && r == Toggled(true, true)
  {
  }

  /**
   * Because disabling keeps the class, re-enabling on a link that still reads
   * '4g' detects no change and pauses nothing: the downloads released when the
   * extension was disabled keep running.
   */
  lemma ReenablingOnSlowLinkPausesNothing(s: State, off: Cycle, first: Cycle, second: Cycle)
    requires s.isEnabled && s.currentNetworkType == FourG
    requires AnalyzeNetworkSpeed(first.info, s.speedThreshold) == FourG
    requires AnalyzeNetworkSpeed(second.info, s.speedThreshold) == FourG
    ensures var disabled := HandleMessage(s, Message("toggleEnabled", 0.0), off, off).0;
      var enabled := HandleMessage(disabled, Message("toggleEnabled", 0.0), first, second).0;
      enabled.isMonitoring && enabled.currentNetworkType == FourG && enabled.pausedDownloads == {}
  {
  }

  /** Every command keeps monitoring confined to the enabled state. */
  lemma HandleMessageKeepsConsistent(s: State, msg: Message, first: Cycle, second: Cycle)
    requires Consistent(s)
    ensures Consistent(HandleMessage(s, msg, first, second).0)
  {
  }

  /** Once a class is settled, no command and no cycle brings back 'unknown'. */
  lemma ClassNeverReturnsToUnknown(s: State, msg: Message, first: Cycle, second: Cycle)
    requires s.currentNetworkType != Unknown
    ensures HandleMessage(s, msg, first, second).0.currentNetworkType != Unknown
    ensures MonitorTick(s, first).currentNetworkType != Unknown
  {
  }
}
