# Smart Download Manager: speed classifier and download reactor

This project models the decision logic of the browser extension's background
worker, the `NetworkDownloadManager` class in `background.js`. The worker
probes the link's throughput. It classifies the link as `'5g'` when the speed
is above a threshold (0.7 Mbps by default) and as `'4g'` otherwise. It pauses
every in-progress download on a move to `'4g'` and resumes the downloads it
paused on a move to `'5g'`. It keeps the set of paused download ids, and it
answers commands from the popup.

Layout:

- `classifier.dfy` (module `Classifier`) models `analyzeNetworkSpeed` as a pure function, with lemmas for the priority order, the strict threshold and the no-signal default.
- `bookkeeping.dfy` (module `Bookkeeping`) holds the downloads API as an oracle and what one pause pass or resume pass does to the set of paused ids and to the returned count.
- `controller.dfy` (module `Controller`) has one function per operation of the class, over a value holding the class's five fields. It also holds the settings defaults, the command dispatch, and the lemmas about transitions, commands and invariants.
- `manager.dfy` (module `Manager`) is the class itself. Its fields are `isMonitoring`, `currentNetworkType`, `pausedDownloads` (a `set`), `speedThreshold` and `isEnabled`. Its methods update the fields in place, and the pause and resume passes use loops. Each method is proved to change the fields exactly as the `Controller` function of the same name does. Every command keeps the invariant "monitoring only while enabled".

The browser is treated as inputs:

- A `NetworkInfo` holds the `downlink` hint and the probe result `{speed, latency, success}`. A failed probe is `{0, 999, false}`.
- A `DownloadsApi` holds the search result (`None` when the search fails), each pause outcome, and a map from id to resume outcome. An id the map lacks counts as a failed resume.
- The monitor loop's timer and the 1-second auto-pause delay are not modelled. `MonitorTick` and `AutoPauseFired` are their bodies.

Where the code and the design description of the system differ, the model
follows the code:

- `updateSpeedThreshold` stores any value. The popup rejects values at or below 0, but the worker does not (background.js:319-323).
- A failed probe with no positive `downlink` is not "no change". It classifies as `'4g'` and pauses downloads unless the class already is `'4g'` (`FailedProbeCanPause`).
- Starting monitoring checks twice in a row, not once. `startNetworkMonitoring` awaits one check, then the loop's first tick checks again (background.js:55-56, 60-73).
- The actions are named `updateSpeedThreshold` and `forceSpeedCheck`. The settings keys are `isEnabled` and `speedThreshold`. A stored threshold of 0 loads back as 0.7 (`speedThreshold || 0.7`).

The proofs also bring out one consequence of the code. Disabling keeps the
last class. So if the extension is re-enabled while the link still reads
`'4g'`, no change is detected and nothing is paused again. The downloads that
were released when it was disabled keep running (`ReenablingOnSlowLinkPausesNothing`).

## Model

| member | source | states |
|---|---|---|
| `Classifier.AnalyzeNetworkSpeed` | background.js:160-185 | the classifier only ever answers `'4g'` or `'5g'`, never `'unknown'` |
| `Classifier.MeasuredSpeedDecides` | background.js:166-184 | with a successful positive measurement, the result is `'5g'` iff speed > threshold; a speed equal to the threshold gives `'4g'` |
| `Classifier.MeasuredSpeedTakesPrecedence` | background.js:165-171 | with a successful positive measurement, the `downlink` hint has no influence on the result |
| `Classifier.DownlinkIsFallback` | background.js:169-184 | without a usable measurement, a positive `downlink` is compared with the same strict test |
| `Classifier.NoSignalIsFourG` | background.js:172-175 | with neither a usable measurement nor a positive `downlink`, the result is `'4g'` for every threshold |
| `Classifier.FailedProbeIgnored` | background.js:157-175 | a failed probe contributes nothing: the result equals that for the canonical failure `{0, 999, false}` with the same hint |
| `Classifier.ThresholdAntitone` | background.js:178-184 | raising the threshold can turn `'5g'` into `'4g'` but never the reverse |
| `Bookkeeping.PausedIdsMembers` | background.js:209-218 | an id joins the paused set iff some pause call for it succeeded; an id whose pause failed is never added |
| `Bookkeeping.PauseCount` | background.js:207-220 | the returned pause count is at most the number of downloads searched, at least the number of distinct ids paused, and 0 iff nothing was paused |
| `Bookkeeping.PauseStep` | background.js:210-217 | each download adds its id and one to the count exactly when its pause succeeds |
| `Bookkeeping.DistinctPauseCount` | background.js:206-220 | when the search lists each download once, the count equals the number of ids paused |
| `Bookkeeping.PausedSetGrowsByCount` | background.js:206-220 | when the searched downloads are distinct and none is tracked, the set's size grows by exactly the returned count |
| `Bookkeeping.ResumeCountBound` | background.js:229-244 | the resume count is at most the number tracked, and equal to it iff every resume succeeds |
| `Bookkeeping.ResumedIdsStep` | background.js:232-241 | each id processed adds one to the resume count exactly when its resume succeeds |
| `Controller.EnabledSetting` | background.js:20 | only an explicitly stored `false` disables the extension; a missing key enables it |
| `Controller.ThresholdSetting` | background.js:21 | the loaded threshold is the stored one unless missing or 0, in which case it is 0.7; it is never 0 |
| `Controller.SettingsRoundTrip` | background.js:20-21 | a stored flag loads back unchanged; a stored threshold loads back unchanged iff it is not 0 |
| `Controller.FreshInstallKeepsDefaults` | background.js:9-21 | with nothing stored, loading gives the constructor's defaults (enabled, 0.7) |
| `Controller.PauseAllAddsOnlyPaused` | background.js:204-225 | a pause pass only grows the set, adds only ids whose pause succeeded, changes no other field, and a failed search adds nothing |
| `Controller.ResumeAllEmptiesSet` | background.js:227-249 | a resume pass empties the set even when every resume fails; it changes no other field; its count is at most the initial size |
| `Controller.TransitionTable` | background.js:190-199 | a move to `'4g'` from another class pauses, a move to `'5g'` from another class resumes, and staying put or a move to `'unknown'` leaves the state as it was |
| `Controller.CheckSettlesClass` | background.js:85-92 | after a check the class is the classifier's verdict for the current threshold, so never `'unknown'`; flags and threshold are untouched |
| `Controller.CheckWithoutChangeIsNoOp` | background.js:88 | a check that detects the recorded class changes nothing |
| `Controller.CheckIdempotent` | background.js:85-92 | repeating a check with the same sample reacts at most once |
| `Controller.CheckReacts` | background.js:88-92 | on a change a check pauses (to `'4g'`) or empties the set (to `'5g'`); otherwise the set is unchanged |
| `Controller.FailedProbeCanPause` | background.js:172-191 | a failed probe with no positive hint, from `'5g'` or `'unknown'`, pauses downloads and records `'4g'` |
| `Controller.SlowThenFastScenario` | background.js:187-199 | threshold 0.7: 0.5 Mbps with three active downloads pauses three; 1.2 Mbps then resumes three and empties the set |
| `Controller.StoppedMonitorIsInert` | background.js:60-61 | once monitoring is off, a tick of the monitor loop changes nothing |
| `Controller.InitializeIsConsistent` | background.js:20-27 | after loading the settings, monitoring runs iff the loaded flag is set, with the loaded threshold |
| `Controller.DownloadChangeForgets` | background.js:268-272 | a download event removes its id iff the download completed or was interrupted, touches no other id and no other field, and resumes nothing |
| `Controller.StatusIsProjection` | background.js:292-301 | `getStatus` changes nothing and reports the paused count as the set's size |
| `Controller.UnknownActionRefused` | background.js:343-345 | an unrecognised action answers `success:false, 'Unknown action'` and changes nothing |
| `Controller.ThresholdStoredUnchecked` | background.js:319-323 | `updateSpeedThreshold` stores any value, including values at or below 0 |
| `Controller.DisablingReleasesAll` | background.js:303-317 | disabling stops monitoring and empties the paused set; the class and the threshold are kept |
| `Controller.EnablingStartsMonitoring` | background.js:303-317 | enabling sets monitoring and leaves a settled class |
| `Controller.ReenablingOnSlowLinkPausesNothing` | background.js:303-314 | disable then re-enable on a link still reading `'4g'` leaves the set empty |
| `Controller.HandleMessageKeepsConsistent` | background.js:283-351 | no command lets monitoring run while the extension is disabled |
| `Controller.ClassNeverReturnsToUnknown` | background.js:81-97 | once a class is settled, no command and no monitor tick brings back `'unknown'` |
| `Manager.NetworkDownloadManager.constructor` | background.js:3-13 | sets the defaults, then loads the settings and starts monitoring when enabled; monitoring only while enabled |
| `Manager.NetworkDownloadManager.InitializeExtension` | background.js:15-33 | the fields become the loaded flag and threshold, and monitoring starts when enabled |
| `Manager.NetworkDownloadManager.StartNetworkMonitoring` | background.js:51-74 | sets the flag, checks once, and then the loop's first tick checks again |
| `Manager.NetworkDownloadManager.MonitorTick` | background.js:60-71 | when monitoring is off it returns at once; otherwise it runs one check |
| `Manager.NetworkDownloadManager.StopNetworkMonitoring` | background.js:76-79 | clears only the monitoring flag |
| `Manager.NetworkDownloadManager.CheckNetworkSpeed` | background.js:81-97 | classifies with the current threshold; on a change it reacts first and records the class after |
| `Manager.NetworkDownloadManager.HandleNetworkChange` | background.js:187-202 | pauses on a move to `'4g'` from `'5g'`/`'unknown'`, resumes on a move to `'5g'` from `'4g'`/`'unknown'`, and otherwise leaves the set untouched |
| `Manager.NetworkDownloadManager.PauseAllDownloads` | background.js:204-225 | the set becomes the old set plus the ids whose pause succeeded; the count of successful pauses is returned; a failed search changes nothing and returns 0 |
| `Manager.NetworkDownloadManager.ResumePausedDownloads` | background.js:227-249 | the set ends empty whatever the resume outcomes; the number of tracked ids whose resume succeeded is returned |
| `Manager.NetworkDownloadManager.HandleNewDownload` | background.js:251-266 | a delayed pause is scheduled iff the class is `'4g'`; nothing changes |
| `Manager.NetworkDownloadManager.AutoPauseFired` | background.js:255-264 | the timer body adds the new download's id iff its pause succeeded |
| `Manager.NetworkDownloadManager.HandleDownloadChange` | background.js:268-272 | removes the id iff the new state is `complete` or `interrupted`; only the set may change |
| `Manager.NetworkDownloadManager.GetStatus` | background.js:292-301 | the status reply is the fields' projection, with the set's size as the paused count |
| `Manager.NetworkDownloadManager.HandleMessage` | background.js:283-351 | each action changes the fields and answers as the dispatch prescribes, and keeps monitoring confined to the enabled state |

## Left out

- The throughput probe (`performSpeedTest`, background.js:129-158) is left out: it is a network fetch timed with `performance.now()` using float division. Its result is an input, and a failure is `{0, 999, false}`.
- The `navigator.connection` read (background.js:108-118) is left out: it is browser I/O. `downlink` is an input, 0 when absent. `effectiveType` and `rtt` are not used by the decision.
- Timers are left out. The self-rescheduling monitor loop is kept only as one tick (`MonitorTick`) with the `isMonitoring` guard. The 1-second auto-pause delay is kept only as the timer's body (`AutoPauseFired`), which does not re-check the class when it fires, just as the code does not.
- Asynchrony and interleaving are left out: every operation runs to completion before the next. Not modelled: overlapping monitor loops after repeated toggles, `forceSpeedCheck` racing the loop, download events that change the set while a pause or resume pass awaits the browser, and the constructor returning before `initializeExtension` completes.
- `chrome.storage` writes are assumed to succeed. A failing write would reach the outer `catch` of `handleMessage` (background.js:347-350) with the flag already flipped; that error reply is not modelled.
- Notifications, badge updates, the `networkStatusUpdate` broadcast and console logging are left out: they are fire-and-forget I/O that changes no field.
- The `ping` reply's timestamp is left out: it is the wall clock.
- JavaScript values are narrowed: the stored flag is a boolean or absent, the stored and sent thresholds are numbers, and `NaN` and `undefined` are not modelled. Speeds and thresholds are exact `real`s, not floats.
- The insertion order of the JavaScript `Set` is left out. The resume pass visits the ids in an arbitrary order. Its outcome does not depend on the order.
- `popup.js` and `content.js` are left out: they are UI and event-forwarding code. The actions the content script sends are unrecognised by the worker, and `UnknownActionRefused` covers them.
