/**
 * The background worker's NetworkDownloadManager: five fields that its
 * methods update in place. Each method is proved to change the fields exactly
 * as the function of the same name in module Controller does, and to keep
 * monitoring confined to the enabled state.
 */
module Manager {
  import opened Wrappers
  import opened Classifier
  import opened Bookkeeping
  import Controller

  class NetworkDownloadManager {
    var isMonitoring: bool
    var currentNetworkType: NetworkType
    var pausedDownloads: set<DownloadId>
    var speedThreshold: real
    var isEnabled: bool

    /** The fields as one value. */
    function Snapshot(): Controller.State
      reads this
    {
      Controller.State(isMonitoring, currentNetworkType, pausedDownloads, speedThreshold, isEnabled)
    }

    /** Monitoring only runs while the extension is enabled. */
    predicate Valid()
      reads this
    {
      Controller.Consistent(Snapshot())
    }

    /**
     * Sets the defaults (not monitoring, 'unknown', nothing paused, 0.7 Mbps,
     * enabled), then loads the stored settings and, when enabled, starts monitoring.
     */
    constructor (stored: Controller.StoredSettings, first: Controller.Cycle, second: Controller.Cycle)
      ensures Valid()
      ensures Snapshot() == Controller.InitializeExtension(Controller.Initial, stored, first, second)
    {
      isMonitoring := false;
      currentNetworkType := Unknown;
      pausedDownloads := {};
      speedThreshold := Controller.DefaultThreshold;
      isEnabled := true;
      new;
      InitializeExtension(stored, first, second);
    }

    /** Loads the settings; runs once, from the constructor, before monitoring starts. */
    method InitializeExtension(stored: Controller.StoredSettings, first: Controller.Cycle, second: Controller.Cycle)
      requires !isMonitoring
      modifies this
      ensures Valid()
      ensures Snapshot() == Controller.InitializeExtension(old(Snapshot()), stored, first, second)
    {
      isEnabled := Controller.EnabledSetting(stored.isEnabled);
      speedThreshold := Controller.ThresholdSetting(stored.speedThreshold);
      if isEnabled {
        StartNetworkMonitoring(first, second);
      }
      Controller.InitializeIsConsistent(old(Snapshot()), stored, first, second);
    }

    /** Sets the flag, checks once, then runs the monitor loop's first tick. */
    method StartNetworkMonitoring(first: Controller.Cycle, second: Controller.Cycle)
      modifies this`isMonitoring, this`currentNetworkType, this`pausedDownloads
      ensures Snapshot() == Controller.StartNetworkMonitoring(old(Snapshot()), first, second)
    {
      isMonitoring := true;
      CheckNetworkSpeed(first);
      MonitorTick(second);
    }

    /** One firing of the monitor loop: returns at once when monitoring is off. */
    method MonitorTick(c: Controller.Cycle)
      modifies this`currentNetworkType, this`pausedDownloads
      ensures Snapshot() == Controller.MonitorTick(old(Snapshot()), c)
    {
      if !isMonitoring {
        return;
      }
      CheckNetworkSpeed(c);
    }

    method StopNetworkMonitoring()
      modifies this`isMonitoring
      ensures Snapshot() == Controller.StopNetworkMonitoring(old(Snapshot()))
    {
      isMonitoring := false;
    }

    /** Classifies the sample; on a change of class reacts first and records the class after. */
    method CheckNetworkSpeed(c: Controller.Cycle)
      modifies this`currentNetworkType, this`pausedDownloads
      ensures Snapshot() == Controller.CheckNetworkSpeed(old(Snapshot()), c)
    {
      var detectedType := AnalyzeNetworkSpeed(c.info, speedThreshold);
      if detectedType != currentNetworkType {
        HandleNetworkChange(currentNetworkType, detectedType, c.api);
        currentNetworkType := detectedType;
      }
    }

    method HandleNetworkChange(oldType: NetworkType, newType: NetworkType, api: DownloadsApi)
      modifies this`pausedDownloads
      ensures Snapshot() == Controller.HandleNetworkChange(old(Snapshot()), oldType, newType, api)
    {
      if newType == FourG && (oldType == FiveG || oldType == Unknown) {
        var pausedCount := PauseAllDownloads(api);
      } else if newType == FiveG && (oldType == FourG || oldType == Unknown) {
        var resumedCount := ResumePausedDownloads(api);
      }
    }

    /**
     * Pauses every in-progress download one by one; tracks and counts those
     * whose pause succeeded. A failed search pauses nothing.
     */
    method PauseAllDownloads(api: DownloadsApi) returns (pausedCount: nat)
      modifies this`pausedDownloads
      ensures api.inProgress.None? ==> pausedDownloads == old(pausedDownloads) && pausedCount == 0
      ensures api.inProgress.Some? ==> pausedDownloads == old(pausedDownloads) + PausedIds(api.inProgress.value)
      ensures api.inProgress.Some? ==> pausedCount == PauseCount(api.inProgress.value)
    {
      pausedCount := 0;
      if api.inProgress.Some? {
        var downloads := api.inProgress.value;
        ghost var tracked := pausedDownloads;
        for i := 0 to |downloads|
          invariant pausedDownloads == tracked + PausedIds(downloads[..i])
          invariant pausedCount == PauseCount(downloads[..i])
        {
          PauseStep(downloads, i);
          if downloads[i].pauseOk {
            pausedDownloads := pausedDownloads + {downloads[i].id};
            pausedCount := pausedCount + 1;
          }
        }
        assert downloads[..|downloads|] == downloads;
      }
    }

    /**
     * Tries to resume every tracked download; each id leaves the set whether
     * its resume succeeds or fails, and the successes are counted.
     */
    method ResumePausedDownloads(api: DownloadsApi) returns (resumedCount: nat)
      modifies this`pausedDownloads
      ensures (Snapshot(), resumedCount) == Controller.ResumeAll(old(Snapshot()), api)
    {
      resumedCount := 0;
      var pausedIds := pausedDownloads;
      ghost var done: set<DownloadId> := {};
      while pausedIds != {}
        invariant pausedDownloads == pausedIds
        invariant done !! pausedIds && done + pausedIds == old(pausedDownloads)
        invariant resumedCount == |ResumedIds(done, api.resumeOk)|
        decreases pausedIds
      {
        assert (forall id :: id !in pausedIds) ==> pausedIds == {};
        var downloadId :| downloadId in pausedIds;
        ResumedIdsStep(done, downloadId, api.resumeOk);
        if ResumeSucceeds(api.resumeOk, downloadId) {
          resumedCount := resumedCount + 1;
        }
        pausedDownloads := pausedDownloads - {downloadId};
        pausedIds := pausedIds - {downloadId};
        done := done + {downloadId};
      }
    }

    /** Whether a new download gets a delayed pause: only while the class is '4g'. */
    method HandleNewDownload(downloadId: DownloadId) returns (scheduled: bool)
      ensures scheduled <==> currentNetworkType == FourG
      ensures scheduled == Controller.SchedulesAutoPause(Snapshot())
    {
      scheduled := currentNetworkType == FourG;
    }

    /** The delayed auto-pause: tracks the download only if its pause succeeded. */
    method AutoPauseFired(downloadId: DownloadId, pauseOk: bool)
      modifies this`pausedDownloads
      ensures Snapshot() == Controller.AutoPauseFired(old(Snapshot()), downloadId, pauseOk)
    {
      if pauseOk {
        pausedDownloads := pausedDownloads + {downloadId};
      }
    }

    /** Forgets a download once it completes or is interrupted. */
    method HandleDownloadChange(delta: Controller.DownloadDelta)
      modifies this`pausedDownloads
      ensures Snapshot() == Controller.HandleDownloadChange(old(Snapshot()), delta)
    {
      if delta.state == Some("complete") || delta.state == Some("interrupted") {
        pausedDownloads := pausedDownloads - {delta.id};
      }
    }

    /** The getStatus reply, read without changing anything. */
    method GetStatus() returns (status: Controller.Response)
      ensures status.StatusReport?
      ensures status.pausedDownloadsCount == |pausedDownloads|
      ensures status == Controller.GetStatus(Snapshot())
    {
      status := Controller.StatusReport(isEnabled, isMonitoring, currentNetworkType,
                                        |pausedDownloads|, speedThreshold);
    }

    /** Dispatches one popup command and returns its reply. */
    method HandleMessage(msg: Controller.Message, first: Controller.Cycle, second: Controller.Cycle)
      returns (response: Controller.Response)
      requires Valid()
      modifies this
      ensures Valid()
      ensures (Snapshot(), response) == Controller.HandleMessage(old(Snapshot()), msg, first, second)
    {
      Controller.HandleMessageKeepsConsistent(Snapshot(), msg, first, second);
      if msg.action == "ping" {
        response := Controller.Pong(true);
      } else if msg.action == "getStatus" {
        response := GetStatus();
      } else if msg.action == "toggleEnabled" {
        isEnabled := !isEnabled;
        if isEnabled {
          StartNetworkMonitoring(first, second);
        } else {
          StopNetworkMonitoring();
          var resumedCount := ResumePausedDownloads(first.api);
        }
        response := Controller.Toggled(isEnabled, true);
      } else if msg.action == "updateSpeedThreshold" {
        speedThreshold := msg.threshold;
        response := Controller.ThresholdUpdated(true, speedThreshold);
      } else if msg.action == "manualPause" {
        var pausedCount := PauseAllDownloads(first.api);
        response := Controller.Counted(true, pausedCount);
      } else if msg.action == "manualResume" {
        var resumedCount := ResumePausedDownloads(first.api);
        response := Controller.Counted(true, resumedCount);
      } else if msg.action == "forceSpeedCheck" {
        CheckNetworkSpeed(first);
        response := Controller.SpeedChecked(true, currentNetworkType);
      } else {
        response := Controller.Failed(false, "Unknown action");
      }
    }
  }
}
