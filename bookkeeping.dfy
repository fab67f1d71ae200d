/**
 * The set of paused downloads (pausedDownloads) and what the browser's downloads
 * API answers while the manager pauses and resumes them. The API is an oracle:
 * the search result, each pause outcome and each resume outcome are inputs.
 */
module Bookkeeping {
  import opened Wrappers

  type DownloadId = int

  /** One in-progress download found by the search, and whether pausing it succeeds. */
  datatype PauseAttempt = PauseAttempt(id: DownloadId, pauseOk: bool)

  /**
   * The answers of the downloads API during one operation. `inProgress` is None
   * when the search for in-progress downloads itself fails; resuming an id that
   * `resumeOk` does not map to true fails.
   */
  datatype DownloadsApi = DownloadsApi(inProgress: Option<seq<PauseAttempt>>, resumeOk: map<DownloadId, bool>)

  /** The ids a pause pass over `attempts` adds to the set. */
  function PausedIds(attempts: seq<PauseAttempt>): set<DownloadId> {
    if attempts == [] then {}
    else
      var last := attempts[|attempts| - 1];
      PausedIds(attempts[..|attempts| - 1]) + (if last.pauseOk then {last.id} else {})
  }

  /** An id is added exactly when some attempt to pause it succeeded; a failed one never is. */
  lemma {:induction false} PausedIdsMembers(attempts: seq<PauseAttempt>, id: DownloadId)
    ensures id in PausedIds(attempts) <==>
      exists i :: 0 <= i < |attempts| && attempts[i].id == id && attempts[i].pauseOk
  {
    if attempts != [] {
      var front := attempts[..|attempts| - 1];
      PausedIdsMembers(front, id);
      assert forall i :: 0 <= i < |front| ==> front[i] == attempts[i];
      if id in PausedIds(attempts) && id !in PausedIds(front) {
        assert attempts[|attempts| - 1].id == id;
      }
    }
  }

  /**
   * The counter a pause pass returns: one per successful pause call. It is at
   * least the number of distinct ids paused and at most the number of attempts.
   */
  function PauseCount(attempts: seq<PauseAttempt>): (n: nat)
    ensures |PausedIds(attempts)| <= n <= |attempts|
    ensures n == 0 <==> PausedIds(attempts) == {}
  {
    if attempts == [] then 0
    else
      var front := attempts[..|attempts| - 1];
      PauseCount(front) + (if attempts[|attempts| - 1].pauseOk then 1 else 0)
  }

  /** Attempt i adds its id to the paused ids and one to the count exactly when it succeeds. */
  lemma PauseStep(attempts: seq<PauseAttempt>, i: nat)
    requires i < |attempts|
    ensures PausedIds(attempts[..i + 1]) == PausedIds(attempts[..i]) + (if attempts[i].pauseOk then {attempts[i].id} else {})
    ensures PauseCount(attempts[..i + 1]) == PauseCount(attempts[..i]) + (if attempts[i].pauseOk then 1 else 0)
  {
    assert attempts[..i + 1][..i] == attempts[..i];
  }

  /** The search reports every download at most once. */
  predicate DistinctIds(attempts: seq<PauseAttempt>) {
    forall i, j :: 0 <= i < j < |attempts| ==> attempts[i].id != attempts[j].id
  }

  /** When the search reports each download once, the counter is the number of ids paused. */
  lemma {:induction false} DistinctPauseCount(attempts: seq<PauseAttempt>)
    requires DistinctIds(attempts)
    ensures PauseCount(attempts) == |PausedIds(attempts)|
  {
    if attempts != [] {
      var front := attempts[..|attempts| - 1];
      var last := attempts[|attempts| - 1];
      assert DistinctIds(front);
      DistinctPauseCount(front);
      PausedIdsMembers(front, last.id);
    }
  }

  /**
   * When the searched downloads are distinct and none is tracked yet, the set
   * grows by exactly the returned count.
   */
  lemma PausedSetGrowsByCount(tracked: set<DownloadId>, attempts: seq<PauseAttempt>)
    requires DistinctIds(attempts)
    requires forall i :: 0 <= i < |attempts| ==> attempts[i].id !in tracked
    ensures |tracked + PausedIds(attempts)| == |tracked| + PauseCount(attempts)
  {
    DistinctPauseCount(attempts);
    forall id | id in PausedIds(attempts)
      ensures id !in tracked
    {
      PausedIdsMembers(attempts, id);
    }
    assert tracked * PausedIds(attempts) == {};
  }

  /** Whether the resume call for `id` succeeds. */
  predicate ResumeSucceeds(resumeOk: map<DownloadId, bool>, id: DownloadId) {
    id in resumeOk && resumeOk[id]
  }

  /** The tracked ids whose resume call succeeds. */
  function ResumedIds(tracked: set<DownloadId>, resumeOk: map<DownloadId, bool>): set<DownloadId> {
    set id | id in tracked && ResumeSucceeds(resumeOk, id)
  }

  /**
   * The resume count never exceeds the number of tracked downloads, and reaches
   * it only when every resume call succeeds.
   */
  lemma ResumeCountBound(tracked: set<DownloadId>, resumeOk: map<DownloadId, bool>)
    ensures |ResumedIds(tracked, resumeOk)| <= |tracked|
    ensures |ResumedIds(tracked, resumeOk)| == |tracked| <==> forall id :: id in tracked ==> ResumeSucceeds(resumeOk, id)
  {
    var r := ResumedIds(tracked, resumeOk);
    SubsetCardinality(r, tracked);
    if r != tracked {
      var id :| id in tracked && id !in r;
      SubsetCardinality(r, tracked - {id});
    }
  }

  /** A subset is no larger than its superset. */
  lemma SubsetCardinality(small: set<DownloadId>, large: set<DownloadId>)
    requires small <= large
    ensures |small| <= |large|
  {
    assert large == small + (large - small);
    assert small * (large - small) == {};
  }

  /** Resuming one more id adds it to the resumed ids exactly when its resume succeeds. */
  lemma ResumedIdsStep(done: set<DownloadId>, id: DownloadId, resumeOk: map<DownloadId, bool>)
    requires id !in done
    ensures |ResumedIds(done + {id}, resumeOk)| == |ResumedIds(done, resumeOk)| + (if ResumeSucceeds(resumeOk, id) then 1 else 0)
  {
    if ResumeSucceeds(resumeOk, id) {
      assert ResumedIds(done + {id}, resumeOk) == ResumedIds(done, resumeOk) + {id};
    } else {
      assert ResumedIds(done + {id}, resumeOk) == ResumedIds(done, resumeOk);
    }
  }
}
