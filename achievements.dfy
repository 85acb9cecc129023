/** Achievements of the progression model and the per-entry rules applied by
    `unlockAchievement` and `updateAchievementProgress`. */
module Achievements {
  import opened Wrappers

  /** An achievement; `progress` and `total` are optional fields. */
  datatype Achievement = Achievement(
    id: string,
    name: string,
    description: string,
    icon: string,
    unlocked: bool,
    progress: Option<int>,
    total: Option<int>)

  const FirstSessionId := "first-session"
  const EmpathyMasterId := "empathy-master"
  const DiagnosticDetectiveId := "diagnostic-detective"
  const StreakSevenId := "streak-7"
  const BossPatientId := "boss-patient"

  /** The achievements a new user starts with: all locked. */
  const InitialAchievements: seq<Achievement> := [
    Achievement(FirstSessionId, "First Session Completed",
      "Complete your first therapy session", "award", false, None, None),
    Achievement(EmpathyMasterId, "Empathy Master",
      "Complete 5 sessions with high empathy ratings", "heart", false, Some(0), Some(5)),
    Achievement(DiagnosticDetectiveId, "Diagnostic Detective",
      "Correctly identify 3 complex disorders", "search", false, Some(0), Some(3)),
    Achievement(StreakSevenId, "Weekly Dedication",
      "Maintain a 7-day practice streak", "calendar-check", false, Some(0), Some(7)),
    Achievement(BossPatientId, "Boss Challenger",
      "Successfully complete a session with a Boss Patient", "trophy", false, None, None)
  ]

  /** The starting list: five achievements with distinct ids, all locked; the
      counted ones start at progress 0 towards a positive total, and the targets
      of the streak and first-session unlocks are present. */
  lemma InitialAchievementsShape()
    ensures |InitialAchievements| == 5
    ensures forall i :: 0 <= i < |InitialAchievements| ==> !InitialAchievements[i].unlocked
    ensures forall i, j :: 0 <= i < j < |InitialAchievements| ==> InitialAchievements[i].id != InitialAchievements[j].id
    ensures forall i :: 0 <= i < |InitialAchievements| && InitialAchievements[i].total.Some? ==>
      InitialAchievements[i].progress == Some(0) && InitialAchievements[i].total.value > 0
    ensures HasId(InitialAchievements, FirstSessionId) && HasId(InitialAchievements, StreakSevenId)
  {
    assert InitialAchievements[0].id == FirstSessionId;
    assert InitialAchievements[3].id == StreakSevenId;
  }

  /** `b` differs from `a` at most in its `unlocked` flag. */
  predicate SameButUnlocked(a: Achievement, b: Achievement) {
    b == a.(unlocked := b.unlocked)
  }

  /** `b` differs from `a` at most in its `unlocked` flag and its progress. */
  predicate SameButProgress(a: Achievement, b: Achievement) {
    b == a.(unlocked := b.unlocked, progress := b.progress)
  }

  predicate HasId(list: seq<Achievement>, id: string) {
    exists i :: 0 <= i < |list| && list[i].id == id
  }

  // ---------------------------------------------------------------- unlock

  /** `unlockAchievement(id)` applied to the whole list: every entry whose id is
      `id` becomes unlocked, every other entry stays as it was, in place. */
  function UnlockAll(list: seq<Achievement>, id: string): (r: seq<Achievement>)
    ensures |r| == |list|
    ensures forall i :: 0 <= i < |list| ==>
      SameButUnlocked(list[i], r[i]) &&
      r[i].unlocked == (list[i].unlocked || list[i].id == id)
  {
    if list == [] then []
    else
      var head := if list[0].id == id then list[0].(unlocked := true) else list[0];
      [head] + UnlockAll(list[1..], id)
  }

  /** Unlocking twice is unlocking once. */
  lemma UnlockAllIdempotent(list: seq<Achievement>, id: string)
    ensures UnlockAll(UnlockAll(list, id), id) == UnlockAll(list, id)
  {
  }

  /** Unlocking an id no entry carries changes nothing. */
  lemma UnlockAllUnknownId(list: seq<Achievement>, id: string)
    requires !HasId(list, id)
    ensures UnlockAll(list, id) == list
  {
    var r := UnlockAll(list, id);
    forall i | 0 <= i < |list| ensures r[i] == list[i] {
      assert list[i].id != id;
    }
  }

  // ---------------------------------------------------------------- progress

  /** `(achievement.progress || 0)` */
  function ProgressOf(a: Achievement): int {
    a.progress.GetOr(0)
  }

  /** `achievement.total && p >= achievement.total`: a total of 0 or none never
      triggers. */
  predicate ReachesTotal(a: Achievement, p: int) {
    a.total.Some? && a.total.value != 0 && p >= a.total.value
  }

  /** The entry rule of `updateAchievementProgress(id, delta)`. */
  function AddProgress(a: Achievement, id: string, delta: int): Achievement {
    if a.id == id then
      var p := ProgressOf(a) + delta;
      a.(progress := Some(p), unlocked := if ReachesTotal(a, p) then true else a.unlocked)
    else a
  }

  /** `updateAchievementProgress(id, delta)` applied to the whole list: the entry
      with that id gets progress `(progress or 0) + delta` and is unlocked once
      the new progress reaches a non-zero total; nothing is ever locked again and
      every other entry is unchanged. */
  function AddProgressAll(list: seq<Achievement>, id: string, delta: int): (r: seq<Achievement>)
    ensures |r| == |list|
    ensures forall i :: 0 <= i < |list| && list[i].id != id ==> r[i] == list[i]
    ensures forall i :: 0 <= i < |list| && list[i].id == id ==>
      SameButProgress(list[i], r[i]) &&
      r[i].progress == Some(ProgressOf(list[i]) + delta) &&
      r[i].unlocked == (list[i].unlocked || ReachesTotal(list[i], ProgressOf(list[i]) + delta))
  {
    if list == [] then []
    else [AddProgress(list[0], id, delta)] + AddProgressAll(list[1..], id, delta)
  }

  /** Progress updates never lock an unlocked achievement. */
  lemma AddProgressKeepsUnlocked(list: seq<Achievement>, id: string, delta: int, i: int)
    requires 0 <= i < |list| && list[i].unlocked
    ensures AddProgressAll(list, id, delta)[i].unlocked
  {
  }

  /** A progress update for an id no entry carries changes nothing. */
  lemma AddProgressUnknownId(list: seq<Achievement>, id: string, delta: int)
    requires !HasId(list, id)
    ensures AddProgressAll(list, id, delta) == list
  {
    var r := AddProgressAll(list, id, delta);
    forall i | 0 <= i < |list| ensures r[i] == list[i] {
      assert list[i].id != id;
    }
  }

  function Sum(ds: seq<int>): int {
    if ds == [] then 0 else ds[0] + Sum(ds[1..])
  }

  /** A series of `updateAchievementProgress(id, d)` calls, one per delta. */
  function AddProgressSeries(list: seq<Achievement>, id: string, deltas: seq<int>): (r: seq<Achievement>)
    ensures |r| == |list|
    decreases |deltas|
  {
    if deltas == [] then list
    else AddProgressSeries(AddProgressAll(list, id, deltas[0]), id, deltas[1..])
  }

  /** After a series of progress updates the entry holds its starting progress
      plus the sum of the deltas; once that sum reaches a non-zero total, the
      entry is unlocked, and an entry that was unlocked stays unlocked. */
  lemma {:induction false} AddProgressSeriesReachesTotal(list: seq<Achievement>, id: string, deltas: seq<int>, k: int)
    requires 0 <= k < |list| && list[k].id == id && deltas != []
    ensures SameButProgress(list[k], AddProgressSeries(list, id, deltas)[k])
    ensures AddProgressSeries(list, id, deltas)[k].progress == Some(ProgressOf(list[k]) + Sum(deltas))
    ensures ReachesTotal(list[k], ProgressOf(list[k]) + Sum(deltas)) ==> AddProgressSeries(list, id, deltas)[k].unlocked
    ensures list[k].unlocked ==> AddProgressSeries(list, id, deltas)[k].unlocked
    decreases |deltas|
  {
    var next := AddProgressAll(list, id, deltas[0]);
    if deltas[1..] != [] {
      AddProgressSeriesReachesTotal(next, id, deltas[1..], k);
    }
  }
}
