/** The client-side progression model: skill rating, achievements, streak,
    last-active date and completed scenarios, the career level derived from the
    rating, the daily streak check run once when the provider mounts, and the
    mirroring of all of it to storage. */
module UserProgress {
  import opened Wrappers
  import opened JsText
  import opened Achievements
  import opened Storage
  import opened Sequences

  // ---------------------------------------------------------------- career levels

  datatype UserLevel = UserLevel(title: string, minSkillRating: int, maxSkillRating: int)

  const StudentTherapist := UserLevel("Student Therapist", 0, 999)
  const ClinicIntern := UserLevel("Clinic Intern", 1000, 1999)
  const CertifiedPractitioner := UserLevel("Certified Practitioner", 2000, 3000)

  /** The career bands, lowest first. */
  const CareerLevels: seq<UserLevel> := [StudentTherapist, ClinicIntern, CertifiedPractitioner]

  const MinSkillRating := 0
  const MaxSkillRating := 3000

  predicate InBand(level: UserLevel, rating: int) {
    level.minSkillRating <= rating <= level.maxSkillRating
  }

  /** `levels[i]` is the first band that contains `rating`. */
  predicate FirstInBand(levels: seq<UserLevel>, rating: int, i: int) {
    0 <= i < |levels| && InBand(levels[i], rating) &&
    forall j :: 0 <= j < i ==> !InBand(levels[j], rating)
  }

  /** `levels.find(level => rating >= level.min && rating <= level.max)`. */
  function FindLevel(levels: seq<UserLevel>, rating: int): (r: Option<UserLevel>)
    ensures r.Some? ==> exists i :: FirstInBand(levels, rating, i) && levels[i] == r.value
    ensures r.None? <==> forall i :: 0 <= i < |levels| ==> !InBand(levels[i], rating)
  {
    if levels == [] then None
    else if InBand(levels[0], rating) then
      assert FirstInBand(levels, rating, 0);
      Some(levels[0])
    else
      var r := FindLevel(levels[1..], rating);
      if r.Some? then
        var i :| FirstInBand(levels[1..], rating, i) && levels[1..][i] == r.value;
        assert FirstInBand(levels, rating, i + 1);
        r
      else
        r
  }

  /** The bands run from 0 to 3000 in increasing order, each non-empty and each
      starting one above the end of the previous one. */
  lemma CareerLevelsTile()
    ensures CareerLevels[0].minSkillRating == MinSkillRating
    ensures CareerLevels[|CareerLevels| - 1].maxSkillRating == MaxSkillRating
    ensures forall k :: 0 <= k < |CareerLevels| ==> CareerLevels[k].minSkillRating <= CareerLevels[k].maxSkillRating
    ensures forall k :: 0 <= k < |CareerLevels| - 1 ==>
      CareerLevels[k + 1].minSkillRating == CareerLevels[k].maxSkillRating + 1
  {
  }

  /** The level for a rating: the first matching band, else the lowest band. */
  function LevelFor(rating: int): (r: UserLevel)
    ensures r in CareerLevels
    ensures InBand(r, rating) ||
      (r == StudentTherapist && forall i :: 0 <= i < |CareerLevels| ==> !InBand(CareerLevels[i], rating))
  {
    FindLevel(CareerLevels, rating).GetOr(CareerLevels[0])
  }

  /** Every rating in [0, 3000] lies in exactly one band, and that band is its level. */
  lemma LevelBandsPartition(rating: int)
    requires MinSkillRating <= rating <= MaxSkillRating
    ensures InBand(LevelFor(rating), rating) && LevelFor(rating) in CareerLevels
    ensures forall i, j :: 0 <= i < j < |CareerLevels| ==>
      !(InBand(CareerLevels[i], rating) && InBand(CareerLevels[j], rating))
  {
    var k := if rating <= 999 then 0 else if rating <= 1999 then 1 else 2;
    assert InBand(CareerLevels[k], rating);
    var i :| FirstInBand(CareerLevels, rating, i) && CareerLevels[i] == LevelFor(rating);
  }

  /** A rating in band `k` has level `k`: the bands do not overlap. */
  lemma LevelForBand(rating: int, k: int)
    requires 0 <= k < |CareerLevels| && InBand(CareerLevels[k], rating)
    ensures LevelFor(rating) == CareerLevels[k]
  {
    var i :| FirstInBand(CareerLevels, rating, i) && CareerLevels[i] == FindLevel(CareerLevels, rating).value;
  }

  /** A rating outside every band falls back to the lowest level. */
  lemma LevelOutsideBands(rating: int)
    requires rating < MinSkillRating || rating > MaxSkillRating
    ensures LevelFor(rating) == StudentTherapist
  {
  }

  /** The band boundaries. */
  lemma LevelBoundaries()
    ensures LevelFor(0).title == "Student Therapist"
    ensures LevelFor(999).title == "Student Therapist"
    ensures LevelFor(1000).title == "Clinic Intern"
    ensures LevelFor(1999).title == "Clinic Intern"
    ensures LevelFor(2000).title == "Certified Practitioner"
    ensures LevelFor(3000).title == "Certified Practitioner"
  {
    LevelForBand(0, 0);
    LevelForBand(999, 0);
    LevelForBand(1000, 1);
    LevelForBand(1999, 1);
    LevelForBand(2000, 2);
    LevelForBand(3000, 2);
  }

  // ---------------------------------------------------------------- state

  /** The five state fields of the provider. */
  datatype Progress = Progress(
    skillRating: int,
    achievements: seq<Achievement>,
    streak: int,
    lastActiveDate: Option<int>,
    completedScenarios: seq<string>)

  /** `Math.max(0, Math.min(3000, x))` */
  function ClampRating(x: int): (r: int)
    ensures MinSkillRating <= r <= MaxSkillRating
    ensures MinSkillRating <= x <= MaxSkillRating ==> r == x
    ensures x < MinSkillRating ==> r == MinSkillRating
    ensures x > MaxSkillRating ==> r == MaxSkillRating
  {
    if x > MaxSkillRating then MaxSkillRating
    else if x < MinSkillRating then MinSkillRating
    else x
  }

  /** `updateSkillRating(points)`: the rating moves by `points` as far as the
      bounds allow; nothing else changes. */
  function RatingUpdated(p: Progress, points: int): (q: Progress)
    ensures q == p.(skillRating := q.skillRating)
    ensures MinSkillRating <= q.skillRating <= MaxSkillRating
    ensures MinSkillRating <= p.skillRating + points <= MaxSkillRating ==> q.skillRating == p.skillRating + points
    ensures p.skillRating + points < MinSkillRating ==> q.skillRating == MinSkillRating
    ensures p.skillRating + points > MaxSkillRating ==> q.skillRating == MaxSkillRating
  {
    p.(skillRating := ClampRating(p.skillRating + points))
  }

  /** A series of `updateSkillRating` calls. */
  function RatingSeries(p: Progress, points: seq<int>): Progress
    decreases |points|
  {
    if points == [] then p else RatingSeries(RatingUpdated(p, points[0]), points[1..])
  }

  /** However many updates are made, the rating stays in [0, 3000] after the
      first one, and only the rating changes. */
  lemma {:induction false} RatingSeriesInRange(p: Progress, points: seq<int>)
    requires points != [] || MinSkillRating <= p.skillRating <= MaxSkillRating
    ensures MinSkillRating <= RatingSeries(p, points).skillRating <= MaxSkillRating
    ensures RatingSeries(p, points) == p.(skillRating := RatingSeries(p, points).skillRating)
    decreases |points|
  {
    if points != [] {
      RatingSeriesInRange(RatingUpdated(p, points[0]), points[1..]);
    }
  }

  /** `unlockAchievement(id)`: only the achievement list changes. */
  function AchievementUnlocked(p: Progress, id: string): (q: Progress)
    ensures q == p.(achievements := q.achievements)
    ensures |q.achievements| == |p.achievements|
    ensures forall i :: 0 <= i < |p.achievements| ==>
      SameButUnlocked(p.achievements[i], q.achievements[i]) &&
      q.achievements[i].unlocked == (p.achievements[i].unlocked || p.achievements[i].id == id)
  {
    p.(achievements := UnlockAll(p.achievements, id))
  }

  /** `updateAchievementProgress(id, delta)`: only the achievement list changes;
      the matching entries advance and may unlock, the others stay as they were. */
  function AchievementProgressed(p: Progress, id: string, delta: int): (q: Progress)
    ensures q == p.(achievements := q.achievements)
    ensures |q.achievements| == |p.achievements|
    ensures forall i :: 0 <= i < |p.achievements| && p.achievements[i].id != id ==>
      q.achievements[i] == p.achievements[i]
    ensures forall i :: 0 <= i < |p.achievements| && p.achievements[i].id == id ==>
      var a := p.achievements[i];
      SameButProgress(a, q.achievements[i]) &&
      q.achievements[i].progress == Some(ProgressOf(a) + delta) &&
      q.achievements[i].unlocked == (a.unlocked || ReachesTotal(a, ProgressOf(a) + delta))
  {
    p.(achievements := AddProgressAll(p.achievements, id, delta))
  }

  /** `incrementStreak()`: the streak goes up by one, and "streak-7" is unlocked
      when the new streak is at least 7. */
  function StreakIncremented(p: Progress): (q: Progress)
    ensures q == p.(streak := q.streak, achievements := q.achievements)
    ensures q.streak == p.streak + 1
    ensures |q.achievements| == |p.achievements|
    ensures forall i :: 0 <= i < |p.achievements| ==>
      SameButUnlocked(p.achievements[i], q.achievements[i]) &&
      q.achievements[i].unlocked ==
        (p.achievements[i].unlocked || (p.achievements[i].id == StreakSevenId && p.streak + 1 >= 7))
  {
    var s := p.streak + 1;
    var r := p.(streak := s);
    if s >= 7 then AchievementUnlocked(r, StreakSevenId) else r
  }

  /** `resetStreak()`: the streak becomes 0; achievements are not touched. */
  function StreakReset(p: Progress): (q: Progress)
    ensures q.streak == 0
    ensures q == p.(streak := q.streak)
  {
    p.(streak := 0)
  }

  /** `markScenarioCompleted(id)`: the id is appended when absent, and
      "first-session" is unlocked when the list was empty before the call;
      an id already present changes nothing. */
  function ScenarioCompleted(p: Progress, id: string): (q: Progress)
    ensures q == p.(completedScenarios := q.completedScenarios, achievements := q.achievements)
    ensures id in q.completedScenarios
    ensures id in p.completedScenarios ==> q == p
    ensures id !in p.completedScenarios ==> q.completedScenarios == p.completedScenarios + [id]
    ensures |q.achievements| == |p.achievements|
    ensures forall i :: 0 <= i < |p.achievements| ==>
      SameButUnlocked(p.achievements[i], q.achievements[i]) &&
      q.achievements[i].unlocked ==
        (p.achievements[i].unlocked || (p.achievements[i].id == FirstSessionId && p.completedScenarios == []))
  {
    if id in p.completedScenarios then p
    else
      var r := p.(completedScenarios := p.completedScenarios + [id]);
      if p.completedScenarios == [] then AchievementUnlocked(r, FirstSessionId) else r
  }

  /** Completing the same scenario twice is completing it once. */
  lemma ScenarioCompletedIdempotent(p: Progress, id: string)
    ensures ScenarioCompleted(ScenarioCompleted(p, id), id) == ScenarioCompleted(p, id)
  {
  }

  /** A completed list without duplicates keeps having none. */
  lemma ScenarioCompletedKeepsDistinct(p: Progress, id: string)
    requires NoDuplicates(p.completedScenarios)
    ensures NoDuplicates(ScenarioCompleted(p, id).completedScenarios)
  {
    var c := p.completedScenarios;
    if id !in c {
      var d := c + [id];
      forall i, j | 0 <= i < j < |d| ensures d[i] != d[j] {
        if j == |c| {
          assert d[i] == c[i];
        }
      }
    }
  }

  // ---------------------------------------------------------------- daily check

  const DayMs := 24 * 60 * 60 * 1000
  /** The longest gap that does not reset the streak. */
  const StreakGapMs := 2 * DayMs

  /** One calendar convention: the UTC date, as whole days since the epoch. */
  function UtcDay(t: int): int {
    t / DayMs
  }

  datatype Visit = FirstVisit | Lapsed | NewDay | SameDay

  /** How the startup effect classifies this visit against the last one. */
  function ClassifyVisit(lastActiveDate: Option<int>, now: int, calendarDay: int -> int): Visit {
    match lastActiveDate
    case None => FirstVisit
    case Some(last) =>
      if now - last > StreakGapMs then Lapsed
      else if calendarDay(now) != calendarDay(last) then NewDay
      else SameDay
  }

  /** The startup effect: with no last date, the date is set and the streak kept;
      a gap over two days resets the streak; otherwise a different calendar day
      increments it and the same day keeps it. The last date becomes `now`. */
  function DailyChecked(p: Progress, now: int, calendarDay: int -> int): (q: Progress)
    ensures q.lastActiveDate == Some(now)
    ensures q.skillRating == p.skillRating && q.completedScenarios == p.completedScenarios
    ensures p.lastActiveDate.None? ==> q == p.(lastActiveDate := Some(now))
    ensures p.lastActiveDate.Some? && now - p.lastActiveDate.value > StreakGapMs ==>
      q == p.(streak := 0, lastActiveDate := Some(now))
    ensures p.lastActiveDate.Some? && now - p.lastActiveDate.value <= StreakGapMs &&
            calendarDay(now) != calendarDay(p.lastActiveDate.value) ==>
      q.streak == p.streak + 1 && q == StreakIncremented(p).(lastActiveDate := Some(now))
    ensures p.lastActiveDate.Some? && now - p.lastActiveDate.value <= StreakGapMs &&
            calendarDay(now) == calendarDay(p.lastActiveDate.value) ==>
      q == p.(lastActiveDate := Some(now))
  {
    match ClassifyVisit(p.lastActiveDate, now, calendarDay)
    case FirstVisit => p.(lastActiveDate := Some(now))
    case Lapsed => StreakReset(p).(lastActiveDate := Some(now))
    case NewDay => StreakIncremented(p).(lastActiveDate := Some(now))
    case SameDay => p.(lastActiveDate := Some(now))
  }

  /** Running the check again at the same instant changes nothing. */
  lemma DailyCheckedAgainIsNoOp(p: Progress, now: int, calendarDay: int -> int)
    ensures DailyChecked(DailyChecked(p, now, calendarDay), now, calendarDay) == DailyChecked(p, now, calendarDay)
  {
  }

  lemma UtcDayStep(t: int, k: int)
    ensures UtcDay(t + k * DayMs) == UtcDay(t) + k
  {
    var q, r := t / DayMs, t % DayMs;
    assert t + k * DayMs == (q + k) * DayMs + r;
  }

  /** Last active three days ago: the streak resets, whatever the calendar. */
  lemma ThreeDaysAgoResets(p: Progress, now: int, calendarDay: int -> int)
    requires p.lastActiveDate == Some(now - 3 * DayMs)
    ensures DailyChecked(p, now, calendarDay).streak == 0
  {
  }

  /** Last active exactly one day ago (UTC): the streak goes up by one. */
  lemma YesterdayIncrements(p: Progress, now: int)
    requires p.lastActiveDate == Some(now - DayMs)
    ensures DailyChecked(p, now, UtcDay).streak == p.streak + 1
  {
    UtcDayStep(now - DayMs, 1);
  }

  /** Last active exactly two days ago (UTC): the missed day does not break the
      streak, which still goes up by one. */
  lemma SkippedDayStillIncrements(p: Progress, now: int)
    requires p.lastActiveDate == Some(now - 2 * DayMs)
    ensures DailyChecked(p, now, UtcDay).streak == p.streak + 1
  {
    UtcDayStep(now - 2 * DayMs, 2);
  }

  /** Last active earlier on the same UTC day: the streak is unchanged. */
  lemma SameDayKeeps(p: Progress, now: int)
    requires p.lastActiveDate.Some? && p.lastActiveDate.value <= now
    requires UtcDay(p.lastActiveDate.value) == UtcDay(now)
    ensures DailyChecked(p, now, UtcDay).streak == p.streak
  {
    var last := p.lastActiveDate.value;
    assert now - last < DayMs by {
      var q := now / DayMs;
      assert q * DayMs <= last;
      assert now < (q + 1) * DayMs;
    }
  }

  // ---------------------------------------------------------------- persistence

  const SkillRatingKey := "psyclone_skillRating"
  const AchievementsKey := "psyclone_achievements"
  const StreakKey := "psyclone_streak"
  const LastActiveDateKey := "psyclone_lastActiveDate"
  const CompletedScenariosKey := "psyclone_completedScenarios"

  const DefaultSkillRating := 500
  const DefaultStreak := 0

  /** The five storage keys are pairwise different. */
  lemma KeysDistinct()
    ensures SkillRatingKey != AchievementsKey && SkillRatingKey != StreakKey
    ensures SkillRatingKey != LastActiveDateKey && SkillRatingKey != CompletedScenariosKey
    ensures AchievementsKey != StreakKey && AchievementsKey != LastActiveDateKey
    ensures AchievementsKey != CompletedScenariosKey && StreakKey != LastActiveDateKey
    ensures StreakKey != CompletedScenariosKey && LastActiveDateKey != CompletedScenariosKey
  {
    assert |SkillRatingKey| == 20 && |StreakKey| == 15 && |AchievementsKey| == 21;
    assert |LastActiveDateKey| == 23 && |CompletedScenariosKey| == 27;
  }

  /** `saved ? parseInt(saved, 10) : default` for the text under `key`. */
  function LoadInt(entries: Entries, key: string, default: int): (r: int)
    ensures TextAt(entries, key).None? ==> r == default
    ensures TextAt(entries, key) == Some("") ==> r == default
    ensures TextAt(entries, key).Some? && ParseInt(TextAt(entries, key).value).None? ==> r == default
  {
    match TextAt(entries, key)
    case Some(saved) => if saved == "" then default else ParseInt(saved).GetOr(default)
    case None => default
  }

  /** `saved ? JSON.parse(saved) : initialAchievements` */
  function LoadAchievements(entries: Entries): (r: seq<Achievement>)
    ensures AchievementsKey !in entries ==> r == InitialAchievements
    ensures AchievementsKey in entries && entries[AchievementsKey].AchievementList? ==>
      r == entries[AchievementsKey].achievements
  {
    if AchievementsKey in entries && entries[AchievementsKey].AchievementList?
    then entries[AchievementsKey].achievements else InitialAchievements
  }

  /** `saved ? new Date(saved) : null` */
  function LoadDate(entries: Entries): (r: Option<int>)
    ensures r.Some? <==> LastActiveDateKey in entries && entries[LastActiveDateKey].Instant?
    ensures r.Some? ==> r.value == entries[LastActiveDateKey].ms
  {
    if LastActiveDateKey in entries && entries[LastActiveDateKey].Instant?
    then Some(entries[LastActiveDateKey].ms) else None
  }

  /** `saved ? JSON.parse(saved) : []` */
  function LoadCompleted(entries: Entries): (r: seq<string>)
    ensures CompletedScenariosKey !in entries ==> r == []
    ensures CompletedScenariosKey in entries && entries[CompletedScenariosKey].IdList? ==>
      r == entries[CompletedScenariosKey].ids
  {
    if CompletedScenariosKey in entries && entries[CompletedScenariosKey].IdList?
    then entries[CompletedScenariosKey].ids else []
  }

  /** The initial state read from storage, each absent field taking its default. */
  function Loaded(entries: Entries): (p: Progress)
    ensures SkillRatingKey !in entries ==> p.skillRating == DefaultSkillRating
    ensures AchievementsKey !in entries ==> p.achievements == InitialAchievements
    ensures StreakKey !in entries ==> p.streak == DefaultStreak
    ensures LastActiveDateKey !in entries ==> p.lastActiveDate.None?
    ensures CompletedScenariosKey !in entries ==> p.completedScenarios == []
    ensures entries == map[] ==> p == Progress(DefaultSkillRating, InitialAchievements, DefaultStreak, None, [])
  {
    Progress(
      LoadInt(entries, SkillRatingKey, DefaultSkillRating),
      LoadAchievements(entries),
      LoadInt(entries, StreakKey, DefaultStreak),
      LoadDate(entries),
      LoadCompleted(entries))
  }

  /** The storage after the persistence effect writes `p`; the date is written
      only when there is one. */
  function Saved(entries: Entries, p: Progress): (r: Entries)
    ensures SkillRatingKey in r && AchievementsKey in r && StreakKey in r && CompletedScenariosKey in r
    ensures r[SkillRatingKey] == Text(IntToString(p.skillRating))
    ensures r[AchievementsKey] == AchievementList(p.achievements)
    ensures r[StreakKey] == Text(IntToString(p.streak))
    ensures r[CompletedScenariosKey] == IdList(p.completedScenarios)
    ensures p.lastActiveDate.Some? ==> LastActiveDateKey in r && r[LastActiveDateKey] == Instant(p.lastActiveDate.value)
    ensures p.lastActiveDate.None? ==>
      (LastActiveDateKey in r <==> LastActiveDateKey in entries) &&
      (LastActiveDateKey in entries ==> r[LastActiveDateKey] == entries[LastActiveDateKey])
  {
    KeysDistinct();
    var fields := entries[SkillRatingKey := Text(IntToString(p.skillRating))]
                         [AchievementsKey := AchievementList(p.achievements)]
                         [StreakKey := Text(IntToString(p.streak))];
    var dated := if p.lastActiveDate.Some? then fields[LastActiveDateKey := Instant(p.lastActiveDate.value)] else fields;
    assert dated[SkillRatingKey] == fields[SkillRatingKey] && dated[AchievementsKey] == fields[AchievementsKey];
    assert dated[StreakKey] == fields[StreakKey];
    dated[CompletedScenariosKey := IdList(p.completedScenarios)]
  }

  /** An integer field written with `toString` loads back as itself. */
  lemma LoadIntOfText(entries: Entries, key: string, n: int, default: int)
    requires key in entries && entries[key] == Text(IntToString(n))
    ensures LoadInt(entries, key, default) == n
  {
    ParseIntOfIntToString(n);
    assert TextAt(entries, key) == Some(IntToString(n));
  }

  /** What is saved loads back unchanged, except that an absent date leaves the
      previously stored date in place. */
  lemma SavedThenLoaded(entries: Entries, p: Progress)
    ensures Loaded(Saved(entries, p)) ==
      p.(lastActiveDate := if p.lastActiveDate.Some? then p.lastActiveDate else Loaded(entries).lastActiveDate)
  {
    var e := Saved(entries, p);
    LoadIntOfText(e, SkillRatingKey, p.skillRating, DefaultSkillRating);
    LoadIntOfText(e, StreakKey, p.streak, DefaultStreak);
    assert LoadAchievements(e) == p.achievements;
    assert LoadCompleted(e) == p.completedScenarios;
    assert LoadDate(e) == if p.lastActiveDate.Some? then p.lastActiveDate else LoadDate(entries);
  }

  /** Saving writes only the five progress keys: every other entry survives. */
  lemma SavedKeepsOtherKeys(entries: Entries, p: Progress, key: string)
    requires key !in {SkillRatingKey, AchievementsKey, StreakKey, LastActiveDateKey, CompletedScenariosKey}
    ensures key in Saved(entries, p) <==> key in entries
    ensures key in entries ==> Saved(entries, p)[key] == entries[key]
  {
  }

  /** A second save with a date overwrites everything the first one wrote. */
  lemma SavedTwice(entries: Entries, p: Progress, q: Progress)
    requires q.lastActiveDate.Some?
    ensures Saved(Saved(entries, p), q) == Saved(entries, q)
  {
  }

  // ---------------------------------------------------------------- provider

  /** The provider: its state fields and the store it mirrors them to. */
  class ProgressProvider {
    const store: Store
    var skillRating: int
    var achievements: seq<Achievement>
    var streak: int
    var lastActiveDate: Option<int>
    var completedScenarios: seq<string>

    function Snapshot(): Progress
      reads this
    {
      Progress(skillRating, achievements, streak, lastActiveDate, completedScenarios)
    }

    /** The derived `userLevel`. */
    function CurrentLevel(): (r: UserLevel)
      reads this
      ensures r in CareerLevels
      ensures InBand(r, skillRating) ||
        (r == StudentTherapist && forall i :: 0 <= i < |CareerLevels| ==> !InBand(CareerLevels[i], skillRating))
    {
      LevelFor(skillRating)
    }

    /** Mounting: load every field from storage, persist, run the daily streak
        check once, and persist the result. */
    constructor Mount(store: Store, now: int, calendarDay: int -> int)
      modifies store
      ensures this.store == store
      ensures Snapshot() == DailyChecked(Loaded(old(store.entries)), now, calendarDay)
      ensures store.entries == Saved(old(store.entries), Snapshot())
    {
      var loaded := Loaded(store.entries);
      this.store := store;
      skillRating := loaded.skillRating;
      achievements := loaded.achievements;
      streak := loaded.streak;
      lastActiveDate := loaded.lastActiveDate;
      completedScenarios := loaded.completedScenarios;
      new;
      Persist();
      CheckDailyStreak(now, calendarDay);
      Persist();
      SavedTwice(old(store.entries), loaded, Snapshot());
    }

    method UpdateSkillRating(points: int)
      modifies this
      ensures Snapshot() == RatingUpdated(old(Snapshot()), points)
    {
      skillRating := ClampRating(skillRating + points);
    }

    method UnlockAchievement(id: string)
      modifies this
      ensures Snapshot() == AchievementUnlocked(old(Snapshot()), id)
    {
      achievements := UnlockAll(achievements, id);
    }

    method UpdateAchievementProgress(id: string, delta: int)
      modifies this
      ensures Snapshot() == AchievementProgressed(old(Snapshot()), id, delta)
    {
      achievements := AddProgressAll(achievements, id, delta);
    }

    method IncrementStreak()
      modifies this
      ensures Snapshot() == StreakIncremented(old(Snapshot()))
    {
      var next := streak + 1;
      streak := next;
      if next >= 7 {
        UnlockAchievement(StreakSevenId);
      }
    }

    method ResetStreak()
      modifies this
      ensures Snapshot() == StreakReset(old(Snapshot()))
    {
      streak := 0;
    }

    method MarkScenarioCompleted(id: string)
      modifies this
      ensures Snapshot() == ScenarioCompleted(old(Snapshot()), id)
    {
      if id !in completedScenarios {
        var wasEmpty := completedScenarios == [];
        completedScenarios := completedScenarios + [id];
        if wasEmpty {
          UnlockAchievement(FirstSessionId);
        }
      }
    }

    /** The startup streak effect, which runs once per mount. */
    method CheckDailyStreak(now: int, calendarDay: int -> int)
      modifies this
      ensures Snapshot() == DailyChecked(old(Snapshot()), now, calendarDay)
    {
      match lastActiveDate
      case None =>
        lastActiveDate := Some(now);
      case Some(last) =>
        if now - last > StreakGapMs {
          ResetStreak();
        } else if calendarDay(now) != calendarDay(last) {
          IncrementStreak();
        }
        lastActiveDate := Some(now);
    }

    /** The persistence effect: every field is written, the date only when set. */
    method Persist()
      modifies store
      ensures store.entries == Saved(old(store.entries), Snapshot())
    {
      store.SetItem(SkillRatingKey, Text(IntToString(skillRating)));
      store.SetItem(AchievementsKey, AchievementList(achievements));
      store.SetItem(StreakKey, Text(IntToString(streak)));
      if lastActiveDate.Some? {
        store.SetItem(LastActiveDateKey, Instant(lastActiveDate.value));
      }
      store.SetItem(CompletedScenariosKey, IdList(completedScenarios));
    }
  }
}
