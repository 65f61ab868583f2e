/**
 * The progress and reward engine of src/data/appState.ts: the persisted
 * settings and game-progress records with their defaults, the applied-session
 * log that makes applying a finished session happen at most once, and the
 * XP and streak rules.
 *
 * window.localStorage is a map from keys to strings; JSON.parse and
 * JSON.stringify are the functions of a `Codec`, about which the model only
 * assumes that stringifying never gives the empty string and that parsing
 * what was stringified gives the value back.
 */
module AppState {
  import opened Wrappers

  // ---------------------------------------------------------------- records

  datatype Settings = Settings(showEri: bool, reduceMotion: bool)

  /** A settings object as JSON may hold it or a caller may pass it: any field may be missing. */
  datatype SettingsPatch = SettingsPatch(showEri: Option<bool>, reduceMotion: Option<bool>)

  datatype Progress = Progress(
    totalXP: int,
    streakDays: int,
    badgesEarned: int,
    missionsCompletedToday: int,
    lastSessionScore: int,
    lastSessionTotal: int,
    lastSessionAt: Option<string>)

  /** A parsed progress object, some of whose fields may be missing. */
  datatype ProgressPatch = ProgressPatch(
    totalXP: Option<int>,
    streakDays: Option<int>,
    badgesEarned: Option<int>,
    missionsCompletedToday: Option<int>,
    lastSessionScore: Option<int>,
    lastSessionTotal: Option<int>,
    lastSessionAt: Option<Option<string>>)

  datatype EnglishPhase = Write | Speak | Listening

  datatype MissionMode = MathPractice | English

  datatype EnglishStats = EnglishStats(
    completedPhases: seq<EnglishPhase>,
    writeChars: int,
    speakTurns: int,
    listeningTurns: int)

  datatype PartResult = PartResult(
    id: string, prompt: string, userAnswer: string, acceptedAnswers: seq<string>, isCorrect: bool)

  datatype QuestionResult = QuestionResult(
    id: int,
    question: string,
    isCorrect: bool,
    userAnswer: Option<string>,
    acceptedAnswers: Option<seq<string>>,
    parts: Option<seq<PartResult>>)

  /** What a finished practice or English session hands to the reward engine. */
  datatype Summary = Summary(
    sessionId: string,
    score: int,
    total: int,
    hintsUsed: int,
    questionResults: Option<seq<QuestionResult>>,
    missionMode: Option<MissionMode>,
    english: Option<EnglishStats>)

  datatype StreakChange = Up | Down | Same

  datatype Rewards = Rewards(xpEarned: int, streakChanged: StreakChange)

  /** The `{ progress, rewards }` pair applyPracticeSession returns. */
  datatype Outcome = Outcome(progress: Progress, rewards: Rewards)

  const SettingsKey: string := "errorbook:settings"
  const ProgressKey: string := "errorbook:progress"
  const AppliedSessionsKey: string := "errorbook:applied-sessions"

  const DefaultSettings: Settings := Settings(true, false)

  const DefaultProgress: Progress := Progress(1230, 7, 2, 1, 2, 3, None)

  // ---------------------------------------------------- defaults and merging

  function SettingsAsPatch(s: Settings): SettingsPatch {
    SettingsPatch(Some(s.showEri), Some(s.reduceMotion))
  }

  function ProgressAsPatch(p: Progress): ProgressPatch {
    ProgressPatch(Some(p.totalXP), Some(p.streakDays), Some(p.badgesEarned),
                  Some(p.missionsCompletedToday), Some(p.lastSessionScore),
                  Some(p.lastSessionTotal), Some(p.lastSessionAt))
  }

  /** `{ ...base, ...patch }` for settings. */
  function MergeSettings(base: Settings, patch: SettingsPatch): (r: Settings)
    ensures patch.showEri.Some? ==> r.showEri == patch.showEri.value
    ensures patch.showEri.None? ==> r.showEri == base.showEri
    ensures patch.reduceMotion.Some? ==> r.reduceMotion == patch.reduceMotion.value
    ensures patch.reduceMotion.None? ==> r.reduceMotion == base.reduceMotion
  {
    Settings(patch.showEri.GetOr(base.showEri), patch.reduceMotion.GetOr(base.reduceMotion))
  }

  /** `{ ...base, ...patch }` for game progress. */
  function MergeProgress(base: Progress, patch: ProgressPatch): (r: Progress)
    ensures patch.totalXP.Some? ==> r.totalXP == patch.totalXP.value
    ensures patch.totalXP.None? ==> r.totalXP == base.totalXP
    ensures patch.streakDays.Some? ==> r.streakDays == patch.streakDays.value
    ensures patch.streakDays.None? ==> r.streakDays == base.streakDays
    ensures patch.badgesEarned.Some? ==> r.badgesEarned == patch.badgesEarned.value
    ensures patch.badgesEarned.None? ==> r.badgesEarned == base.badgesEarned
    ensures patch.missionsCompletedToday.Some? ==> r.missionsCompletedToday == patch.missionsCompletedToday.value
    ensures patch.missionsCompletedToday.None? ==> r.missionsCompletedToday == base.missionsCompletedToday
    ensures patch.lastSessionScore.Some? ==> r.lastSessionScore == patch.lastSessionScore.value
    ensures patch.lastSessionScore.None? ==> r.lastSessionScore == base.lastSessionScore
    ensures patch.lastSessionTotal.Some? ==> r.lastSessionTotal == patch.lastSessionTotal.value
    ensures patch.lastSessionTotal.None? ==> r.lastSessionTotal == base.lastSessionTotal
    ensures patch.lastSessionAt.Some? ==> r.lastSessionAt == patch.lastSessionAt.value
    ensures patch.lastSessionAt.None? ==> r.lastSessionAt == base.lastSessionAt
  {
    Progress(
      patch.totalXP.GetOr(base.totalXP),
      patch.streakDays.GetOr(base.streakDays),
      patch.badgesEarned.GetOr(base.badgesEarned),
      patch.missionsCompletedToday.GetOr(base.missionsCompletedToday),
      patch.lastSessionScore.GetOr(base.lastSessionScore),
      patch.lastSessionTotal.GetOr(base.lastSessionTotal),
      patch.lastSessionAt.GetOr(base.lastSessionAt))
  }

  /** Merging a complete record over any base gives that record. */
  lemma MergeComplete(base: Progress, p: Progress, b: Settings, s: Settings)
    ensures MergeProgress(base, ProgressAsPatch(p)) == p
    ensures MergeSettings(b, SettingsAsPatch(s)) == s
  {
  }

  // ------------------------------------------------------------ the storage

  /** JSON.parse for each stored record (None when it throws) and JSON.stringify. */
  datatype Codec = Codec(
    parseSettings: string -> Option<SettingsPatch>,
    stringifySettings: Settings -> string,
    parseProgress: string -> Option<ProgressPatch>,
    stringifyProgress: Progress -> string,
    parseSessions: string -> Option<seq<string>>,
    stringifySessions: seq<string> -> string)

  /** JSON.stringify never yields the empty string, and JSON.parse reads back what it wrote. */
  ghost predicate RoundTrips(c: Codec) {
    && (forall s: Settings {:trigger c.stringifySettings(s)} ::
          c.stringifySettings(s) != "" && c.parseSettings(c.stringifySettings(s)) == Some(SettingsAsPatch(s)))
    && (forall p: Progress {:trigger c.stringifyProgress(p)} ::
          c.stringifyProgress(p) != "" && c.parseProgress(c.stringifyProgress(p)) == Some(ProgressAsPatch(p)))
    && (forall l: seq<string> {:trigger c.stringifySessions(l)} ::
          c.stringifySessions(l) != "" && c.parseSessions(c.stringifySessions(l)) == Some(l))
  }

  /** localStorage.getItem: the stored string, or null. */
  function GetItem(items: map<string, string>, key: string): (r: Option<string>)
    ensures r.Some? <==> key in items
    ensures r.Some? ==> r.value == items[key]
  {
    if key in items then Some(items[key]) else None
  }

  /** parseJSON: the fallback for null or "" and for text JSON.parse rejects,
      otherwise what JSON.parse produced. */
  function ParseJSON<T>(value: Option<string>, parse: string -> Option<T>, fallback: T): (r: T)
    ensures value == None || value == Some("") ==> r == fallback
    ensures value.Some? && value.value != "" && parse(value.value).None? ==> r == fallback
    ensures value.Some? && value.value != "" && parse(value.value).Some? ==> Some(r) == parse(value.value)
  {
    match value
    case None => fallback
    case Some(text) =>
      if text == "" then fallback
      else parse(text).GetOr(fallback)
  }

  /** getAppSettings over the stored strings. Outside a browser it is the defaults. */
  function ReadSettings(c: Codec, inBrowser: bool, items: map<string, string>): (r: Settings)
    ensures !inBrowser || SettingsKey !in items ==> r == DefaultSettings
  {
    if !inBrowser then DefaultSettings
    else MergeSettings(DefaultSettings,
                       ParseJSON(GetItem(items, SettingsKey), c.parseSettings, SettingsAsPatch(DefaultSettings)))
  }

  /** getGameProgress over the stored strings. */
  function ReadProgress(c: Codec, inBrowser: bool, items: map<string, string>): (r: Progress)
    ensures !inBrowser || ProgressKey !in items ==> r == DefaultProgress
  {
    if !inBrowser then DefaultProgress
    else MergeProgress(DefaultProgress,
                       ParseJSON(GetItem(items, ProgressKey), c.parseProgress, ProgressAsPatch(DefaultProgress)))
  }

  /** getAppliedSessions over the stored strings. */
  function ReadAppliedSessions(c: Codec, inBrowser: bool, items: map<string, string>): (r: seq<string>)
    ensures !inBrowser || AppliedSessionsKey !in items ==> r == []
    ensures inBrowser && AppliedSessionsKey in items && items[AppliedSessionsKey] != ""
            && c.parseSessions(items[AppliedSessionsKey]).Some?
            ==> r == c.parseSessions(items[AppliedSessionsKey]).value
    ensures inBrowser && AppliedSessionsKey in items
            && (items[AppliedSessionsKey] == "" || c.parseSessions(items[AppliedSessionsKey]).None?)
            ==> r == []
  {
    if !inBrowser then []
    else ParseJSON(GetItem(items, AppliedSessionsKey), c.parseSessions, [])
  }

  /** Stored progress fields override the defaults and missing ones take the
      default value; nothing stored, an empty string or text that does not
      parse gives the defaults. */
  lemma ReadProgressMerges(c: Codec, items: map<string, string>)
    ensures ProgressKey !in items ==> ReadProgress(c, true, items) == DefaultProgress
    ensures ProgressKey in items && (items[ProgressKey] == "" || c.parseProgress(items[ProgressKey]).None?)
            ==> ReadProgress(c, true, items) == DefaultProgress
    ensures ProgressKey in items && items[ProgressKey] != "" && c.parseProgress(items[ProgressKey]).Some? ==>
            var patch := c.parseProgress(items[ProgressKey]).value;
            var r := ReadProgress(c, true, items);
            && r.totalXP == patch.totalXP.GetOr(1230)
            && r.streakDays == patch.streakDays.GetOr(7)
            && r.badgesEarned == patch.badgesEarned.GetOr(2)
            && r.missionsCompletedToday == patch.missionsCompletedToday.GetOr(1)
            && r.lastSessionScore == patch.lastSessionScore.GetOr(2)
            && r.lastSessionTotal == patch.lastSessionTotal.GetOr(3)
            && r.lastSessionAt == patch.lastSessionAt.GetOr(None)
    ensures ReadProgress(c, false, items) == DefaultProgress
  {
  }

  /** The same for settings: showEri defaults to true, reduceMotion to false. */
  lemma ReadSettingsMerges(c: Codec, items: map<string, string>)
    ensures SettingsKey !in items ==> ReadSettings(c, true, items) == DefaultSettings
    ensures SettingsKey in items && (items[SettingsKey] == "" || c.parseSettings(items[SettingsKey]).None?)
            ==> ReadSettings(c, true, items) == DefaultSettings
    ensures SettingsKey in items && items[SettingsKey] != "" && c.parseSettings(items[SettingsKey]).Some? ==>
            var patch := c.parseSettings(items[SettingsKey]).value;
            var r := ReadSettings(c, true, items);
            && r.showEri == patch.showEri.GetOr(true)
            && r.reduceMotion == patch.reduceMotion.GetOr(false)
    ensures ReadSettings(c, false, items) == DefaultSettings
  {
  }

  /** What was stored under one key is read back, and writing one key does not
      change what the other two read. */
  lemma ReadAfterWrite(c: Codec, items: map<string, string>, s: Settings, p: Progress, l: seq<string>)
    requires RoundTrips(c)
    ensures ReadSettings(c, true, items[SettingsKey := c.stringifySettings(s)]) == s
    ensures ReadProgress(c, true, items[ProgressKey := c.stringifyProgress(p)]) == p
    ensures ReadAppliedSessions(c, true, items[AppliedSessionsKey := c.stringifySessions(l)]) == l
    ensures ReadProgress(c, true, items[AppliedSessionsKey := c.stringifySessions(l)]) == ReadProgress(c, true, items)
    ensures ReadAppliedSessions(c, true, items[ProgressKey := c.stringifyProgress(p)]) == ReadAppliedSessions(c, true, items)
    ensures ReadSettings(c, true, items[ProgressKey := c.stringifyProgress(p)]) == ReadSettings(c, true, items)
    ensures ReadSettings(c, true, items[AppliedSessionsKey := c.stringifySessions(l)]) == ReadSettings(c, true, items)
    ensures ReadProgress(c, true, items[SettingsKey := c.stringifySettings(s)]) == ReadProgress(c, true, items)
    ensures ReadAppliedSessions(c, true, items[SettingsKey := c.stringifySettings(s)]) == ReadAppliedSessions(c, true, items)
  {
    assert c.parseSettings(c.stringifySettings(s)) == Some(SettingsAsPatch(s));
    assert c.parseProgress(c.stringifyProgress(p)) == Some(ProgressAsPatch(p));
    assert c.parseSessions(c.stringifySessions(l)) == Some(l);
    MergeComplete(DefaultProgress, p, DefaultSettings, s);
  }

  // -------------------------------------------------------------- XP rules

  function Max(a: int, b: int): int { if a >= b then a else b }
  function Min(a: int, b: int): int { if a <= b then a else b }

  /** estimateSessionXP: 15, plus 5 per point of the score clamped to
      [0, total], plus 10 when the clamped score equals the total. The bonus
      has no `total > 0` guard, so an empty session earns 25. */
  function EstimateSessionXP(score: int, total: int): (xp: int)
    ensures xp >= 15
  {
    var bounded := Max(0, Min(score, total));
    15 + bounded * 5 + (if bounded == total then 10 else 0)
  }

  lemma EstimateSessionXPExamples()
    ensures EstimateSessionXP(3, 3) == 40
    ensures EstimateSessionXP(1, 3) == 20
    ensures EstimateSessionXP(0, 0) == 25
    ensures EstimateSessionXP(5, 3) == 40
    ensures EstimateSessionXP(-2, 3) == 15
  {
  }

  /** For a non-negative total the estimate lies in [15, 25 + 5 * total]; it
      reaches the top exactly when the clamped score is the total. */
  lemma EstimateSessionXPBounds(score: int, total: int)
    requires total >= 0
    ensures 15 <= EstimateSessionXP(score, total) <= 25 + 5 * total
    ensures EstimateSessionXP(score, total) == 25 + 5 * total <==> score >= total || total == 0
  {
  }

  /** A higher score never earns less. */
  lemma EstimateSessionXPMonotone(score1: int, score2: int, total: int)
    requires score1 <= score2
    ensures EstimateSessionXP(score1, total) <= EstimateSessionXP(score2, total)
  {
    var b1 := Max(0, Min(score1, total));
    var b2 := Max(0, Min(score2, total));
    assert b1 <= b2;
  }

  // ---------------------------------------------------------- streak rules

  /** `accuracy >= 0.67` with accuracy = score / total, or 0 when total <= 0,
      stated on integers. */
  predicate HighAccuracy(score: int, total: int) {
    total > 0 && 100 * score >= 67 * total
  }

  /** 2 of 3 is 0.666..., below the threshold; 67 of 100 is on it. */
  lemma HighAccuracyExamples()
    ensures !HighAccuracy(2, 3) && HighAccuracy(3, 3) && !HighAccuracy(0, 3)
    ensures HighAccuracy(67, 100) && !HighAccuracy(66, 100) && !HighAccuracy(0, 0)
  {
  }

  /** The next streak: one more after a high-accuracy session, otherwise one
      less but never below 1. */
  function NextStreak(streak: int, score: int, total: int): (r: int)
    ensures HighAccuracy(score, total) ==> r == streak + 1
    ensures !HighAccuracy(score, total) ==> r >= 1 && (streak >= 2 ==> r == streak - 1) && (streak <= 1 ==> r == 1)
  {
    if HighAccuracy(score, total) then streak + 1 else Max(1, streak - 1)
  }

  function StreakChangeOf(before: int, after: int): (c: StreakChange)
    ensures c == Up <==> after > before
    ensures c == Down <==> after < before
    ensures c == Same <==> after == before
  {
    if after > before then Up else if after < before then Down else Same
  }

  /** At streak 1 a low-accuracy session leaves the streak where it is. */
  lemma StreakFloor(score: int, total: int)
    requires !HighAccuracy(score, total)
    ensures NextStreak(1, score, total) == 1
    ensures StreakChangeOf(1, NextStreak(1, score, total)) == Same
  {
  }

  // ------------------------------------------------- applying one session

  /** The rewards part of a fresh application. */
  function FreshRewards(p: Progress, s: Summary): (r: Rewards)
    ensures r.xpEarned == EstimateSessionXP(s.score, s.total)
    ensures r.streakChanged == Up <==> HighAccuracy(s.score, s.total) || p.streakDays <= 0
    ensures r.streakChanged == Down <==> !HighAccuracy(s.score, s.total) && p.streakDays >= 2
  {
    Rewards(EstimateSessionXP(s.score, s.total),
            StreakChangeOf(p.streakDays, NextStreak(p.streakDays, s.score, s.total)))
  }

  /** The progress record after a session that was not applied before. */
  function FreshProgress(p: Progress, s: Summary, now: string): (r: Progress)
    ensures r.totalXP == p.totalXP + FreshRewards(p, s).xpEarned
    ensures r.streakDays == NextStreak(p.streakDays, s.score, s.total)
    ensures r.missionsCompletedToday == Min(3, p.missionsCompletedToday + 1)
    ensures r.badgesEarned == if s.score == s.total then p.badgesEarned + 1 else p.badgesEarned
    ensures r.lastSessionScore == s.score && r.lastSessionTotal == s.total
    ensures r.lastSessionAt == Some(now)
  {
    Progress(
      p.totalXP + EstimateSessionXP(s.score, s.total),
      NextStreak(p.streakDays, s.score, s.total),
      if s.score == s.total then p.badgesEarned + 1 else p.badgesEarned,
      Min(3, p.missionsCompletedToday + 1),
      s.score,
      s.total,
      Some(now))
  }

  /** applyPracticeSession on values: a session whose id is already in the
      log returns the progress unchanged with no XP and streak 'same'. */
  function Apply(p: Progress, log: seq<string>, s: Summary, now: string): (o: Outcome)
    ensures s.sessionId in log ==> o == Outcome(p, Rewards(0, Same))
    ensures s.sessionId !in log ==> o.rewards.xpEarned >= 15 && o.progress.totalXP > p.totalXP
    ensures o.progress.totalXP == p.totalXP + o.rewards.xpEarned
  {
    if s.sessionId in log then Outcome(p, Rewards(0, Same))
    else Outcome(FreshProgress(p, s, now), FreshRewards(p, s))
  }

  /** markSessionApplied on values: append the id only when it is absent. */
  function LogAfter(log: seq<string>, id: string): (r: seq<string>)
    ensures id in r
    ensures id in log ==> r == log
    ensures id !in log ==> r == log + [id]
  {
    if id in log then log else log + [id]
  }

  predicate NoDuplicates(log: seq<string>) {
    forall i, j :: 0 <= i < j < |log| ==> log[i] != log[j]
  }

  /** The log never gains a duplicate. */
  lemma LogAfterNoDuplicates(log: seq<string>, id: string)
    requires NoDuplicates(log)
    ensures NoDuplicates(LogAfter(log, id))
  {
    if id !in log {
      var r := log + [id];
      forall i, j | 0 <= i < j < |r| ensures r[i] != r[j] {
        if j == |log| {
          assert r[i] == log[i];
          assert log[i] in log;
        }
      }
    }
  }

  /** The second application of the same session, with the log the first
      left behind, changes nothing and earns nothing. */
  lemma ApplyIsIdempotent(p: Progress, log: seq<string>, s: Summary, now1: string, now2: string)
    ensures var first := Apply(p, log, s, now1);
            var log1 := LogAfter(log, s.sessionId);
            && Apply(first.progress, log1, s, now2) == Outcome(first.progress, Rewards(0, Same))
            && LogAfter(log1, s.sessionId) == log1
  {
  }

  /** The bounds the persisted record keeps. */
  predicate WellFormed(p: Progress) {
    p.totalXP >= 0 && p.streakDays >= 1 && p.badgesEarned >= 0 && 0 <= p.missionsCompletedToday <= 3
  }

  lemma DefaultsWellFormed()
    ensures WellFormed(DefaultProgress)
  {
  }

  /** Applying any session keeps the record within its bounds: XP is never
      subtracted, the streak stays at least 1, the mission count stays within
      [0, 3] and badges only increase. */
  lemma ApplyPreservesWellFormed(p: Progress, log: seq<string>, s: Summary, now: string)
    requires WellFormed(p)
    ensures var q := Apply(p, log, s, now).progress;
            && WellFormed(q)
            && q.totalXP >= p.totalXP
            && q.badgesEarned >= p.badgesEarned
            && q.missionsCompletedToday >= p.missionsCompletedToday
  {
  }

  // ------------------------------------------------------ the store object

  /** window.localStorage together with the JSON functions used on it. */
  class Store {
    var items: map<string, string>
    const inBrowser: bool
    const codec: Codec

    ghost predicate Valid() {
      RoundTrips(codec)
    }

    constructor (codec: Codec, inBrowser: bool, items: map<string, string>)
      requires RoundTrips(codec)
      ensures Valid()
      ensures this.codec == codec && this.inBrowser == inBrowser && this.items == items
    {
      this.codec := codec;
      this.inBrowser := inBrowser;
      this.items := items;
    }

    method GetAppSettings() returns (s: Settings)
      ensures s == ReadSettings(codec, inBrowser, items)
    {
      s := ReadSettings(codec, inBrowser, items);
    }

    method GetGameProgress() returns (p: Progress)
      ensures p == ReadProgress(codec, inBrowser, items)
    {
      p := ReadProgress(codec, inBrowser, items);
    }

    /** updateAppSettings: merge the patch over the current settings and store the result. */
    method UpdateAppSettings(patch: SettingsPatch) returns (next: Settings)
      requires Valid()
      modifies this
      ensures next == MergeSettings(old(ReadSettings(codec, inBrowser, items)), patch)
      ensures inBrowser ==> items == old(items)[SettingsKey := codec.stringifySettings(next)]
      ensures !inBrowser ==> items == old(items)
      ensures inBrowser ==> ReadSettings(codec, inBrowser, items) == next
      ensures ReadProgress(codec, inBrowser, items) == old(ReadProgress(codec, inBrowser, items))
      ensures ReadAppliedSessions(codec, inBrowser, items) == old(ReadAppliedSessions(codec, inBrowser, items))
    {
      next := MergeSettings(ReadSettings(codec, inBrowser, items), patch);
      if inBrowser {
        ReadAfterWrite(codec, items, next, DefaultProgress, []);
        items := items[SettingsKey := codec.stringifySettings(next)];
      }
    }

    /** markSessionApplied: append the id to the stored log unless it is there. */
    method MarkSessionApplied(id: string)
      requires Valid()
      modifies this
      ensures var log := old(ReadAppliedSessions(codec, inBrowser, items));
              if inBrowser && id !in log
              then items == old(items)[AppliedSessionsKey := codec.stringifySessions(log + [id])]
              else items == old(items)
      ensures inBrowser ==>
              ReadAppliedSessions(codec, inBrowser, items)
              == LogAfter(old(ReadAppliedSessions(codec, inBrowser, items)), id)
      ensures ReadProgress(codec, inBrowser, items) == old(ReadProgress(codec, inBrowser, items))
    {
      if !inBrowser {
        return;
      }
      var sessions := ReadAppliedSessions(codec, inBrowser, items);
      if id !in sessions {
        ReadAfterWrite(codec, items, DefaultSettings, DefaultProgress, sessions + [id]);
        items := items[AppliedSessionsKey := codec.stringifySessions(sessions + [id])];
      }
    }

    /** applyPracticeSession: read the progress, and unless the session id is
        already logged, compute the new record, log the id and save. */
    method ApplyPracticeSession(summary: Summary, now: string) returns (o: Outcome)
      requires Valid()
      modifies this
      ensures o == Apply(old(ReadProgress(codec, inBrowser, items)),
                         old(ReadAppliedSessions(codec, inBrowser, items)), summary, now)
      ensures var log := old(ReadAppliedSessions(codec, inBrowser, items));
              if inBrowser && summary.sessionId !in log
              then items == old(items)[AppliedSessionsKey := codec.stringifySessions(log + [summary.sessionId])]
                                      [ProgressKey := codec.stringifyProgress(o.progress)]
              else items == old(items)
      ensures inBrowser ==> ReadProgress(codec, inBrowser, items) == o.progress
      ensures inBrowser ==>
              ReadAppliedSessions(codec, inBrowser, items)
              == LogAfter(old(ReadAppliedSessions(codec, inBrowser, items)), summary.sessionId)
    {
      var progress := ReadProgress(codec, inBrowser, items);
      var log := ReadAppliedSessions(codec, inBrowser, items);
      if summary.sessionId in log {
        return Outcome(progress, Rewards(0, Same));
      }
      var next := FreshProgress(progress, summary, now);
      var rewards := FreshRewards(progress, summary);
      MarkSessionApplied(summary.sessionId);
      if inBrowser {
        ReadAfterWrite(codec, items, DefaultSettings, next, []);
        items := items[ProgressKey := codec.stringifyProgress(next)];
      }
      o := Outcome(next, rewards);
    }
  }

  /** A client of the store: in a browser, applying the same summary twice
      rewards it once, and the second call writes nothing: the storage ends up
      holding only what the first call wrote. */
  method ApplyTwice(store: Store, summary: Summary, now1: string, now2: string)
      returns (first: Outcome, second: Outcome)
    requires store.Valid() && store.inBrowser
    modifies store
    ensures second == Outcome(first.progress, Rewards(0, Same))
    ensures var log := old(ReadAppliedSessions(store.codec, true, store.items));
            if summary.sessionId !in log
            then store.items == old(store.items)[AppliedSessionsKey := store.codec.stringifySessions(log + [summary.sessionId])]
                                                [ProgressKey := store.codec.stringifyProgress(first.progress)]
            else store.items == old(store.items)
    ensures ReadProgress(store.codec, true, store.items) == first.progress
    ensures summary.sessionId in ReadAppliedSessions(store.codec, true, store.items)
    ensures second.rewards.xpEarned == 0
  {
    first := store.ApplyPracticeSession(summary, now1);
    second := store.ApplyPracticeSession(summary, now2);
  }
}
