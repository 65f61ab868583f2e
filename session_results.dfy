/**
 * The results screen of src/screens/SessionResults.tsx: the score and total
 * it shows, the perfect flag, the per-question rows (three task rows for an
 * English mission, one row per recorded question otherwise), and the XP shown
 * before and after the finished session is handed to the reward engine.
 */
module SessionResults {
  import opened Wrappers
  import opened JsText
  import opened AppState

  /** The `score` and `total` props' defaults. */
  const DefaultScore: int := 2
  const DefaultTotal: int := 3

  /** A part chip under a question row. */
  datatype Detail = Detail(text: string, correct: bool)

  /** One row of the results list. */
  datatype Row = Row(question: string, correct: bool, details: Option<seq<Detail>>)

  predicate IsEnglishMission(summary: Option<Summary>) {
    summary.Some? && summary.value.missionMode == Some(English)
  }

  /** `summary?.score ?? score`, with the prop's default. */
  function ResolvedScore(summary: Option<Summary>, score: Option<int>): (r: int)
    ensures summary.Some? ==> r == summary.value.score
    ensures summary.None? && score.Some? ==> r == score.value
    ensures summary.None? && score.None? ==> r == DefaultScore
  {
    if summary.Some? then summary.value.score else score.GetOr(DefaultScore)
  }

  /** `summary?.total ?? (isEnglishMission ? 3 : total)`, with the prop's default. */
  function ResolvedTotal(summary: Option<Summary>, total: Option<int>): (r: int)
    ensures summary.Some? ==> r == summary.value.total
    ensures summary.None? && total.Some? ==> r == total.value
    ensures summary.None? && total.None? ==> r == DefaultTotal
  {
    if summary.Some? then summary.value.total
    else if IsEnglishMission(summary) then 3
    else total.GetOr(DefaultTotal)
  }

  /** The English fallback of 3 is never taken: a summary always has a total,
      and without a summary the mission is not an English one. */
  lemma EnglishFallbackUnused(summary: Option<Summary>, total: Option<int>)
    requires summary.None?
    ensures !IsEnglishMission(summary)
    ensures ResolvedTotal(summary, total) == total.GetOr(DefaultTotal)
  {
  }

  /** `isPerfect`: the resolved score reaches the resolved total exactly. */
  predicate IsPerfect(summary: Option<Summary>, score: Option<int>, total: Option<int>): (r: bool)
    ensures summary.Some? ==> (r <==> summary.value.score == summary.value.total)
    ensures summary.None? ==> (r <==> score.GetOr(DefaultScore) == total.GetOr(DefaultTotal))
  {
    ResolvedScore(summary, score) == ResolvedTotal(summary, total)
  }

  // ------------------------------------------------------------ English rows

  /** `${task} task (${n} turn${n === 1 ? '' : 's'})`: the task, the count,
      and `turn` for exactly one turn, `turns` otherwise. */
  function TurnsLabel(task: string, n: int): (l: string)
    ensures |l| >= |task| + 7 + 7 - (if n == 1 then 1 else 0)
    ensures l[..|task| + 7] == task + " task ("
    ensures n != 1 ==> l[|l| - 7..] == " turns)"
    ensures n == 1 ==> l[|l| - 6..] == " turn)"
    ensures l[|task| + 7..|l| - (if n == 1 then 6 else 7)] == IntToString(n)
    ensures n >= 0 ==> DigitsValue(l[|task| + 7..|l| - (if n == 1 then 6 else 7)]) == n
  {
    var head, digits := task + " task (", IntToString(n);
    var tail := if n == 1 then " turn)" else " turns)";
    var l := head + digits + tail;
    assert l[..|head|] == head;
    assert l[|l| - |tail|..] == tail;
    assert l[|head|..|l| - |tail|] == digits;
    NatToStringRoundTrip(if n >= 0 then n else -n);
    l
  }

  /** `Write task (${chars} chars)`. */
  function WriteLabel(chars: int): (l: string)
    ensures |l| >= |"Write task (" + " chars)"| + 1
    ensures l[..|"Write task ("|] == "Write task ("
    ensures l[|l| - |" chars)"|..] == " chars)"
    ensures l[|"Write task ("|..|l| - |" chars)"|] == IntToString(chars)
    ensures chars >= 0 ==> DigitsValue(l[|"Write task ("|..|l| - |" chars)"|]) == chars
  {
    var head, digits, tail := "Write task (", IntToString(chars), " chars)";
    var l := head + digits + tail;
    assert l[..|head|] == head;
    assert l[|l| - |tail|..] == tail;
    assert l[|head|..|l| - |tail|] == digits;
    NatToStringRoundTrip(if chars >= 0 then chars else -chars);
    l
  }

  /** The three task rows of an English mission; missing statistics read as 0. */
  function EnglishRows(stats: Option<EnglishStats>): (rows: seq<Row>)
    ensures |rows| == 3
    ensures forall i :: 0 <= i < 3 ==> rows[i].details == None
    ensures rows[0].correct <==> stats.Some? && stats.value.writeChars >= 12
    ensures rows[1].correct <==> stats.Some? && stats.value.speakTurns > 0
    ensures rows[2].correct <==> stats.Some? && stats.value.listeningTurns > 0
    ensures rows[0].question == WriteLabel(if stats.Some? then stats.value.writeChars else 0)
    ensures rows[1].question == TurnsLabel("Speak", if stats.Some? then stats.value.speakTurns else 0)
    ensures rows[2].question == TurnsLabel("Listening", if stats.Some? then stats.value.listeningTurns else 0)
  {
    var writeChars := if stats.Some? then stats.value.writeChars else 0;
    var speakTurns := if stats.Some? then stats.value.speakTurns else 0;
    var listeningTurns := if stats.Some? then stats.value.listeningTurns else 0;
    [ Row(WriteLabel(writeChars), writeChars >= 12, None),
      Row(TurnsLabel("Speak", speakTurns), speakTurns > 0, None),
      Row(TurnsLabel("Listening", listeningTurns), listeningTurns > 0, None) ]
  }

  // --------------------------------------------------------------- math rows

  const Tick: string := "\U{2713}"
  const Cross: string := "\U{2715}"

  /** A part chip: the upper-cased part id, then a tick or a cross. */
  function PartDetail(part: PartResult): (d: Detail)
    ensures d.correct == part.isCorrect
    ensures |d.text| == |part.id| + 3
    ensures d.text[..|part.id|] == ToUpper(part.id)
    ensures d.text[|part.id|..] == ": " + (if part.isCorrect then Tick else Cross)
  {
    var text := ToUpper(part.id) + ": " + (if part.isCorrect then Tick else Cross);
    assert text[..|part.id|] == ToUpper(part.id);
    assert text[|part.id|..] == ": " + (if part.isCorrect then Tick else Cross);
    Detail(text, part.isCorrect)
  }

  function PartDetails(parts: seq<PartResult>): (ds: seq<Detail>)
    ensures |ds| == |parts|
    ensures forall i :: 0 <= i < |parts| ==> ds[i] == PartDetail(parts[i])
  {
    seq(|parts|, i requires 0 <= i < |parts| => PartDetail(parts[i]))
  }

  function QuestionRow(q: QuestionResult): (r: Row)
    ensures r.question == q.question && r.correct == q.isCorrect
    ensures q.parts.None? <==> r.details.None?
    ensures q.parts.Some? ==> r.details == Some(PartDetails(q.parts.value))
  {
    Row(q.question, q.isCorrect, if q.parts.Some? then Some(PartDetails(q.parts.value)) else None)
  }

  /** One row per recorded question, in order; none when the results are
      missing or empty. */
  function MathRows(results: Option<seq<QuestionResult>>): (rows: seq<Row>)
    ensures results.None? ==> rows == []
    ensures results.Some? ==> |rows| == |results.value|
    ensures results.Some? ==> forall i :: 0 <= i < |rows| ==> rows[i] == QuestionRow(results.value[i])
  {
    if results.None? || |results.value| == 0 then []
    else seq(|results.value|, i requires 0 <= i < |results.value| => QuestionRow(results.value[i]))
  }

  /** The `questions` list of the screen. */
  function Questions(summary: Option<Summary>): (rows: seq<Row>)
    ensures IsEnglishMission(summary) ==> rows == EnglishRows(summary.value.english)
    ensures !IsEnglishMission(summary) && summary.Some? ==> rows == MathRows(summary.value.questionResults)
    ensures summary.None? ==> rows == []
  {
    if IsEnglishMission(summary) then EnglishRows(summary.value.english)
    else if summary.Some? then MathRows(summary.value.questionResults)
    else []
  }

  /** `displayQuestions`: a perfect session shows every row as correct. */
  function DisplayQuestions(rows: seq<Row>, isPerfect: bool): (shown: seq<Row>)
    ensures |shown| == |rows|
    ensures forall i :: 0 <= i < |rows| ==>
              shown[i].question == rows[i].question && shown[i].details == rows[i].details
    ensures isPerfect ==> forall i :: 0 <= i < |rows| ==> shown[i].correct
    ensures !isPerfect ==> shown == rows
  {
    if isPerfect then seq(|rows|, i requires 0 <= i < |rows| => rows[i].(correct := true))
    else rows
  }

  /** An imperfect English mission shows each task row exactly as its own
      threshold decides. */
  lemma ImperfectEnglishRows(summary: Summary, score: Option<int>, total: Option<int>)
    requires summary.missionMode == Some(English) && summary.score != summary.total
    ensures var shown := DisplayQuestions(Questions(Some(summary)), IsPerfect(Some(summary), score, total));
            && |shown| == 3
            && (shown[0].correct <==> summary.english.Some? && summary.english.value.writeChars >= 12)
            && (shown[1].correct <==> summary.english.Some? && summary.english.value.speakTurns > 0)
            && (shown[2].correct <==> summary.english.Some? && summary.english.value.listeningTurns > 0)
  {
  }

  // --------------------------------------------------------------- XP shown

  /** `rewards.xpEarned || estimate`: a zero award falls back to the estimate. */
  function ShownXP(xpEarned: int, estimate: int): (r: int)
    ensures xpEarned != 0 ==> r == xpEarned
    ensures xpEarned == 0 ==> r == estimate
  {
    if xpEarned != 0 then xpEarned else estimate
  }

  /** Whether the session is applied for the first time or again, the XP
      shown after the effect is the estimate for its score and total. */
  lemma ShownXPIgnoresDuplicates(p: Progress, log: seq<string>, s: Summary, now: string)
    ensures var estimate := EstimateSessionXP(ResolvedScore(Some(s), None), ResolvedTotal(Some(s), None));
            ShownXP(Apply(p, log, s, now).rewards.xpEarned, estimate) == estimate
  {
  }

  /** The screen's XP state: the XP shown for the session and the total. */
  class Screen {
    var xpEarned: int
    var currentXP: int
    const summary: Option<Summary>
    const score: Option<int>
    const total: Option<int>

    /** The XP shown is never zero: it is an estimate or a fresh award. */
    ghost predicate Valid()
      reads this
    {
      xpEarned >= 15
    }

    /** The initial state: the estimate, and the stored total XP. */
    constructor (store: Store, summary: Option<Summary>, score: Option<int>, total: Option<int>)
      ensures Valid()
      ensures this.summary == summary && this.score == score && this.total == total
      ensures xpEarned == EstimateSessionXP(ResolvedScore(summary, score), ResolvedTotal(summary, total))
      ensures currentXP == ReadProgress(store.codec, store.inBrowser, store.items).totalXP
    {
      this.summary := summary;
      this.score := score;
      this.total := total;
      xpEarned := EstimateSessionXP(ResolvedScore(summary, score), ResolvedTotal(summary, total));
      var p := store.GetGameProgress();
      currentXP := p.totalXP;
    }

    /** The effect: with a summary, apply it and show the award (or the
        estimate for a duplicate) and the new total; without one, do nothing. */
    method ApplyEffect(store: Store, now: string)
      requires Valid() && store.Valid()
      modifies this`xpEarned, this`currentXP, store
      ensures summary.None? ==> xpEarned == old(xpEarned) && currentXP == old(currentXP) && store.items == old(store.items)
      ensures summary.Some? ==>
              var log := old(ReadAppliedSessions(store.codec, store.inBrowser, store.items));
              var o := Apply(old(ReadProgress(store.codec, store.inBrowser, store.items)), log, summary.value, now);
              && xpEarned == EstimateSessionXP(summary.value.score, summary.value.total)
              && currentXP == o.progress.totalXP
              && (if store.inBrowser && summary.value.sessionId !in log
                  then store.items == old(store.items)[AppliedSessionsKey := store.codec.stringifySessions(log + [summary.value.sessionId])]
                                                      [ProgressKey := store.codec.stringifyProgress(o.progress)]
                  else store.items == old(store.items))
              && (store.inBrowser ==>
                  && ReadProgress(store.codec, true, store.items) == o.progress
                  && ReadAppliedSessions(store.codec, true, store.items) == LogAfter(log, summary.value.sessionId))
      ensures Valid()
    {
      if summary.None? {
        return;
      }
      var result := store.ApplyPracticeSession(summary.value, now);
      ShownXPIgnoresDuplicates(old(ReadProgress(store.codec, store.inBrowser, store.items)),
                               old(ReadAppliedSessions(store.codec, store.inBrowser, store.items)),
                               summary.value, now);
      xpEarned := ShownXP(result.rewards.xpEarned, EstimateSessionXP(ResolvedScore(summary, score), ResolvedTotal(summary, total)));
      currentXP := result.progress.totalXP;
    }
  }
}
