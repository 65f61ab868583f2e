/**
 * The English mission of src/screens/EnglishMission.tsx: three phases (write,
 * speak, listening) walked through with one primary button, a turn counter
 * for each spoken phase, and the session summary handed to the results
 * screen when the last phase is finished.
 */
module EnglishMission {
  import opened Wrappers
  import opened JsText
  import opened AppState
  import SessionResults

  /** The phases of `englishMissionSteps`, in order. */
  const Phases: seq<EnglishPhase> := [Write, Speak, Listening]

  /** The shortest trimmed text that lets the write phase continue. */
  const MinWriteChars: nat := 12

  /** `englishMissionSteps.slice(0, phaseIndex + 1).map(step => step.phase)`. */
  function CompletedPhases(phaseIndex: nat): (r: seq<EnglishPhase>)
    requires phaseIndex < |Phases|
    ensures |r| == phaseIndex + 1
    ensures forall i :: 0 <= i < |r| ==> r[i] == Phases[i]
    ensures r[|r| - 1] == Phases[phaseIndex]
  {
    Phases[..phaseIndex + 1]
  }

  /** The primary button is disabled only in the write phase, and only while
      the trimmed text is shorter than twelve UTF-16 code units. */
  function CanContinue(phaseIndex: nat, writingText: string): (r: bool)
    requires phaseIndex < |Phases|
    ensures !r <==> phaseIndex == 0 && Utf16Length(Trim(writingText)) < MinWriteChars
  {
    Phases[phaseIndex] != Write || Utf16Length(Trim(writingText)) >= MinWriteChars
  }

  /** Padding around the text does not bring the button closer to enabled. */
  lemma CanContinueIgnoresPadding(pre: string, text: string, post: string)
    requires AllWhitespace(pre) && AllWhitespace(post)
    requires text != [] && !IsWhitespace(text[0]) && !IsWhitespace(text[|text| - 1])
    ensures CanContinue(0, pre + text + post) <==> Utf16Length(text) >= MinWriteChars
  {
    TrimSurrounded(pre, text, post);
  }

  /** The text is measured in UTF-16 code units, as `.length` does: six
      emoji from above U+FFFF are twelve units and enable the button. */
  lemma SixEmojiCanContinue()
    ensures var emoji := "\U{1F600}\U{1F600}\U{1F600}\U{1F600}\U{1F600}\U{1F600}";
            |emoji| == 6 && Utf16Length(Trim(emoji)) == 12 && CanContinue(0, emoji)
  {
    var emoji := "\U{1F600}\U{1F600}\U{1F600}\U{1F600}\U{1F600}\U{1F600}";
    TrimUnpadded(emoji);
    Utf16LengthOfAstral(emoji);
  }

  /** Six ASCII letters are six units and keep the button disabled. */
  lemma SixLettersCannotContinue()
    ensures !CanContinue(0, "abcdef")
  {
    TrimUnpadded("abcdef");
    Utf16LengthOfBmp("abcdef");
  }

  /** The summary finishMission hands to navigation. */
  function MissionSummary(sessionId: string, phaseIndex: nat, writingText: string,
                          speakTurns: int, listeningTurns: int): (s: Summary)
    requires phaseIndex < |Phases|
    ensures s.sessionId == sessionId && s.score == 3 && s.total == 3 && s.hintsUsed == 0
    ensures s.questionResults == None && s.missionMode == Some(English)
    ensures s.english == Some(EnglishStats(CompletedPhases(phaseIndex), Utf16Length(Trim(writingText)), speakTurns, listeningTurns))
  {
    Summary(sessionId, 3, 3, 0, None, Some(English),
            Some(EnglishStats(CompletedPhases(phaseIndex), Utf16Length(Trim(writingText)), speakTurns, listeningTurns)))
  }

  class Mission {
    var phaseIndex: nat
    var writingText: string
    var speakTurns: int
    var listeningTurns: int
    /** `english-${Date.now()}`, fixed when the screen mounts. */
    const sessionId: string

    /** The phase stays in range; the text is long enough once the write phase
        is left (the text box is only shown in it); the speak phase is clicked
        exactly once on the way to the last phase, and the listening counter
        only grows in the last phase. */
    ghost predicate Valid()
      reads this
    {
      && phaseIndex < |Phases|
      && (phaseIndex >= 1 ==> Utf16Length(Trim(writingText)) >= MinWriteChars)
      && speakTurns == (if phaseIndex == 2 then 1 else 0)
      && listeningTurns >= 0
      && (phaseIndex < 2 ==> listeningTurns == 0)
    }

    constructor (sessionId: string)
      ensures Valid()
      ensures this.sessionId == sessionId
      ensures phaseIndex == 0 && writingText == "" && speakTurns == 0 && listeningTurns == 0
    {
      this.sessionId := sessionId;
      phaseIndex := 0;
      writingText := "";
      speakTurns := 0;
      listeningTurns := 0;
    }

    /** The text box's onChange, present in the write phase only. */
    method SetWritingText(value: string)
      requires Valid() && Phases[phaseIndex] == Write
      modifies this`writingText
      ensures Valid() && writingText == value
    {
      writingText := value;
    }

    /** handlePrimaryAction. The click's own increment is not seen by the
        summary, which reads the counters as they were before the click. */
    method HandlePrimaryAction() returns (summary: Option<Summary>)
      requires Valid() && CanContinue(phaseIndex, writingText)
      modifies this`phaseIndex, this`speakTurns, this`listeningTurns
      ensures Valid()
      ensures speakTurns == old(speakTurns) + (if Phases[old(phaseIndex)] == Speak then 1 else 0)
      ensures listeningTurns == old(listeningTurns) + (if Phases[old(phaseIndex)] == Listening then 1 else 0)
      ensures old(phaseIndex) < |Phases| - 1 ==> phaseIndex == old(phaseIndex) + 1 && summary == None
      ensures old(phaseIndex) == |Phases| - 1 ==>
              && phaseIndex == old(phaseIndex)
              && summary == Some(MissionSummary(sessionId, old(phaseIndex), writingText,
                                                old(speakTurns), old(listeningTurns)))
    {
      var speakBefore := speakTurns;
      var listeningBefore := listeningTurns;
      if Phases[phaseIndex] == Speak {
        speakTurns := speakTurns + 1;
      }
      if Phases[phaseIndex] == Listening {
        listeningTurns := listeningTurns + 1;
      }
      if phaseIndex == |Phases| - 1 {
        summary := Some(MissionSummary(sessionId, phaseIndex, writingText, speakBefore, listeningBefore));
        return;
      }
      phaseIndex := phaseIndex + 1;
      summary := None;
    }

    /** Whatever the user does, a finish reports every phase completed, at
        least twelve code units written and exactly one speak turn. */
    method Finish() returns (summary: Option<Summary>)
      requires Valid() && phaseIndex == |Phases| - 1
      modifies this`phaseIndex, this`speakTurns, this`listeningTurns
      ensures Valid()
      ensures summary.Some?
      ensures summary.value.english.Some?
      ensures var stats := summary.value.english.value;
              && stats.completedPhases == Phases
              && stats.writeChars >= MinWriteChars
              && stats.speakTurns == 1
              && stats.listeningTurns == old(listeningTurns)
    {
      summary := HandlePrimaryAction();
    }
  }

  /** The summary of any reachable finish: the results screen shows it as
      perfect with all three rows correct, and the listening row on its own
      would be correct only if listening had been clicked before the
      finishing click. */
  lemma FinishedMissionResults(sessionId: string, writingText: string, listeningTurns: int)
    requires Utf16Length(Trim(writingText)) >= MinWriteChars && listeningTurns >= 0
    ensures var s := Some(MissionSummary(sessionId, 2, writingText, 1, listeningTurns));
            var rows := SessionResults.Questions(s);
            && SessionResults.IsPerfect(s, None, None)
            && |rows| == 3 && rows[0].correct && rows[1].correct
            && (rows[2].correct <==> listeningTurns > 0)
            && forall i :: 0 <= i < 3 ==> SessionResults.DisplayQuestions(rows, true)[i].correct
  {
  }

  /** One click through each phase: the first finish reports no listening turn. */
  method StraightThrough(text: string) returns (summary: Option<Summary>)
    requires Utf16Length(Trim(text)) >= MinWriteChars
    ensures summary.Some? && summary.value.english.Some?
    ensures summary.value.english.value.speakTurns == 1
    ensures summary.value.english.value.listeningTurns == 0
    ensures summary.value.english.value.writeChars == Utf16Length(Trim(text))
  {
    var m := new Mission("english-1");
    m.SetWritingText(text);
    summary := m.HandlePrimaryAction();
    summary := m.HandlePrimaryAction();
    summary := m.HandlePrimaryAction();
  }
}
