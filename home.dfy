/**
 * The daily missions and the due list of src/screens/Home.tsx: a mission
 * list whose entries the user ticks on and off, the completed-missions count
 * that decides whether the bonus is shown, and the cards due today.
 */
module Home {
  import opened Wrappers
  import opened AppState
  import opened Seqs
  import opened MistakeData

  /** A daily mission; its icon is not part of this model. */
  datatype Mission = Mission(id: string, title: string, xp: string, done: bool)

  /** The missions the screen starts with: only the review mission is done. */
  const InitialMissions: seq<Mission> := [
    Mission("capture", "Capture 1 new mistake", "+20", false),
    Mission("review", "Complete 1 review card that is due today", "+20", true),
    Mission("streak", "Get 3 correct in a row", "+20", false)
  ]

  /** The completed count from which the bonus chest is offered. */
  const BonusThreshold: int := 2

  function Flip(m: Mission, id: string): Mission {
    if m.id == id then m.(done := !m.done) else m
  }

  /** The list toggleMission builds: `done` flipped on the missions with that id. */
  function Toggled(missions: seq<Mission>, id: string): (r: seq<Mission>)
    ensures |r| == |missions|
    ensures forall i :: 0 <= i < |r| ==>
              && r[i].id == missions[i].id && r[i].title == missions[i].title && r[i].xp == missions[i].xp
              && (r[i].done <==> (if missions[i].id == id then !missions[i].done else missions[i].done))
  {
    if missions == [] then [] else [Flip(missions[0], id)] + Toggled(missions[1..], id)
  }

  /** Toggling the same mission twice gives the original list back. */
  lemma {:induction false} ToggleTwice(missions: seq<Mission>, id: string)
    ensures Toggled(Toggled(missions, id), id) == missions
  {
    if missions != [] {
      ToggleTwice(missions[1..], id);
      assert Toggled(missions, id)[1..] == Toggled(missions[1..], id);
    }
  }

  /** An id no mission has leaves the list as it is. */
  lemma {:induction false} ToggleAbsent(missions: seq<Mission>, id: string)
    requires forall i :: 0 <= i < |missions| ==> missions[i].id != id
    ensures Toggled(missions, id) == missions
  {
    if missions != [] {
      ToggleAbsent(missions[1..], id);
    }
  }

  predicate IsDone(m: Mission) { m.done }

  /** `missions.filter(mission => mission.done).length`. */
  function DoneCount(missions: seq<Mission>): (n: nat)
    ensures n <= |missions|
  {
    |Filter(missions, IsDone)|
  }

  lemma DoneCountCons(m: Mission, rest: seq<Mission>)
    ensures DoneCount([m] + rest) == (if m.done then 1 else 0) + DoneCount(rest)
  {
    var s := [m] + rest;
    assert s[0] == m && s[1..] == rest;
  }

  predicate UniqueIds(missions: seq<Mission>) {
    forall i, j :: 0 <= i < j < |missions| ==> missions[i].id != missions[j].id
  }

  /** With distinct ids, toggling a mission moves the done count by exactly one. */
  lemma {:induction false} ToggleMovesCountByOne(missions: seq<Mission>, k: nat)
    requires UniqueIds(missions) && k < |missions|
    ensures DoneCount(Toggled(missions, missions[k].id))
            == DoneCount(missions) + (if missions[k].done then -1 else 1)
  {
    var id := missions[k].id;
    var head, tail := missions[0], missions[1..];
    assert missions == [head] + tail;
    DoneCountCons(head, tail);
    DoneCountCons(Flip(head, id), Toggled(tail, id));
    if k == 0 {
      forall i | 0 <= i < |tail| ensures tail[i].id != id {
        assert tail[i] == missions[i + 1];
      }
      ToggleAbsent(tail, id);
    } else {
      assert head.id != id;
      assert tail[k - 1] == missions[k];
      assert UniqueIds(tail) by {
        forall i, j | 0 <= i < j < |tail| ensures tail[i].id != tail[j].id {
          assert tail[i] == missions[i + 1] && tail[j] == missions[j + 1];
        }
      }
      ToggleMovesCountByOne(tail, k - 1);
    }
  }

  /** `Math.max(done count, progress.missionsCompletedToday)`. */
  function CompletedMissions(missions: seq<Mission>, progress: Progress): (n: int)
    ensures n >= DoneCount(missions) && n >= progress.missionsCompletedToday
    ensures n == DoneCount(missions) || n == progress.missionsCompletedToday
  {
    Max(DoneCount(missions), progress.missionsCompletedToday)
  }

  /** The bonus card, the "great pace" line and the happy character all
      appear exactly when at least two missions count as completed. */
  predicate ShowsBonus(completed: int) {
    completed >= BonusThreshold
  }

  /** The stored count keeps the bonus on even when no mission is ticked. */
  lemma StoredCountKeepsBonus(missions: seq<Mission>, progress: Progress)
    requires progress.missionsCompletedToday >= BonusThreshold
    ensures ShowsBonus(CompletedMissions(missions, progress))
  {
  }

  /** With the default progress, the starting list earns no bonus and ticking
      the capture mission earns it. */
  lemma FirstTickShowsBonus()
    ensures !ShowsBonus(CompletedMissions(InitialMissions, DefaultProgress))
    ensures ShowsBonus(CompletedMissions(Toggled(InitialMissions, "capture"), DefaultProgress))
  {
    assert InitialMissions == [InitialMissions[0]] + ([InitialMissions[1]] + ([InitialMissions[2]] + []));
    DoneCountCons(InitialMissions[0], [InitialMissions[1]] + ([InitialMissions[2]] + []));
    DoneCountCons(InitialMissions[1], [InitialMissions[2]] + []);
    DoneCountCons(InitialMissions[2], []);
    assert DoneCount(InitialMissions) == 1;
    assert UniqueIds(InitialMissions);
    ToggleMovesCountByOne(InitialMissions, 0);
  }

  predicate IsDue(m: Mistake) { m.dueDate == DueToday }

  /** `mistakeData.filter(m => m.dueDate === 'Due today')`. */
  function DueItems(mistakes: seq<Mistake>): (r: seq<Mistake>)
    ensures forall m :: m in r <==> m in mistakes && m.dueDate == DueToday
  {
    Filter(mistakes, IsDue)
  }

  /** The due list keeps the order of the cards. */
  lemma DueItemsInOrder(mistakes: seq<Mistake>)
    ensures IsSubsequence(DueItems(mistakes), mistakes)
  {
    FilterIsSubsequence(mistakes, IsDue);
  }

  /** Of the demo cards, only the first is due today. */
  lemma DueItemsOfDemoCards()
    ensures DueItems(Mistakes) == [Mistakes[0]]
  {
    var s := Mistakes;
    assert s[1..][1..][1..] == [];
    assert Filter(s[1..][1..], IsDue) == [];
    assert Filter(s[1..], IsDue) == [];
  }

  /** The screen's mission state. */
  class Screen {
    var missions: seq<Mission>
    /** The progress record read when the screen mounts. */
    const progress: Progress

    constructor (store: Store)
      ensures missions == InitialMissions
      ensures progress == ReadProgress(store.codec, store.inBrowser, store.items)
    {
      missions := InitialMissions;
      progress := ReadProgress(store.codec, store.inBrowser, store.items);
    }

    /** toggleMission. */
    method ToggleMission(id: string)
      modifies this`missions
      ensures missions == Toggled(old(missions), id)
    {
      missions := Toggled(missions, id);
    }

    function Completed(): (n: int)
      reads this
      ensures n == CompletedMissions(missions, progress)
      ensures n >= DoneCount(missions) && n >= progress.missionsCompletedToday
    {
      CompletedMissions(missions, progress)
    }
  }

  /** Ticking a mission on and off again leaves the count where it was. */
  method TickAndUntick(s: Screen, id: string)
    modifies s
    ensures s.missions == old(s.missions) && s.Completed() == old(s.Completed())
  {
    s.ToggleMission(id);
    s.ToggleMission(id);
    ToggleTwice(old(s.missions), id);
  }
}
