/**
 * The daily nutrition quests: a checklist over a fixed quest table whose
 * completed ids are kept as a list, and the points earned from it.
 */
module NutritionGuidance {

  import Lists

  /** The part of a quest the logic uses: its id and its points. */
  datatype Quest = Quest(id: string, points: nat)

  /** The quest table, in display order. */
  const Quests: seq<Quest> := [
    Quest("hydration", 10),
    Quest("breakfast", 15),
    Quest("vegetables", 20),
    Quest("mindful", 15),
    Quest("fruits", 10),
    Quest("planning", 25)
  ]

  /** The ids checked when the screen opens. */
  const InitialCompleted: seq<string> := ["hydration", "breakfast"]

  /** No two quests of the list share an id. */
  predicate DistinctIds(quests: seq<Quest>) {
    forall i, j :: 0 <= i < j < |quests| ==> quests[i].id != quests[j].id
  }

  /** `totalPoints`: the points of the quests whose id is checked, summed in table order; never more than the maximum. */
  function TotalPoints(completed: seq<string>, quests: seq<Quest>): (r: nat)
    ensures r <= MaxPoints(quests)
  {
    if quests == [] then 0
    else
      var last := quests[|quests| - 1];
      TotalPoints(completed, quests[..|quests| - 1]) + (if last.id in completed then last.points else 0)
  }

  /** `maxPoints`: the points of all quests; no single quest is worth more. */
  function MaxPoints(quests: seq<Quest>): (r: nat)
    ensures forall i :: 0 <= i < |quests| ==> quests[i].points <= r
  {
    if quests == [] then 0 else MaxPoints(quests[..|quests| - 1]) + quests[|quests| - 1].points
  }

  /** The points of the quests carrying id `x`. */
  function PointsOf(quests: seq<Quest>, x: string): nat {
    if quests == [] then 0
    else
      var last := quests[|quests| - 1];
      PointsOf(quests[..|quests| - 1], x) + (if last.id == x then last.points else 0)
  }

  /** The table is keyed by id and is worth 95 points in all. */
  lemma QuestTable()
    ensures DistinctIds(Quests)
    ensures MaxPoints(Quests) == 95
  {
    assert Quests[..0] == [];
    assert Quests[..1] == [Quest("hydration", 10)];
    assert Quests[..2] == [Quest("hydration", 10), Quest("breakfast", 15)];
    assert Quests[..3] == Quests[..2] + [Quest("vegetables", 20)];
    assert Quests[..4] == Quests[..3] + [Quest("mindful", 15)];
    assert Quests[..5] == Quests[..4] + [Quest("fruits", 10)];
    assert MaxPoints(Quests[..1]) == 10;
    assert MaxPoints(Quests[..2]) == 25;
    assert MaxPoints(Quests[..3]) == 45;
    assert MaxPoints(Quests[..4]) == 60;
    assert MaxPoints(Quests[..5]) == 70;
  }

  /** Only which ids are checked matters, not their order or repeats. */
  lemma {:induction false} TotalFollowsMembership(c1: seq<string>, c2: seq<string>, quests: seq<Quest>)
    requires forall y :: y in c1 <==> y in c2
    ensures TotalPoints(c1, quests) == TotalPoints(c2, quests)
  {
    if quests != [] {
      TotalFollowsMembership(c1, c2, quests[..|quests| - 1]);
    }
  }

  /** Checking one more id adds the points of the quests with that id. */
  lemma {:induction false} TotalWithId(completed: seq<string>, quests: seq<Quest>, x: string)
    requires x !in completed
    ensures TotalPoints(completed + [x], quests) == TotalPoints(completed, quests) + PointsOf(quests, x)
  {
    if quests != [] {
      TotalWithId(completed, quests[..|quests| - 1], x);
    }
  }

  /** In a list keyed by id, the points of `quests[k].id` are those of quest `k`. */
  lemma {:induction false} PointsOfKey(quests: seq<Quest>, k: nat)
    requires DistinctIds(quests) && k < |quests|
    ensures PointsOf(quests, quests[k].id) == quests[k].points
  {
    var init := quests[..|quests| - 1];
    if k < |quests| - 1 {
      assert init[k] == quests[k];
      assert DistinctIds(init);
      PointsOfKey(init, k);
    } else {
      PointsOfAbsent(init, quests[k].id);
    }
  }

  lemma {:induction false} PointsOfAbsent(quests: seq<Quest>, x: string)
    requires forall i :: 0 <= i < |quests| ==> quests[i].id != x
    ensures PointsOf(quests, x) == 0
  {
    if quests != [] {
      PointsOfAbsent(quests[..|quests| - 1], x);
    }
  }

  /**
   * The list after `handleQuestToggle(id, checked)`: checking an unchecked id
   * appends it, unchecking a checked id filters it out, anything else keeps
   * the list.  Only `id`'s membership can change, and a list without repeats
   * keeps none.
   */
  function QuestToggled(completed: seq<string>, id: string, checked: bool): (r: seq<string>)
    ensures checked && id !in completed ==> r == completed + [id]
    ensures checked && id in completed ==> r == completed
    ensures !checked && id !in completed ==> r == completed
    ensures forall y :: y != id ==> (y in r <==> y in completed)
    ensures id in r <==> checked
    ensures Lists.NoDuplicates(completed) ==> Lists.NoDuplicates(r)
  {
    if checked && id !in completed then
      assert Lists.NoDuplicates(completed) ==> Lists.NoDuplicates(completed + [id]) by {
        if Lists.NoDuplicates(completed) {
          Lists.AppendKeepsNoDuplicates(completed, id);
        }
      }
      completed + [id]
    else if !checked && id in completed then
      assert Lists.NoDuplicates(completed) ==> Lists.NoDuplicates(Lists.Remove(completed, id)) by {
        if Lists.NoDuplicates(completed) {
          Lists.RemoveKeepsNoDuplicates(completed, id);
        }
      }
      Lists.Remove(completed, id)
    else completed
  }

  /** Checking an unchecked quest and unchecking it again restores the exact list. */
  lemma CheckThenUncheck(completed: seq<string>, id: string)
    requires id !in completed
    ensures QuestToggled(QuestToggled(completed, id, true), id, false) == completed
  {
    Lists.AppendThenRemove(completed, id);
  }

  /**
   * Toggling quest `k` moves the earned points by exactly its own points,
   * and only when its completion actually changes.
   */
  lemma TogglePoints(completed: seq<string>, k: nat, checked: bool)
    requires k < |Quests|
    ensures TotalPoints(QuestToggled(completed, Quests[k].id, checked), Quests)
      == if checked && Quests[k].id !in completed then TotalPoints(completed, Quests) + Quests[k].points
         else if !checked && Quests[k].id in completed then TotalPoints(completed, Quests) - Quests[k].points
         else TotalPoints(completed, Quests)
  {
    var id := Quests[k].id;
    QuestTable();
    PointsOfKey(Quests, k);
    if checked && id !in completed {
      TotalWithId(completed, Quests, id);
    } else if !checked && id in completed {
      var r := Lists.Remove(completed, id);
      TotalWithId(r, Quests, id);
      TotalFollowsMembership(r + [id], completed, Quests);
    }
  }

  /** The checklist's state. */
  class QuestBoard {
    var completedQuests: seq<string>

    /** No id is listed twice, so the points count each quest once. */
    ghost predicate Valid()
      reads this
    {
      Lists.NoDuplicates(completedQuests)
    }

    /** The points earned so far. */
    function Earned(): nat
      reads this
    {
      TotalPoints(completedQuests, Quests)
    }

    constructor ()
      ensures Valid() && completedQuests == InitialCompleted
    {
      completedQuests := InitialCompleted;
    }

    /** A quest checkbox's change handler. */
    method HandleQuestToggle(id: string, checked: bool)
      requires Valid()
      modifies this
      ensures Valid()
      ensures completedQuests == QuestToggled(old(completedQuests), id, checked)
      ensures 0 <= Earned() <= 95
    {
      completedQuests := QuestToggled(completedQuests, id, checked);
      QuestTable();
    }
  }

  /** A worked instance of `TotalPoints` on the opening list: the screen opens showing 25 of 95 points earned. */
  lemma InitialPoints()
    ensures TotalPoints(InitialCompleted, Quests) == 25
  {
    assert Quests[..0] == [];
    assert Quests[..1] == [Quest("hydration", 10)];
    assert Quests[..2] == [Quest("hydration", 10), Quest("breakfast", 15)];
    assert Quests[..3] == Quests[..2] + [Quest("vegetables", 20)];
    assert Quests[..4] == Quests[..3] + [Quest("mindful", 15)];
    assert Quests[..5] == Quests[..4] + [Quest("fruits", 10)];
    assert TotalPoints(InitialCompleted, Quests[..1]) == 10;
    assert TotalPoints(InitialCompleted, Quests[..2]) == 25;
    assert TotalPoints(InitialCompleted, Quests[..3]) == 25;
    assert TotalPoints(InitialCompleted, Quests[..4]) == 25;
    assert TotalPoints(InitialCompleted, Quests[..5]) == 25;
  }
}
