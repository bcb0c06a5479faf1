/** The ranking a scenario card shows: a model's rank is its position in the list plus one. */
module ScenarioCard {
  import opened Wrappers
  import opened JsArray
  import opened Sortable
  import opened App

  /** The rank displayed next to model `id`, or None when the list does not show it. */
  function RankOf(models: seq<Model>, id: string): (r: Option<nat>)
    ensures r.None? <==> forall i :: 0 <= i < |models| ==> models[i].id != id
    ensures r.Some? ==> 1 <= r.value <= |models| && models[r.value - 1].id == id
  {
    var i := FindIndex(models, ById(id));
    if i < 0 then None else Some(i + 1)
  }

  /** With distinct ids, the model at index `i` is shown with rank `i + 1`. */
  lemma RankIsPosition(models: seq<Model>, i: nat)
    requires i < |models|
    requires forall a, b :: 0 <= a < b < |models| ==> models[a].id != models[b].id
    ensures RankOf(models, models[i].id) == Some(i + 1)
  {
    FindIndexOfOnly(models, ById(models[i].id), i);
  }

  /** Model ids inside one scenario of a well-formed collection are distinct. */
  lemma ScenarioModelIdsDistinct(ss: seq<Scenario>, k: nat)
    requires WellFormed(ss) && k < |ss|
    ensures forall a, b :: 0 <= a < b < |ss[k].models| ==> ss[k].models[a].id != ss[k].models[b].id
  {
    forall a, b | 0 <= a < b < |ss[k].models|
      ensures ss[k].models[a].id != ss[k].models[b].id
    {
      assert ModelIdsDistinct(ss);
    }
  }

  /** After a reorder the dragged model is shown with the rank the drop target had before it. */
  lemma DraggedTakesTargetRank(ss: seq<Scenario>, activeScenarioId: Option<string>, active: string, over: Option<string>, k: nat)
    requires WellFormed(ss) && k < |ss|
    requires Resolvable(ss, activeScenarioId, active, over)
    requires EndDrag(ss, activeScenarioId, active, over).Moved?
    requires activeScenarioId == Some(ss[k].id)
    ensures var ss' := EndDrag(ss, activeScenarioId, active, over).scenarios;
      RankOf(ss'[k].models, active).Some? &&
      RankOf(ss'[k].models, active) == RankOf(ss[k].models, over.value)
  {
    var ss' := EndDrag(ss, activeScenarioId, active, over).scenarios;
    var newIndex := FindIndex(ss[k].models, ById(over.value));
    MoveReordersActiveScenario(ss, activeScenarioId, active, over, k);
    MovePreservesWellFormed(ss, activeScenarioId, active, over);
    ScenarioModelIdsDistinct(ss', k);
    RankIsPosition(ss'[k].models, newIndex);
  }

  /** Models outside the stretch between the two indices keep their rank. */
  lemma OtherRanksKept(ss: seq<Scenario>, activeScenarioId: Option<string>, active: string, over: Option<string>, k: nat, p: nat)
    requires WellFormed(ss) && k < |ss|
    requires Resolvable(ss, activeScenarioId, active, over)
    requires EndDrag(ss, activeScenarioId, active, over).Moved?
    requires activeScenarioId == Some(ss[k].id)
    requires p < |ss[k].models|
    requires var oldIndex := FindIndex(ss[k].models, ById(active));
      var newIndex := FindIndex(ss[k].models, ById(over.value));
      (p < oldIndex && p < newIndex) || (p > oldIndex && p > newIndex)
    ensures var ss' := EndDrag(ss, activeScenarioId, active, over).scenarios;
      RankOf(ss'[k].models, ss[k].models[p].id) == RankOf(ss[k].models, ss[k].models[p].id) == Some(p + 1)
  {
    var ss' := EndDrag(ss, activeScenarioId, active, over).scenarios;
    var oldIndex := FindIndex(ss[k].models, ById(active));
    var newIndex := FindIndex(ss[k].models, ById(over.value));
    MoveReordersActiveScenario(ss, activeScenarioId, active, over, k);
    ArrayMoveAt(ss[k].models, oldIndex, newIndex, p);
    MovePreservesWellFormed(ss, activeScenarioId, active, over);
    ScenarioModelIdsDistinct(ss, k);
    ScenarioModelIdsDistinct(ss', k);
    RankIsPosition(ss[k].models, p);
    RankIsPosition(ss'[k].models, p);
  }
}
