/**
 * The page's state (the scenario collection and the two ids recorded for the
 * drag gesture in progress) and the two drag handlers that update it.
 */
module App {
  import opened Wrappers
  import opened JsArray
  import opened Sortable

  datatype Model = Model(id: string, name: string)

  /** A named scenario; the order of `models` is the ranking shown to the user. */
  datatype Scenario = Scenario(id: string, name: string, models: seq<Model>)

  /** What the page starts from. */
  function InitialScenarios(): (r: seq<Scenario>)
    ensures |r| == 5
  {
    [ Scenario("1", "学习知识点",
        [Model("1-1", "GPT-4"), Model("1-2", "Claude-3"), Model("1-3", "Gemini Pro")]),
      Scenario("2", "图表绘制",
        [Model("2-1", "GPT-4"), Model("2-2", "Claude-3"), Model("2-3", "Gemini Pro")]),
      Scenario("3", "智能技术问答",
        [Model("3-1", "GPT-4"), Model("3-2", "Claude-3"), Model("3-3", "Gemini Pro")]),
      Scenario("4", "代码补全",
        [Model("4-1", "GPT-4"), Model("4-2", "Claude-3"), Model("4-3", "Copilot")]),
      Scenario("5", "项目理解",
        [Model("5-1", "GPT-4"), Model("5-2", "Claude-3"), Model("5-3", "Gemini Pro")]) ]
  }

  // The predicates the handlers pass to `find`, `findIndex` and `some`.

  /** `model => model.id === id` */
  function ById(id: string): Model -> bool
  {
    (m: Model) => m.id == id
  }

  /** `s => s.id === id` */
  function WithId(id: string): Scenario -> bool
  {
    (s: Scenario) => s.id == id
  }

  /** `scenario => scenario.models.some(model => model.id === modelId)`: the scenario lists the model. */
  function Owns(modelId: string): (p: Scenario -> bool)
    ensures forall s :: p(s) <==> exists a :: 0 <= a < |s.models| && s.models[a].id == modelId
  {
    (s: Scenario) => Any(s.models, ById(modelId))
  }

  /** JavaScript truthiness of a `string | null`: null and "" are both falsy. */
  predicate Truthy(s: Option<string>)
  {
    s.Some? && s.value != ""
  }

  /**
   * Scenario ids are non-empty and pairwise distinct, and no model id occurs
   * twice anywhere in the collection (within one scenario or across two).
   */
  predicate WellFormed(ss: seq<Scenario>)
  {
    && (forall i :: 0 <= i < |ss| ==> ss[i].id != "")
    && (forall i, j :: 0 <= i < j < |ss| ==> ss[i].id != ss[j].id)
    && ModelIdsDistinct(ss)
  }

  /** No model id occurs at two positions of the collection. */
  predicate ModelIdsDistinct(ss: seq<Scenario>)
  {
    forall i, j, a, b ::
      (0 <= i < |ss| && 0 <= j < |ss| && 0 <= a < |ss[i].models| && 0 <= b < |ss[j].models| && (i != j || a != b))
      ==> ss[i].models[a].id != ss[j].models[b].id
  }

  /** The id `handleDragStart` records for a dragged model: `find(...)?.id || null`. */
  function ActiveScenarioFor(ss: seq<Scenario>, modelId: string): (r: Option<string>)
    ensures r.Some? ==> r.value != "" && exists i :: 0 <= i < |ss| && ss[i].id == r.value && Owns(modelId)(ss[i])
    ensures (forall i :: 0 <= i < |ss| ==> !Owns(modelId)(ss[i])) ==> r.None?
    ensures var k := FindIndex(ss, Owns(modelId));
      r == if k == -1 || ss[k].id == "" then None else Some(ss[k].id)
  {
    FindIsAtFindIndex(ss, Owns(modelId));
    match Find(ss, Owns(modelId))
    case None => None
    case Some(s) => if s.id == "" then None else Some(s.id)
  }

  /**
   * `scenarios.map(s => s.id === sid ? { ...s, models } : s)`: every scenario
   * with id `sid` gets the new model list, keeping its id and name; every other
   * scenario stays as it was, and the collection keeps its length and order.
   */
  function ReplaceModels(ss: seq<Scenario>, sid: string, models: seq<Model>): (r: seq<Scenario>)
    ensures |r| == |ss|
    ensures forall i :: 0 <= i < |ss| ==> r[i].id == ss[i].id && r[i].name == ss[i].name
    ensures forall i :: 0 <= i < |ss| && ss[i].id != sid ==> r[i] == ss[i]
    ensures forall i :: 0 <= i < |ss| && ss[i].id == sid ==> r[i].models == models
  {
    if ss == [] then []
    else
      var head := if ss[0].id == sid then ss[0].(models := models) else ss[0];
      [head] + ReplaceModels(ss[1..], sid, models)
  }

  /** How `handleDragEnd` ends. */
  datatype Drop =
    | Ignored                      // no reorder; both ids cleared
    | Moved(scenarios: seq<Scenario>)  // the new collection is committed; both ids cleared
    | ThrowsOnNullTarget           // `over.id` with `over === null`: nothing is updated

  /**
   * Whether the handler, once it reaches the active scenario's `findIndex`
   * calls, stays within what is modelled: with a drop target, the dragged id and
   * the target id are both in that scenario; without one, the scenario has a
   * model for the `over.id` callback to throw on. Everything else ends in
   * `arrayMove` with the index -1, which is not modelled.
   */
  predicate Resolvable(ss: seq<Scenario>, activeScenarioId: Option<string>, active: string, over: Option<string>)
  {
    over != Some(active) && Truthy(activeScenarioId) ==>
      match Find(ss, WithId(activeScenarioId.value))
      case None => true
      case Some(s) =>
        if over.None? then s.models != []
        else FindIndex(s.models, ById(active)) >= 0 && FindIndex(s.models, ById(over.value)) >= 0
  }

  /** The outcome of `handleDragEnd` for the dragged id `active` and the drop target `over`. */
  function EndDrag(ss: seq<Scenario>, activeScenarioId: Option<string>, active: string, over: Option<string>): (r: Drop)
    requires Resolvable(ss, activeScenarioId, active, over)
    ensures r.Ignored? <==>
      over == Some(active) || !Truthy(activeScenarioId) || Find(ss, WithId(activeScenarioId.value)).None?
    ensures r.ThrowsOnNullTarget? <==>
      && over.None? && Truthy(activeScenarioId)
      && Find(ss, WithId(activeScenarioId.value)).Some?
      && Find(ss, WithId(activeScenarioId.value)).value.models != []
  {
    if over != Some(active) && Truthy(activeScenarioId) then
      match Find(ss, WithId(activeScenarioId.value))
      case None => Ignored
      case Some(s) =>
        // the `findIndex` callback reads `over.id` on the first model, which exists
        if over.None? then ThrowsOnNullTarget
        else
          var oldIndex := FindIndex(s.models, ById(active));
          var newIndex := FindIndex(s.models, ById(over.value));
          Moved(ReplaceModels(ss, activeScenarioId.value, ArrayMove(s.models, oldIndex, newIndex)))
    else Ignored
  }

  /** In a well-formed collection the scenario with a given id is the only one. */
  lemma ScenarioLookupUnique(ss: seq<Scenario>, k: nat)
    requires WellFormed(ss) && k < |ss|
    ensures FindIndex(ss, WithId(ss[k].id)) == k
    ensures Find(ss, WithId(ss[k].id)) == Some(ss[k])
  {
    FindIndexOfOnly(ss, WithId(ss[k].id), k);
    FindIsAtFindIndex(ss, WithId(ss[k].id));
  }

  /** In a well-formed collection a model id has one owner, so the drag-start lookup is unambiguous. */
  lemma OwnerLookupUnique(ss: seq<Scenario>, k: nat, a: nat)
    requires WellFormed(ss) && k < |ss| && a < |ss[k].models|
    ensures ActiveScenarioFor(ss, ss[k].models[a].id) == Some(ss[k].id)
  {
    var m := ss[k].models[a].id;
    forall i | 0 <= i < |ss| && i != k
      ensures !Owns(m)(ss[i])
    {
    }
    assert Owns(m)(ss[k]) by { assert ById(m)(ss[k].models[a]); }
    FindIndexOfOnly(ss, Owns(m), k);
    FindIsAtFindIndex(ss, Owns(m));
  }

  /**
   * A gesture inside one scenario (each scenario has its own drag context, so
   * the dragged item and the drop target share a scenario) always resolves
   * after a drag start on a well-formed collection.
   */
  lemma GestureResolves(ss: seq<Scenario>, k: nat, a: nat, over: Option<string>)
    requires WellFormed(ss) && k < |ss| && a < |ss[k].models|
    requires over.Some? ==> exists b :: 0 <= b < |ss[k].models| && ss[k].models[b].id == over.value
    ensures Resolvable(ss, ActiveScenarioFor(ss, ss[k].models[a].id), ss[k].models[a].id, over)
  {
    var active := ss[k].models[a].id;
    OwnerLookupUnique(ss, k, a);
    ScenarioLookupUnique(ss, k);
    assert ById(active)(ss[k].models[a]);
    if over.Some? {
      var b :| 0 <= b < |ss[k].models| && ss[k].models[b].id == over.value;
      assert ById(over.value)(ss[k].models[b]);
    }
  }

  /**
   * A committed reorder changes only the scenarios whose id is the active one,
   * keeps every scenario's id and name, and keeps the collection's length and order.
   */
  lemma MoveTouchesOnlyActiveScenario(ss: seq<Scenario>, activeScenarioId: Option<string>, active: string, over: Option<string>)
    requires Resolvable(ss, activeScenarioId, active, over)
    requires EndDrag(ss, activeScenarioId, active, over).Moved?
    ensures var ss' := EndDrag(ss, activeScenarioId, active, over).scenarios;
      && |ss'| == |ss|
      && (forall i :: 0 <= i < |ss| ==> ss'[i].id == ss[i].id && ss'[i].name == ss[i].name)
      && (forall i :: 0 <= i < |ss| && ss[i].id != activeScenarioId.value ==> ss'[i] == ss[i])
  {
  }

  /**
   * In a well-formed collection, the active scenario `k` gets its models moved:
   * the dragged model is taken from its index and put at the drop target's index,
   * the list keeps its length and its multiset of models.
   */
  lemma MoveReordersActiveScenario(ss: seq<Scenario>, activeScenarioId: Option<string>, active: string, over: Option<string>, k: nat)
    requires WellFormed(ss) && k < |ss|
    requires Resolvable(ss, activeScenarioId, active, over)
    requires EndDrag(ss, activeScenarioId, active, over).Moved?
    requires activeScenarioId == Some(ss[k].id)
    ensures var ss' := EndDrag(ss, activeScenarioId, active, over).scenarios;
      var oldIndex := FindIndex(ss[k].models, ById(active));
      var newIndex := FindIndex(ss[k].models, ById(over.value));
      && 0 <= oldIndex && 0 <= newIndex
      && ss'[k].models == ArrayMove(ss[k].models, oldIndex, newIndex)
      && |ss'[k].models| == |ss[k].models|
      && multiset(ss'[k].models) == multiset(ss[k].models)
      && ss'[k].models[newIndex] == ss[k].models[oldIndex]
      && ss'[k].models[newIndex].id == active
  {
    ScenarioLookupUnique(ss, k);
    var oldIndex := FindIndex(ss[k].models, ById(active));
    var newIndex := FindIndex(ss[k].models, ById(over.value));
    ArrayMovePermutes(ss[k].models, oldIndex, newIndex);
  }

  /** Moving one model inside scenario `k` keeps every model id at a single position. */
  lemma MoveKeepsModelIdsDistinct(ss: seq<Scenario>, ss': seq<Scenario>, k: nat, from: nat, to: nat)
    requires ModelIdsDistinct(ss) && |ss'| == |ss| && k < |ss|
    requires from < |ss[k].models| && to < |ss[k].models|
    requires forall i :: 0 <= i < |ss| && i != k ==> ss'[i].models == ss[i].models
    requires ss'[k].models == ArrayMove(ss[k].models, from, to)
    ensures ModelIdsDistinct(ss')
  {
    forall i, j, a, b |
      0 <= i < |ss'| && 0 <= j < |ss'| && 0 <= a < |ss'[i].models| && 0 <= b < |ss'[j].models| &&
      (i != j || a != b)
      ensures ss'[i].models[a].id != ss'[j].models[b].id
    {
      var a' := if i == k then Origin(from, to, a) else a;
      var b' := if j == k then Origin(from, to, b) else b;
      if i == k { ArrayMoveAt(ss[k].models, from, to, a); }
      if j == k { ArrayMoveAt(ss[k].models, from, to, b); }
      if i == j && i == k { OriginInjective(from, to, a, b); }
      assert ss'[i].models[a] == ss[i].models[a'] && ss'[j].models[b] == ss[j].models[b'];
    }
  }

  /** A committed reorder keeps the collection well-formed. */
  lemma MovePreservesWellFormed(ss: seq<Scenario>, activeScenarioId: Option<string>, active: string, over: Option<string>)
    requires WellFormed(ss)
    requires Resolvable(ss, activeScenarioId, active, over)
    requires EndDrag(ss, activeScenarioId, active, over).Moved?
    ensures WellFormed(EndDrag(ss, activeScenarioId, active, over).scenarios)
  {
    var ss' := EndDrag(ss, activeScenarioId, active, over).scenarios;
    var k := FindIndex(ss, WithId(activeScenarioId.value));
    FindIsAtFindIndex(ss, WithId(activeScenarioId.value));
    MoveTouchesOnlyActiveScenario(ss, activeScenarioId, active, over);
    MoveReordersActiveScenario(ss, activeScenarioId, active, over, k);
    forall i | 0 <= i < |ss| && i != k
      ensures ss'[i].models == ss[i].models
    {
      assert ss[i].id != ss[k].id;
    }
    MoveKeepsModelIdsDistinct(ss, ss', k, FindIndex(ss[k].models, ById(active)), FindIndex(ss[k].models, ById(over.value)));
    SameScenarioIdsKeepWellFormed(ss, ss');
  }

  /** Scenario ids alone decide the first two conditions of well-formedness. */
  lemma SameScenarioIdsKeepWellFormed(ss: seq<Scenario>, ss': seq<Scenario>)
    requires WellFormed(ss) && ModelIdsDistinct(ss') && |ss'| == |ss|
    requires forall i :: 0 <= i < |ss| ==> ss'[i].id == ss[i].id
    ensures WellFormed(ss')
  {
  }

  /** Scenario "S" with [A, B, C]: dragging A onto C gives [B, C, A]. */
  lemma EndDragFirstOntoLast()
    ensures var a, b, c := Model("A", "A"), Model("B", "B"), Model("C", "C");
      var ss := [Scenario("S", "S", [a, b, c])];
      Resolvable(ss, Some("S"), "A", Some("C")) &&
      EndDrag(ss, Some("S"), "A", Some("C")) == Moved([Scenario("S", "S", [b, c, a])])
  {
    var a, b, c := Model("A", "A"), Model("B", "B"), Model("C", "C");
    var s := Scenario("S", "S", [a, b, c]);
    assert WithId("S")(s);
    assert Find([s], WithId("S")) == Some(s);
    assert ById("A")(a);
    assert FindIndex(s.models, ById("A")) == 0;
    assert ById("C")(c) && !ById("C")(a) && !ById("C")(b);
    FindIndexOfOnly(s.models, ById("C"), 2);
    ArrayMoveFirstToLast(a, b, c);
  }

  /** Scenario "S" with [A, B, C]: dragging B and dropping it on no target throws. */
  lemma EndDragNoTarget()
    ensures var ss := [Scenario("S", "S", [Model("A", "A"), Model("B", "B"), Model("C", "C")])];
      EndDrag(ss, Some("S"), "B", None) == ThrowsOnNullTarget
  {
  }

  /** The seed collection: five scenarios, model ids "<scenario>-<n>", all distinct. */
  lemma InitialScenariosWellFormed()
    ensures |InitialScenarios()| == 5
    ensures WellFormed(InitialScenarios())
  {
    var ss := InitialScenarios();
    forall i | 0 <= i < 5
      ensures ss[i].id == [SeedDigit(i)] && |ss[i].models| == 3
      ensures forall a :: 0 <= a < 3 ==> ss[i].models[a].id == [SeedDigit(i), '-', SeedDigit(a)]
    {
      SeedScenarioShape(i);
    }
    forall i, j, a, b |
      (0 <= i < |ss| && 0 <= j < |ss| && 0 <= a < |ss[i].models| && 0 <= b < |ss[j].models| && (i != j || a != b))
      ensures ss[i].models[a].id != ss[j].models[b].id
    {
      assert ss[i].models[a].id[0] == SeedDigit(i) && ss[i].models[a].id[2] == SeedDigit(a);
      assert ss[j].models[b].id[0] == SeedDigit(j) && ss[j].models[b].id[2] == SeedDigit(b);
    }
    forall i, j | 0 <= i < j < |ss|
      ensures ss[i].id != ss[j].id
    {
      assert ss[i].id[0] != ss[j].id[0];
    }
  }

  /** Seed scenario `i` has id "<i+1>" and three models with ids "<i+1>-1", "<i+1>-2", "<i+1>-3". */
  lemma SeedScenarioShape(i: nat)
    requires i < 5
    ensures |InitialScenarios()| == 5
    ensures InitialScenarios()[i].id == [SeedDigit(i)] && |InitialScenarios()[i].models| == 3
    ensures forall a :: 0 <= a < 3 ==> InitialScenarios()[i].models[a].id == [SeedDigit(i), '-', SeedDigit(a)]
  {
    var s := InitialScenarios()[i];
    var d := SeedDigit(i);
    if i == 0 { assert d == '1'; }
    else if i == 1 { assert d == '2'; }
    else if i == 2 { assert d == '3'; }
    else if i == 3 { assert d == '4'; }
    else { assert d == '5'; }
    assert SeedDigit(0) == '1' && SeedDigit(1) == '2' && SeedDigit(2) == '3';
    assert s.models[0].id == [d, '-', '1'];
    assert s.models[1].id == [d, '-', '2'];
    assert s.models[2].id == [d, '-', '3'];
  }

  /** The n-th of the digits "1", "2", ... the seed builds its ids from. */
  function SeedDigit(n: nat): char
    requires n < 9
  {
    (49 + n) as char
  }

  /** How a call of `handleDragEnd` returns. */
  datatype Completion = Returned | TypeError

  /** The component's three state fields and its two drag handlers. */
  class AppState {
    var scenarios: seq<Scenario>
    var activeId: Option<string>
    var activeScenarioId: Option<string>

    /**
     * The collection is well-formed, and the recorded scenario id is the one
     * the drag start computed for the recorded model id (none without a drag).
     */
    ghost predicate Valid()
      reads this
    {
      && WellFormed(scenarios)
      && (activeId.None? ==> activeScenarioId.None?)
      && (activeId.Some? ==> activeScenarioId == ActiveScenarioFor(scenarios, activeId.value))
    }

    constructor ()
      ensures Valid()
      ensures scenarios == InitialScenarios() && activeId.None? && activeScenarioId.None?
    {
      scenarios := InitialScenarios();
      activeId := None;
      activeScenarioId := None;
      InitialScenariosWellFormed();
    }

    /** `handleDragStart`: record the dragged id and the first scenario that holds it. */
    method DragStart(id: string)
      modifies this
      ensures scenarios == old(scenarios)
      ensures activeId == Some(id)
      ensures activeScenarioId == ActiveScenarioFor(scenarios, id)
      ensures WellFormed(scenarios) ==> Valid()
    {
      activeId := Some(id);
      var owner := Find(scenarios, Owns(id));
      activeScenarioId := if owner.Some? && owner.value.id != "" then Some(owner.value.id) else None;
    }

    /** `handleDragEnd`: commit the move inside the active scenario, then clear both ids. */
    method DragEnd(active: string, over: Option<string>) returns (c: Completion)
      requires Valid()
      requires Resolvable(scenarios, activeScenarioId, active, over)
      modifies this
      ensures Valid()
      ensures c == Returned ==> activeId.None? && activeScenarioId.None?
      ensures match EndDrag(old(scenarios), old(activeScenarioId), active, over)
        case Ignored =>
          c == Returned && scenarios == old(scenarios) && activeId.None? && activeScenarioId.None?
        case Moved(ss) =>
          c == Returned && scenarios == ss && activeId.None? && activeScenarioId.None?
        case ThrowsOnNullTarget =>
          c == TypeError && scenarios == old(scenarios) &&
          activeId == old(activeId) && activeScenarioId == old(activeScenarioId)
    {
      if over != Some(active) && Truthy(activeScenarioId) {
        var scenario := Find(scenarios, WithId(activeScenarioId.value));
        if scenario.Some? {
          var oldIndex := FindIndex(scenario.value.models, ById(active));
          if over.None? {
            // `over.id` in the second `findIndex` callback, run on the first model
            return TypeError;
          }
          var newIndex := FindIndex(scenario.value.models, ById(over.value));
          var newModels := ArrayMove(scenario.value.models, oldIndex, newIndex);
          MovePreservesWellFormed(scenarios, activeScenarioId, active, over);
          scenarios := ReplaceModels(scenarios, activeScenarioId.value, newModels);
        }
      }
      activeId := None;
      activeScenarioId := None;
      c := Returned;
    }
  }

  /**
   * In a well-formed collection, dragging the first of the three models of
   * scenario `k` onto its last one moves it to the end and changes nothing else.
   */
  lemma FirstOntoLastOfThree(ss: seq<Scenario>, k: nat)
    requires WellFormed(ss) && k < |ss| && |ss[k].models| == 3
    ensures var m := ss[k].models;
      && ActiveScenarioFor(ss, m[0].id) == Some(ss[k].id)
      && Resolvable(ss, Some(ss[k].id), m[0].id, Some(m[2].id))
      && EndDrag(ss, Some(ss[k].id), m[0].id, Some(m[2].id)) == Moved(ss[k := ss[k].(models := [m[1], m[2], m[0]])])
  {
    var m := ss[k].models;
    OwnerLookupUnique(ss, k, 0);
    GestureResolves(ss, k, 0, Some(m[2].id));
    FirstOntoLastCommits(ss, k);
  }

  /** The collection committed by the gesture of `FirstOntoLastOfThree`. */
  lemma FirstOntoLastCommits(ss: seq<Scenario>, k: nat)
    requires WellFormed(ss) && k < |ss| && |ss[k].models| == 3
    requires Resolvable(ss, Some(ss[k].id), ss[k].models[0].id, Some(ss[k].models[2].id))
    ensures var m := ss[k].models;
      EndDrag(ss, Some(ss[k].id), m[0].id, Some(m[2].id)) == Moved(ss[k := ss[k].(models := [m[1], m[2], m[0]])])
  {
    var m := ss[k].models;
    var sid, active, over := ss[k].id, m[0].id, Some(m[2].id);
    ScenarioLookupUnique(ss, k);
    FirstAndLastIndices(m);
    MoveReordersActiveScenario(ss, Some(sid), active, over, k);
    MoveTouchesOnlyActiveScenario(ss, Some(sid), active, over);
    ArrayMoveFirstToLast(m[0], m[1], m[2]);
    var ss' := EndDrag(ss, Some(sid), active, over).scenarios;
    assert ss'[k] == ss[k].(models := [m[1], m[2], m[0]]);
    OnlyOneScenarioDiffers(ss, ss', k);
  }

  /** In a list of three distinct model ids, the first id is found at 0 and the last at 2. */
  lemma FirstAndLastIndices(m: seq<Model>)
    requires |m| == 3 && m[0].id != m[1].id && m[0].id != m[2].id && m[1].id != m[2].id
    ensures FindIndex(m, ById(m[0].id)) == 0 && FindIndex(m, ById(m[2].id)) == 2
  {
    FindIndexOfOnly(m, ById(m[0].id), 0);
    FindIndexOfOnly(m, ById(m[2].id), 2);
  }

  /** Two collections of one length that agree everywhere except at `k`. */
  lemma OnlyOneScenarioDiffers(ss: seq<Scenario>, ss': seq<Scenario>, k: nat)
    requires WellFormed(ss) && |ss'| == |ss| && k < |ss|
    requires forall i :: 0 <= i < |ss| && ss[i].id != ss[k].id ==> ss'[i] == ss[i]
    ensures ss' == ss[k := ss'[k]]
  {
    forall i | 0 <= i < |ss| && i != k
      ensures ss'[i] == ss[i]
    {
      assert ss[i].id != ss[k].id;
    }
  }

  /** In the seed, dragging "1-1" onto "1-3" reorders the first scenario to 1-2, 1-3, 1-1 and nothing else. */
  lemma SeedFirstOntoLast()
    ensures var seed := InitialScenarios();
      && |seed| == 5
      && ActiveScenarioFor(seed, "1-1") == Some("1")
      && Resolvable(seed, Some("1"), "1-1", Some("1-3"))
      && EndDrag(seed, Some("1"), "1-1", Some("1-3"))
         == Moved(seed[0 := seed[0].(models := [seed[0].models[1], seed[0].models[2], seed[0].models[0]])])
  {
    InitialScenariosWellFormed();
    SeedScenarioShape(0);
    FirstOntoLastOfThree(InitialScenarios(), 0);
  }

  /** The same gesture driven through the two handlers of a freshly created page state. */
  method SeedGesture()
  {
    var app := new AppState();
    SeedFirstOntoLast();
    app.DragStart("1-1");
    var c := app.DragEnd("1-1", Some("1-3"));
    assert c == Returned && app.activeId.None? && app.activeScenarioId.None?;
    assert app.scenarios[0].models == [Model("1-2", "Claude-3"), Model("1-3", "Gemini Pro"), Model("1-1", "GPT-4")];
  }
}
