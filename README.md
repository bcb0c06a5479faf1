# Drag-reorder state of the AI model ranking page

The page shows five scenarios ("学习知识点", "图表绘制", ...), each a ranked list of
AI models. A user reorders the models inside one scenario by dragging. The
`App` component holds three pieces of state: the scenario collection, the id of
the model being dragged, and the id of the scenario that owns it. Two handlers
update them. `handleDragStart` records both ids. `handleDragEnd` moves the
dragged model to the drop target's position inside the recorded scenario, then
clears both ids.

This project models that state machine in Dafny:

- `wrappers.dfy`: `Option`, for the source's `string | null`.
- `js_array.dfy` (module `JsArray`): `findIndex`, `find` and `some`, the JavaScript
  array methods the handlers call, as recursive functions over `seq`.
- `sortable.dfy` (module `Sortable`): `arrayMove` of the drag-and-drop sorting
  library, specified as a single-element move. The element at `from` is taken
  out and reinserted at `to`. The library's code is not part of this model, so
  this is an assumption about it.
- `app.dfy` (module `App`): `Model` and `Scenario`, the seed collection, the
  `map`-with-spread update (`ReplaceModels`), and the pure outcome of a drag end
  (`EndDrag`). It also holds the class `AppState`, whose fields are the three
  state variables and whose methods `DragStart` and `DragEnd` are the two
  handlers. Their postconditions tie the new state to the pure functions.
- `scenario_card.dfy` (module `ScenarioCard`): the rank shown for a model, its
  position plus one.

The state is updated one field after another. React's batched, asynchronous
`setState` is not modelled.

Two edge cases of `handleDragEnd` are handled explicitly:

- **No drop target** (`over` is null). `active.id !== over?.id` is then true. If a
  scenario is recorded and found, the callback of the `findIndex` on line 110
  evaluates `over.id` on that scenario's first model and throws.
  `EndDrag` returns `ThrowsOnNullTarget`. `DragEnd` returns `TypeError` and leaves
  all three fields unchanged: the ids are not cleared, because lines 122-123 are
  never reached. Line 106 writes `over?.id`, so a null `over` was expected
  there, but line 110 writes `over.id`, which throws; this model follows what
  line 110 does. If the found scenario has no models, the callback
  never runs, and the handler goes on to `arrayMove([], -1, -1)`. That is
  library behaviour this model does not include, so `Resolvable` excludes the
  case. A drag started on a model of that scenario can never reach it.
- **Drop target outside the recorded scenario.** `findIndex` would return -1, and
  `arrayMove` with -1 is library behaviour this model does not include. The
  precondition `Resolvable` excludes this case. The lemma `GestureResolves` shows
  the precondition always holds when both ids lie in one scenario of a
  well-formed collection. The page gives each scenario its own drag context
  (`src/App.tsx:151-159`), and each context lists only that scenario's model ids
  (`src/components/ScenarioCard.tsx:29`), so both ids always share a scenario.

JavaScript truthiness is kept. `scenarioId || null` turns an empty scenario id
into null, and `&& activeScenarioId` treats `""` as absent. The predicate
`Truthy` and `ActiveScenarioFor` model both.

## Model

| member | source | states |
|---|---|---|
| `JsArray.FindIndex` | src/App.tsx:109-110 | the result is -1 exactly when no element matches; otherwise that element matches and no earlier one does |
| `JsArray.Find` | src/App.tsx:96-98 | the result is None exactly when no element matches; otherwise it is a matching element of the sequence |
| `JsArray.Any` | src/App.tsx:97 | true exactly when some element satisfies the predicate |
| `JsArray.FindIsAtFindIndex` | src/App.tsx:107-110 | `find` returns the element at the index `findIndex` reports, and None when that index is -1 |
| `JsArray.AnyIffFound` | src/App.tsx:96-97 | `some` holds exactly when `findIndex` finds an index |
| `JsArray.FindIndexOfOnly` | src/App.tsx:109-110 | when exactly one element matches, `findIndex` returns its position |
| `Sortable.ArrayMove` | src/App.tsx:112 | the result has the same length, holds the moved element at `to`, and with it removed equals the input with `from` removed, so the others keep their relative order |
| `Sortable.ArrayMoveAt` | src/App.tsx:112 | each position after the move holds the element from its origin: shifted by one between the indices, unchanged outside them |
| `Sortable.OriginInjective` | src/App.tsx:112 | no two positions after the move come from the same position before it |
| `Sortable.ArrayMovePermutes` | src/App.tsx:112 | the move keeps the multiset of elements: nothing is duplicated or lost |
| `Sortable.ArrayMoveUndo` | src/App.tsx:112 | moving back from `to` to `from` restores the original sequence |
| `Sortable.ArrayMoveFirstToLast` | src/App.tsx:112 | `[A, B, C]` moved from 0 to 2 is `[B, C, A]` |
| `App.InitialScenarios` | src/App.tsx:19-65 | the seed collection holds five scenarios; its ids and models are given by `SeedScenarioShape` |
| `App.ById` | src/App.tsx:109-110 | a definition with no contract: the callback `model => model.id === id` passed to both `findIndex` calls |
| `App.WithId` | src/App.tsx:107 | a definition with no contract: the callback `s => s.id === activeScenarioId` passed to `find` |
| `App.Owns` | src/App.tsx:96-98 | the drag-start callback holds of a scenario exactly when one of its models has the given id |
| `App.Truthy` | src/App.tsx:99 | a definition with no contract: JavaScript truthiness of a `string` or null, as used by the null fallback on line 99 and the test on line 106 (null and "" are falsy) |
| `App.InitialScenariosWellFormed` | src/App.tsx:19-65 | the seed holds 5 scenarios with non-empty, pairwise distinct ids, and no model id occurs twice |
| `App.SeedScenarioShape` | src/App.tsx:19-65 | seed scenario i has id "i+1" and three models with ids "i+1"-1, -2 and -3 |
| `App.ActiveScenarioFor` | src/App.tsx:96-99 | the recorded id is that of the first scenario, in collection order, that holds the model; it is null when no scenario holds it or that scenario's id is "" |
| `App.OwnerLookupUnique` | src/App.tsx:96-98 | in a well-formed collection the drag-start lookup finds the scenario that holds the model |
| `App.ScenarioLookupUnique` | src/App.tsx:107 | in a well-formed collection, looking up a scenario id finds that scenario and its index |
| `App.ReplaceModels` | src/App.tsx:114-118 | same length and order; every scenario keeps its id and name; scenarios with the active id get the new models and all others are unchanged |
| `App.EndDrag` | src/App.tsx:106-119 | it returns without reordering (`Ignored`) exactly when the target equals the dragged id, no truthy scenario id is recorded, or no scenario has that id; it throws exactly when the target is null and the scenario is found with at least one model |
| `App.GestureResolves` | src/App.tsx:151-159 | after a drag start on a well-formed collection, a drop target in the dragged model's scenario meets the drag-end precondition |
| `App.MoveTouchesOnlyActiveScenario` | src/App.tsx:114-118 | a committed reorder keeps the collection's length and every scenario's id and name, and changes no scenario with another id |
| `App.MoveReordersActiveScenario` | src/App.tsx:107-116 | the active scenario's models become `arrayMove(models, oldIndex, newIndex)`, with the same length and multiset, and the dragged model at `newIndex` |
| `App.MoveKeepsModelIdsDistinct` | src/App.tsx:112-118 | moving a model inside one scenario keeps every model id at a single position |
| `App.MovePreservesWellFormed` | src/App.tsx:103-124 | a committed reorder keeps the collection well-formed |
| `App.EndDragFirstOntoLast` | src/App.tsx:106-118 | scenario S with `[A, B, C]`: dragging A onto C commits `[B, C, A]` |
| `App.EndDragNoTarget` | src/App.tsx:106-110 | scenario S with `[A, B, C]`: dragging B with no drop target throws |
| `App.FirstOntoLastOfThree` | src/App.tsx:93-124 | in a well-formed collection, dragging a three-model scenario's first model onto its last moves it to the end and changes nothing else |
| `App.SeedFirstOntoLast` | src/App.tsx:19-124 | from the seed, dragging "1-1" onto "1-3" reorders the first scenario to 1-2, 1-3, 1-1 and leaves the rest as seeded |
| `App.AppState.constructor` | src/App.tsx:68-70 | the state starts from the seed with no dragged model and no recorded scenario |
| `App.AppState.DragStart` | src/App.tsx:93-100 | records the dragged id and the first owning scenario's id; the scenarios are unchanged |
| `App.AppState.DragEnd` | src/App.tsx:103-124 | commits the outcome of `EndDrag`: on a normal return both ids are cleared; with a null target the collection is unchanged, and when a scenario with models is recorded and found the call throws and both ids are kept too; the collection stays well-formed |
| `ScenarioCard.RankOf` | src/components/ScenarioCard.tsx:30-34 | a model's rank lies between 1 and the list's length and names that model; None exactly when the list does not hold it |
| `ScenarioCard.RankIsPosition` | src/components/ScenarioCard.tsx:30-34 | with distinct ids, the model at index i is shown with rank i + 1 |
| `ScenarioCard.DraggedTakesTargetRank` | src/App.tsx:109-112 | after a reorder, the dragged model has the rank the drop target had before |
| `ScenarioCard.OtherRanksKept` | src/App.tsx:112 | after a reorder, models outside the stretch between the two indices keep their rank |

## Left out

- Loading the collection from `localStorage` and `JSON.parse` (src/App.tsx:80-90) is browser I/O and a foreign parser. The model always starts from the seed. On a successful parse the page would replace the seed with data whose well-formedness nothing checks.
- The app never writes the collection back to storage, so there is no save to model.
- Rendering is not modelled: the header, tabs, footer and card layout (src/App.tsx:126-174), `ModelItem`, and the `isActive` highlight (src/components/ScenarioCard.tsx:35). Only the rank is kept.
- The drag-and-drop library's sensors, closest-centre collision detection and vertical-axis modifier (src/App.tsx:72-77, 155-158) are library behaviour. They decide which `active` and `over` ids reach the handlers, and the model takes those ids as parameters.
- React semantics are not modelled: asynchronous and batched `setState`, and the stale `activeScenarioId` a handler closure may read. The three fields are plain fields updated in sequence.
- Sortable.ArrayMove: only indices inside the list are modelled. The library's behaviour for the index -1 that `findIndex` returns on a miss is not, and `Resolvable` excludes that case.
- App.AppState.DragEnd: requires `Resolvable`, so a drop target id outside the recorded scenario is excluded rather than modelled.
- App.EndDrag: a null drop target on a found scenario with no models is excluded by `Resolvable`, because the source then calls `arrayMove` with -1.
- Drag identifiers are modelled as strings only. The library also allows numeric ids, which the page never uses.
