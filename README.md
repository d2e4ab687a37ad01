# Audio game engine core: event rules and navigation, in Dafny

This project models two parts of a browser audio game engine.

- **The event rule engine, `AGEventHandler`.** A handler keeps two ordered lists.
  - Events (`_events`) are rules of the form "when `trigger` happens to `origin`, move `addObject` between inventories". They fire a limited number of times, counted by `repeat`.
  - GlobalEvents (`_globalEvents`) are rules that watch an inventory query. When the query returns the expected value, they fire an engine action. The only such action is WINGAME, which marks the room solved.

  The handler finds rules by tuple and by ID, dispatches trigger calls, evaluates global rules, and removes rules one at a time or by cascade when an item or object is deleted.
- **The movement controller, `AGNavigation`.** It covers:
  - the collision rule;
  - `move` with its rollback;
  - the eight-ray probe over the mover's mid-height silhouette, which places the collision sound at the nearest hit;
  - the heading angle and rotation;
  - the shared key bindings and the key switch of `draw`.

Files:

- `optional.dfy`: the `Option` datatype (`None` stands for `null`/`undefined`).
- `event_spec.dfy`, module `EventSpec`: the data (Events, GlobalEvents and other objects, by ID), the specification functions of each operation, and the lemmas about them.
- `event_handler.dfy`, module `EventEngine`: class `EventHandler`. Its fields are the lists, the reachable objects, the live reference table and the `solved` flag. Its methods change them in place, each proved against `EventSpec`.
- `geometry.dfy`, module `Geometry`: vectors over `real`, box corners, the silhouette, `getAngle` and `rotateAroundPoint`.
- `navigation.dfy`, module `Navigation`:
  - `allowedCollision`;
  - the ray plan and the nearest-hit selection;
  - `pointOfIntersectionForSound`, `extractPointToArray` and `move`, with the mover as a class whose `position` changes in place;
  - the key bindings (a class shared by every `AGNavigation`) and the `draw` key handler.

### Object identity

Every referenceable object gets its ID from a global counter, and IDs are never reused. An ID therefore stands for the object's identity: `===` on objects is `==` on IDs.

- The handler's lists hold IDs.
- `heap` maps each ID to what it names, so an Event listed twice shares one `repeat`.
- `references` is the set of IDs that `getReferenceById` still resolves.

Resolving an ID that was released gives `undefined`. `removeEvent` then reads a field of it and throws. The model returns `HandleNotFound` and leaves the state as it was. A cascade stops at that point and keeps the removals already made.

`call` reaches the inventory of the objects an Event names: `object` for ADD, `origin` for REMOVE, both for MOVE. Which objects have an inventory is a parameter. A call on an object without one throws a TypeError. The model returns `NoInventory`: the throwing Event keeps its `repeat` (the decrement comes after the action), a MOVE has made its `removeItem` call by the time its `addItem` throws, and the Events after it in the list are not fired.

### Where the code differs from its stated design

The model follows the code.

- `call` decrements `repeat` whenever the Event fires. An "unlimited" Event at -1 goes to -2 after its first firing and never fires again (`EventSpec.UnlimitedFiresOnce`).
- `removeEvent` and `removeGlobalEvent` splice at the index `find*Index` returns.
  - If the rule is absent, that index is -1, and `splice(-1, 1)` removes the **last** entry of a non-empty list. This is not a no-op.
- `removeGlobalEventByID` calls `removeEvent`, not `removeGlobalEvent`.
  - A GlobalEvent is never tuple-equal to an Event, so this deletes the last Event of `_events` and leaves `_globalEvents` untouched.
  - The GlobalEvent cascade inherits this (`EventSpec.GlobalCascadeDropsUnrelatedEvent`).
- The cascades walk a list with `forEach` while removing from it. After a removal, the next entry shifts under the index just visited and is skipped. A matching rule can therefore survive (`EventSpec.CascadeSkipsNeighbour`).
- `move` computes the collision sound against `PoC[0]` (src/AGNavigation.js:54), the first entry of the collision list. That entry may be the mover itself or a portal, not the object that made the collision disallowed.
- `extractPlanePoint` offsets the height by half of `size.x`, not `size.y`. The corners of the "edges" p2-p3 and p4-p1 are opposite corners of the box, so these two rays cross the mover's centre rather than run along a side (`Geometry.SilhouetteDiagonals`).

## Model

| member | source | states |
|---|---|---|
| EventSpec.EventIndex | src/AGEventHandler.js:142-152 | the index of the first entry equal to the argument on (origin, trigger, action, object, addObject), or -1 exactly when no entry is |
| EventSpec.GlobalIndex | src/AGEventHandler.js:159-165 | the first position holding the ID, or -1 exactly when the ID is not listed |
| EventSpec.SpliceOne | src/AGEventHandler.js:53 | `splice(start, 1)` keeps only entries of the list and never lengthens it |
| EventSpec.RemoveFirstMatch | src/AGEventHandler.js:51-54 | when some entry is tuple-equal, `removeEvent` removes exactly the first such entry and keeps the order of the rest |
| EventSpec.RemoveAbsentDropsLast | src/AGEventHandler.js:51-54 | when no entry is tuple-equal, `removeEvent` removes the last entry of a non-empty list and leaves an empty list empty |
| EventSpec.RemoveGlobalCases | src/AGEventHandler.js:70-73 | `removeGlobalEvent` removes the first occurrence of a listed ID, and the last GlobalEvent when the ID is absent |
| EventSpec.RemoveById | src/AGEventHandler.js:41-45 | removal by ID fails exactly when the ID no longer resolves, and then changes nothing; otherwise it releases the ID and changes only `_events` |
| EventSpec.RemoveGlobalByIdHitsEvents | src/AGEventHandler.js:60-64 | `removeGlobalEventByID` of a live GlobalEvent releases its ID, keeps `_globalEvents` and drops the last Event |
| EventSpec.Matching | src/AGEventHandler.js:234-244 | the result holds only listed Events whose origin and trigger are the given ones |
| EventSpec.MatchingSingle | src/AGEventHandler.js:237-241 | a single entry is kept exactly when its origin and trigger match |
| EventSpec.MatchingAppend | src/AGEventHandler.js:234-244 | filtering distributes over concatenation, so the result is the order-preserving sub-list of the matching Events |
| EventSpec.RunAction | src/AGEventHandler.js:258-294 | an action completes exactly when every object it calls has an inventory, and then makes the calls of its action; otherwise it makes a strict prefix of them |
| EventSpec.DispatchFrom | src/AGEventHandler.js:254-297 | the loop of `call` keeps every object's identity and every Event's tuple, changes only `repeat`, leaves unlisted objects alone, and ends with `Ok` or `NoInventory` |
| EventSpec.DispatchKeepsValid | src/AGEventHandler.js:254-297 | the loop of `call` keeps the handler invariant |
| EventSpec.ResumeHead | src/AGEventHandler.js:254-297 | firing the first listed Event and then the rest gives the same heap and call log as the whole loop |
| EventSpec.FiredOpsAgree | src/AGEventHandler.js:254-297 | the calls made by a list of Events depend only on those Events' records |
| EventSpec.DispatchDistinct | src/AGEventHandler.js:254-297 | over distinct Events none of which throws, the loop ends with `Ok`; each Event with `repeat >= 1` or `-1` fires once and drops by one; the others are unchanged and make no call; the calls come in list order |
| EventSpec.DispatchStops | src/AGEventHandler.js:254-297 | over distinct Events, when the one at `k` is the first to throw, the loop ends with `NoInventory` after the calls of the Events before it and the calls the throwing one made before its throw |
| EventSpec.DispatchStopsHeap | src/AGEventHandler.js:254-297 | in the same case, the Events before `k` have fired and dropped by one, while the throwing one and all later ones keep their `repeat` |
| EventSpec.MissingInventoryStopsCall | src/AGEventHandler.js:267-295 | a REMOVE rule whose origin has no inventory throws before any call and before its `repeat--`, so it keeps its count and the rule after it does not fire |
| EventSpec.UnlimitedFiresOnce | src/AGEventHandler.js:255-295 | an Event at -1 makes its calls, is left at -2, and makes no call on the next dispatch |
| EventSpec.AliasedEventFiresOnce | src/AGEventHandler.js:254-297 | an Event listed twice with `repeat == 1` fires on its first occurrence only, because both entries share the counter |
| EventSpec.DoorKeyScenario | src/AGEventHandler.js:234-298 | a contact rule that adds a key once makes exactly one `addItem` on the first call and none on the second |
| EventSpec.Evaluate | src/AGEventHandler.js:105-123 | evaluating a GlobalEvent changes at most its own record and the `solved` flag, and never the lists or the reference table |
| EventSpec.EvaluateAll | src/AGEventHandler.js:89-93 | evaluating a list changes only the records of listed GlobalEvents and the `solved` flag |
| EventSpec.EvaluateLocal | src/AGEventHandler.js:105-123 | the outcome for a GlobalEvent depends on nothing but its own record |
| EventSpec.EvaluateAllEach | src/AGEventHandler.js:89-93 | over distinct GlobalEvents, each is evaluated against its own record as it stood before the pass |
| EventSpec.EvaluateAllSolves | src/AGEventHandler.js:89-93 | with no short-circuit, the room ends solved exactly when it already was or some listed WINGAME rule fires, wherever it stands, even when a GlobalEvent is listed twice |
| EventSpec.CascadeFrom | src/AGEventHandler.js:171-212 | a cascade keeps the handler invariant, never changes the objects, `_globalEvents` or `solved`, and only releases IDs |
| EventSpec.DeletesOnlyRefl | src/AGEventHandler.js:171-197 | a list that lost nothing has lost only matching Events |
| EventSpec.DeletesOnlyRemoveAt | src/AGEventHandler.js:171-197 | taking out one more matching Event keeps the "removed only matching Events, order kept" relation |
| EventSpec.CascadeStep | src/AGEventHandler.js:174-179 | removing the visited hit by ID takes out a matching Event |
| EventSpec.CascadeRemovesOnlyHitsFrom | src/AGEventHandler.js:174-196 | from any index on, the cascade removes only matching Events and releases only their IDs |
| EventSpec.CascadeRemovesOnlyHits | src/AGEventHandler.js:171-197 | the item and object cascades remove only Events that meet their criterion, keep the order of the rest, release only those Events' IDs and leave `_globalEvents` alone |
| EventSpec.SurvivorsFilter | src/AGEventHandler.js:171-197 | the survivors of a list are exactly its entries that do not meet the cascade's criterion |
| EventSpec.CascadeRemovesAllHitsFrom | src/AGEventHandler.js:174-196 | from a point where the list is the survivors of the entries dealt with followed by the rest, the walk ends with `Ok`, the survivors of the whole list, and the IDs of all hits released |
| EventSpec.CascadeRemovesAllHits | src/AGEventHandler.js:171-197 | over distinct Events whose hits are live and never adjacent, the item and object cascades end with `Ok`, keep exactly the Events that do not meet their criterion, in order, and release exactly the hits' IDs |
| EventSpec.CascadeSkipsNeighbour | src/AGEventHandler.js:171-180 | with two adjacent Events holding the item, the item cascade removes the first and leaves the second |
| EventSpec.GlobalCascadeDropsUnrelatedEvent | src/AGEventHandler.js:203-212 | the GlobalEvent cascade keeps the matching GlobalEvent listed and deletes an unrelated Event |
| EventEngine.EventHandler.constructor | src/AGEventHandler.js:79-86 | a new handler registers itself under a fresh ID, with empty lists |
| EventEngine.EventHandler.AddEvent | src/AGEventHandler.js:32-35 | the Event's ID is appended to `_events`, nothing else changes |
| EventEngine.EventHandler.AddGlobalEvent | src/AGEventHandler.js:95-98 | the GlobalEvent's ID is appended to `_globalEvents`, nothing else changes |
| EventEngine.EventHandler.FindEventIndex | src/AGEventHandler.js:142-152 | the first tuple-equal index, or -1 exactly when there is none |
| EventEngine.EventHandler.FindGlobalEventIndex | src/AGEventHandler.js:159-165 | the first position of the ID, or -1 exactly when it is absent |
| EventEngine.EventHandler.RemoveEvent | src/AGEventHandler.js:51-54 | `_events` becomes the splice at `findEventIndex`, nothing else changes |
| EventEngine.EventHandler.RemoveEventByID | src/AGEventHandler.js:41-45 | the new state and status are those of `RemoveById` |
| EventEngine.EventHandler.RemoveGlobalEvent | src/AGEventHandler.js:70-73 | `_globalEvents` becomes the splice at `findGlobalEventIndex`, nothing else changes |
| EventEngine.EventHandler.RemoveGlobalEventByID | src/AGEventHandler.js:60-64 | the same outcome as `removeEventByID`, as the bodies are the same |
| EventEngine.EventHandler.FireAction | src/AGEventHandler.js:129-135 | WINGAME sets `solved`; any other action leaves it as it was |
| EventEngine.EventHandler.EvaluateGlobalEvent | src/AGEventHandler.js:105-123 | true exactly when the repeat guard, INVENTORY source, inventory presence and expected value all hold; on false nothing changes; on true the action is fired and only a positive `repeat` drops by one |
| EventEngine.EventHandler.EvaluateGlobalEvents | src/AGEventHandler.js:89-93 | the state after evaluating every GlobalEvent of the list in order |
| EventEngine.EventHandler.FindEventsAfterCall | src/AGEventHandler.js:234-244 | exactly the order-preserving sub-list of Events with the given origin and trigger |
| EventEngine.EventHandler.FireEvent | src/AGEventHandler.js:255-296 | an Event with `repeat >= 1` or `-1` completes exactly when every object it calls has an inventory; it then makes the calls of its action (ADD, REMOVE, or REMOVE then ADD for MOVE) and drops by one; on a throw it keeps its `repeat` and makes only the calls before the throw; an inactive Event does nothing |
| EventEngine.EventHandler.Call | src/AGEventHandler.js:251-298 | the heap, the inventory calls and the status (`Ok`, or `NoInventory` at the first throw) are those of dispatching the matching Events in list order |
| EventEngine.EventHandler.RemoveHits | src/AGEventHandler.js:174-179 | the `forEach` removal loop ends in the state and status of the cascade specification |
| EventEngine.EventHandler.DeleteEventsContainingItemById | src/AGEventHandler.js:171-180 | the outcome of the item cascade for the resolved item |
| EventEngine.EventHandler.DeleteEventsContainingObjectById | src/AGEventHandler.js:186-197 | the outcome of the object cascade over `addObject`, `origin` and `object` |
| EventEngine.EventHandler.DeleteGlobalEventsContainingObjectById | src/AGEventHandler.js:203-212 | the outcome of the GlobalEvent cascade over `object` |
| Geometry.PlanePointsAroundCentre | src/AGNavigation.js:309-312 | opposite box points are symmetric about the centre and lie `size.x`, `size.x` and `size.z` apart in x, y and z |
| Geometry.CornerAtMidHeight | src/AGNavigation.js:68-84 | top and bottom points lie `size.x` apart vertically; each mid-height corner has the centre's height and the box's corner x and z |
| Geometry.JsRem | src/AGNavigation.js:174 | JavaScript's `%`: below the divisor in size, equal to Dafny's remainder for a non-negative dividend, non-positive for a negative one |
| Geometry.GetAngle | src/AGNavigation.js:171-175 | congruent to 180 + heading modulo 360; in [0, 360) for a heading in [-180, 180], with 180 wrapping to 0 |
| Geometry.RotateAroundPoint | src/AGNavigation.js:177-184 | the height is kept and the centre maps to itself |
| Geometry.RotationKeepsRadius | src/AGNavigation.js:177-184 | with cos² + sin² = 1 the horizontal distance to the centre is kept |
| Geometry.RotationKeepsMidpoint | src/AGNavigation.js:177-184 | the rotation maps the midpoint of two points to the midpoint of their images |
| Geometry.SilhouetteDiagonals | src/AGNavigation.js:68-90 | the midpoints of p2-p3 and of p4-p1 are the mover's centre, whatever the heading |
| Navigation.AllowedCollision | src/AGNavigation.js:20-28 | true exactly when every colliding object is the mover or a portal; false only for a non-empty list |
| Navigation.RayPlan | src/AGNavigation.js:93-113 | eight rays, each between corners consecutive in the order p1-p2-p3-p4-p1, all distinct, each with its reverse among them |
| Navigation.RayDirections | src/AGNavigation.js:105-113 | there are eight directions |
| Navigation.RaysFollowPlan | src/AGNavigation.js:93-113 | ray i starts at corner `RayOrigins[i]` and aims at corner `RayTargets[i]` |
| Navigation.Select | src/AGNavigation.js:118-137 | none exactly when no ray hit at a non-zero distance; otherwise the point of the earliest ray at the least distance, which no eligible ray undercuts |
| Navigation.ImpactEffectsCases | src/AGNavigation.js:124-162 | effects only with an audio communicator; a dot exactly when some ray hit; the hit sound exactly for a player that has one and a hit |
| Navigation.ExtractPointToArray | src/AGNavigation.js:186-193 | a hit appends the point and yields its distance; a miss yields 0 and appends nothing |
| Navigation.BuildRays | src/AGNavigation.js:92-113 | the pushed `points` and `dirs` are the eight planned rays |
| Navigation.NearestHit | src/AGNavigation.js:115-137 | `smallest` and `smallestDist` are the selection over the eight ray outcomes |
| Navigation.PointOfIntersectionForSound | src/AGNavigation.js:64-169 | the effects are those of the raycast over the mover's rotated silhouette |
| Navigation.MoveCases | src/AGNavigation.js:36-62 | a disallowed collision has a first colliding object (the list's first entry, possibly the mover or a portal), sounds against it and restores the start; outside the room the start is restored silently; otherwise the mover keeps the displaced position |
| Navigation.Move | src/AGNavigation.js:36-62 | the new position and effects are those of `MoveOutcome`, with `timeDiff` 1 without a timestamp |
| Navigation.KeyIntent | src/AGNavigation.js:401-421 | -1 selects nothing; otherwise the first case in switch order whose key is pressed, and nothing exactly when no binding matches |
| Navigation.Navigation.constructor | src/AGNavigation.js:381-393 | the shared bindings become the five given key codes |
| Navigation.Navigation.SetForward | src/AGNavigation.js:330-334 | only the forward binding changes |
| Navigation.Navigation.SetBackward | src/AGNavigation.js:340-344 | only the backward binding changes |
| Navigation.Navigation.SetLeft | src/AGNavigation.js:350-354 | only the left binding changes |
| Navigation.Navigation.SetRight | src/AGNavigation.js:360-364 | only the right binding changes |
| Navigation.Navigation.SetInteract | src/AGNavigation.js:370-372 | only the interact binding changes |
| Navigation.Navigation.KeyDown | src/AGNavigation.js:401-425 | forward and backward move along and against the direction without a timestamp; left and right turn by ±8 degrees; interact interacts; any other key does nothing |

## Left out

- `src/AGSoundSource.js`: Web Audio wiring and a DOM audio element; the hit sound is the `PlayHitSound` effect.
- The history recorder (`g_history.ike`), the `g_loading`/`g_playing` flags and `console.log`: they do not affect the modelled state.
- Collaborators in other files are parameters, and their code is not part of this model:
  - `frbIntersectionPoint`;
  - `objectPartOfCollisions` after `room.checkForCollision`;
  - `room.pointInsideRoom`;
  - the inventory query of a GlobalEvent.
- `inventory.addItem` and `removeItem` are recorded as a log of calls, not performed. Whether an object has an inventory is a set passed to `call`.
- The reference table `g_references` and the room's `solved` flag are process-wide (src/AGEventHandler.js:44, 63, 81, 132). Each `EventHandler` holds them as its own fields, so changes made between its calls by other handlers, by `AGNavigation` or by other engine code are not modelled.
- The `AGNavigation` constructor registers the new object in `g_references` (src/AGNavigation.js:383). The model's constructor takes the fresh ID but keeps no reference table.
- `getReferenceById` is the set of live IDs. `IncrementOneCounter` is a fresh ID passed to the constructors.
- `new Date()`: `move` takes the milliseconds elapsed since its timestamp.
- Floating point is not modelled. Vectors are over `real`, so the rollback of `move` is exact, and `Number.MAX_VALUE` is its exact value.
- `Math.atan2`/`Math.round` (the heading), `Math.cos`/`Math.sin`, `normalize`, `distanceTo` and `applyAxisAngle` (the ±8 degree turn) are oracle functions.
- `window.onkeydown` registration: `KeyDown` is the handler body. `player.interact()` is the `Interacted` effect, since its code is not part of this model.
- The getters of `AGEventHandler` and `AGNavigation`: they return a field.
- `pairDistancePoint` and `intersectPoints` are built but not returned, since nothing outside the raycast reads them.
- Commented-out code: `findEvent`, `pointOfIntersection`, `planeIntersectPlane`, `pointInsideSphere` and `calculatePlanesCCW`.
- EventEngine.EventHandler.AddEvent: requires that the ID resolve to an Event. Pushing `undefined` for a released ID is not modelled, because no later operation could use such an entry.
- EventEngine.EventHandler.AddGlobalEvent: requires that the ID resolve to a GlobalEvent, for the same reason.
- EventSpec.SpliceOne: states only that no entry is added. The exact removal is stated by `RemoveFirstMatch`, `RemoveAbsentDropsLast` and `RemoveGlobalCases`.
- Navigation.RayDirections: states only the count. The pairing of each direction with its corners is stated through `BuildRays` and `RaysFollowPlan`.
