/**
 * `AGEventHandler`: the rule lists of one handler, changed in place by its
 * methods. Each method is proved against the specification functions of
 * module EventSpec, whose properties are proved there.
 */
module EventEngine {
  import opened Optional
  import opened EventSpec

  class EventHandler {
    const id: Handle
    /** `_events`: the Events of this handler, by ID, in insertion order. */
    var events: seq<Handle>
    /** `_globalEvents`: the GlobalEvents of this handler, by ID, in insertion order. */
    var globalEvents: seq<Handle>
    /** Every object the handler can reach, under its ID. */
    var heap: map<Handle, Record>
    /** The IDs that the global reference table still resolves. */
    var references: set<Handle>
    /** The `solved` flag of the listener's room, which WINGAME sets. */
    var solved: bool

    function State(): Engine
      reads this
    {
      Engine(events, globalEvents, heap, references, solved)
    }

    predicate Valid()
      reads this
    {
      EventSpec.Valid(State())
    }

    /** A new handler registers itself under a fresh ID and starts with empty lists. */
    constructor (id: Handle, heap: map<Handle, Record>, references: set<Handle>, solved: bool)
      requires references <= heap.Keys && id !in heap
      ensures Valid() && this.id == id
      ensures State() == Engine([], [], heap[id := OtherRecord], references + {id}, solved)
    {
      this.id := id;
      this.heap := heap[id := OtherRecord];
      this.references := references + {id};
      this.solved := solved;
      this.events := [];
      this.globalEvents := [];
    }

    /** `addEvent`: appends the Event the ID resolves to. */
    method AddEvent(eventID: Handle)
      requires Valid() && eventID in references && heap[eventID].EventRecord?
      modifies this
      ensures Valid() && State() == old(State()).(events := old(events) + [eventID])
    {
      events := events + [eventID];
    }

    /** `addGlobalEvent`: appends the GlobalEvent the ID resolves to. */
    method AddGlobalEvent(eventID: Handle)
      requires Valid() && eventID in references && heap[eventID].GlobalRecord?
      modifies this
      ensures Valid() && State() == old(State()).(globals := old(globalEvents) + [eventID])
    {
      globalEvents := globalEvents + [eventID];
    }

    /** `findEventIndex`: the first entry tuple-equal to `event`, or -1 when there is none. */
    method FindEventIndex(event: Record) returns (index: int)
      ensures -1 <= index < |events|
      ensures 0 <= index ==> TupleMatch(heap, events[index], event)
      ensures 0 <= index ==> forall j | 0 <= j < index :: !TupleMatch(heap, events[j], event)
      ensures index == -1 <==> forall j | 0 <= j < |events| :: !TupleMatch(heap, events[j], event)
      ensures index == EventIndex(events, heap, event)
    {
      var i := 0;
      while i < |events|
        invariant 0 <= i <= |events|
        invariant forall j | 0 <= j < i :: !TupleMatch(heap, events[j], event)
      {
        if TupleMatch(heap, events[i], event) {
          return i;
        }
        i := i + 1;
      }
      return -1;
    }

    /** `findGlobalEventIndex`: the first position of the GlobalEvent with ID `eventID`, or -1. */
    method FindGlobalEventIndex(eventID: Handle) returns (index: int)
      ensures -1 <= index < |globalEvents|
      ensures 0 <= index ==> globalEvents[index] == eventID && eventID !in globalEvents[..index]
      ensures index == -1 <==> eventID !in globalEvents
      ensures index == GlobalIndex(globalEvents, eventID)
    {
      var i := 0;
      while i < |globalEvents|
        invariant 0 <= i <= |globalEvents|
        invariant eventID !in globalEvents[..i]
      {
        if globalEvents[i] == eventID {
          return i;
        }
        assert globalEvents[..i + 1] == globalEvents[..i] + [globalEvents[i]];
        i := i + 1;
      }
      assert globalEvents[..i] == globalEvents;
      return -1;
    }

    /** `removeEvent`: splices `_events` at `findEventIndex(event)`. */
    method RemoveEvent(event: Record)
      requires Valid()
      modifies this
      ensures Valid() && State() == old(State()).(events := RemoveEventFrom(old(events), heap, event))
    {
      var index := FindEventIndex(event);
      events := SpliceOne(events, index);
    }

    /** `removeEventByID`: removes the Event the ID resolves to, then deletes the table entry. */
    method RemoveEventByID(eventID: Handle) returns (status: Status)
      requires Valid()
      modifies this
      ensures Valid() && Outcome(State(), status) == RemoveById(old(State()), eventID)
    {
      if eventID !in references {
        return HandleNotFound;
      }
      RemoveEvent(heap[eventID]);
      references := references - {eventID};
      status := Ok;
    }

    /** `removeGlobalEvent`: splices `_globalEvents` at `findGlobalEventIndex`. */
    method RemoveGlobalEvent(eventID: Handle)
      requires Valid()
      modifies this
      ensures Valid() && State() == old(State()).(globals := RemoveGlobalFrom(old(globalEvents), eventID))
    {
      var index := FindGlobalEventIndex(eventID);
      globalEvents := SpliceOne(globalEvents, index);
    }

    /** `removeGlobalEventByID`: goes through `removeEvent`, exactly as `removeEventByID` does. */
    method RemoveGlobalEventByID(eventID: Handle) returns (status: Status)
      requires Valid()
      modifies this
      ensures Valid() && Outcome(State(), status) == RemoveById(old(State()), eventID)
    {
      if eventID !in references {
        return HandleNotFound;
      }
      RemoveEvent(heap[eventID]);
      references := references - {eventID};
      status := Ok;
    }

    /** `fireAction`: only WINGAME does something; it marks the room solved. */
    method FireAction(action: Action)
      modifies this`solved
      ensures solved == (old(solved) || action == WinGame)
      ensures solved == FireActionOn(old(solved), action)
    {
      if action == WinGame {
        solved := true;
      }
    }

    /**
     * `evaluateGlobalEvent`: true exactly when the repeat guard passes, the condition
     * source is INVENTORY, the object has an inventory and the query returns the
     * expected value; only then is the action fired and a positive `repeat`
     * decremented (-1 stays -1). On false nothing changes.
     */
    method EvaluateGlobalEvent(h: Handle, inventories: set<Handle>, condition: Condition) returns (fired: bool)
      requires Valid() && h in heap && heap[h].GlobalRecord?
      modifies this
      ensures Valid() && (State(), fired) == Evaluate(old(State()), h, inventories, condition)
      ensures fired <==> GlobalFires(old(heap)[h].global, inventories, condition)
      ensures !fired ==> State() == old(State())
      ensures fired ==> solved == (old(solved) || old(heap)[h].global.action == WinGame)
      ensures fired ==> heap[h].GlobalRecord? && heap[h].global.repeat ==
                          (if old(heap)[h].global.repeat >= 1 then old(heap)[h].global.repeat - 1 else old(heap)[h].global.repeat)
    {
      var g := heap[h].global;
      if g.repeat >= 1 || g.repeat == -1 {
        if g.conditionObject == "INVENTORY" {
          if g.obj in inventories {
            if condition(g.query, g.obj, g.args) == g.value {
              FireAction(g.action);
              if g.repeat >= 1 {
                heap := heap[h := GlobalRecord(g.(repeat := g.repeat - 1))];
              } else {
                assert heap == old(heap)[h := GlobalRecord(g)];
              }
              return true;
            }
          }
        }
      }
      return false;
    }

    /** `evaluateGlobalEvents`: evaluates every GlobalEvent of the list, in order. */
    method EvaluateGlobalEvents(inventories: set<Handle>, condition: Condition)
      requires Valid()
      modifies this
      ensures Valid() && State() == EvaluateAll(old(State()), old(globalEvents), inventories, condition)
    {
      var i := 0;
      while i < |globalEvents|
        invariant 0 <= i <= |globalEvents| && Valid()
        invariant globalEvents == old(globalEvents)
        invariant AllGlobals(heap, globalEvents[i..])
        invariant EvaluateAll(State(), globalEvents[i..], inventories, condition)
          == EvaluateAll(old(State()), old(globalEvents), inventories, condition)
      {
        var h := globalEvents[i];
        assert h in globalEvents;
        assert globalEvents[i..][1..] == globalEvents[i + 1..];
        var _ := EvaluateGlobalEvent(h, inventories, condition);
        i := i + 1;
      }
    }

    /** `findEventsAfterCall`: the Events whose origin and trigger are the given ones. */
    method FindEventsAfterCall(origin: Handle, trigger: Trigger) returns (found: seq<Handle>)
      ensures found == Matching(events, heap, origin, trigger)
      ensures forall h | h in found :: h in events && CallMatch(heap, h, origin, trigger)
    {
      found := [];
      var i := 0;
      while i < |events|
        invariant 0 <= i <= |events|
        invariant found == Matching(events[..i], heap, origin, trigger)
      {
        assert events[..i + 1][..i] == events[..i];
        if CallMatch(heap, events[i], origin, trigger) {
          found := found + [events[i]];
        }
        i := i + 1;
      }
      assert events[..i] == events;
    }

    /**
     * The body of `call`'s loop for one Event, given the objects that have an
     * inventory. With `repeat >= 1` or `-1` it runs its action and its `repeat` is
     * decremented. Both triggers share one action table: ADD adds `addObject` to
     * `object`'s inventory, REMOVE removes it from `origin`'s, MOVE does both, remove
     * first. A call on a missing inventory throws: `completed` is false, the calls
     * made before the throw are returned and `repeat` is left alone.
     */
    method FireEvent(h: Handle, inventories: set<Handle>) returns (calls: seq<InventoryOp>, completed: bool)
      requires h in heap && heap[h].EventRecord?
      modifies this`heap
      ensures var e := old(heap)[h].event;
        && (completed <==> Completes(old(heap), h, inventories))
        && (Active(e.repeat) && completed ==>
              calls == ActionOps(e) && heap == old(heap)[h := EventRecord(e.(repeat := e.repeat - 1))])
        && (!Active(e.repeat) ==> calls == [] && heap == old(heap))
        && (!completed ==> calls < ActionOps(e) && heap == old(heap))
      ensures heap == old(heap)[h := EventRecord(Fire(old(heap)[h].event, inventories).0)]
      ensures (calls, completed) == (Fire(old(heap)[h].event, inventories).1, Fire(old(heap)[h].event, inventories).2)
    {
      var e := heap[h].event;
      assert heap == heap[h := EventRecord(e)];
      calls := [];
      completed := true;
      if e.repeat >= 1 || e.repeat == -1 {
        match e.action {
          case Add =>
            if e.obj !in inventories {
              return [], false;
            }
            calls := [AddItem(e.obj, e.addObject)];
          case Remove =>
            if e.origin !in inventories {
              return [], false;
            }
            calls := [RemoveItem(e.origin, e.addObject)];
          case Move =>
            if e.origin !in inventories {
              return [], false;
            }
            calls := [RemoveItem(e.origin, e.addObject)];
            if e.obj !in inventories {
              return calls, false;
            }
            calls := calls + [AddItem(e.obj, e.addObject)];
          case WinGame =>
        }
        heap := heap[h := EventRecord(e.(repeat := e.repeat - 1))];
      }
    }

    /** `call(origin, trigger)`: fires every Event `findEventsAfterCall` returns, in
        list order, and returns the inventory calls in the order they are made; a
        throw (`NoInventory`) ends the loop. */
    method Call(origin: Handle, trigger: Trigger, inventories: set<Handle>) returns (ops: seq<InventoryOp>, status: Status)
      requires Valid()
      modifies this`heap
      ensures Valid()
      ensures (heap, ops, status) == DispatchFrom(old(heap), Matching(events, old(heap), origin, trigger), inventories)
    {
      var matched := FindEventsAfterCall(origin, trigger);
      ghost var st0 := State();
      ghost var target := DispatchFrom(heap, matched, inventories);
      assert [] + target.1 == target.1;
      ghost var rest := matched;
      ops := [];
      var i := 0;
      while i < |matched|
        invariant 0 <= i <= |matched| && rest == matched[i..]
        invariant AllEvents(heap, rest)
        invariant Resume(heap, ops, rest, inventories) == target
      {
        var h := matched[i];
        assert h == rest[0] && h in rest;
        ghost var heap0, ops0 := heap, ops;
        var calls, completed := FireEvent(h, inventories);
        ops := ops + calls;
        if !completed {
          assert Resume(heap0, ops0, rest, inventories) == (heap, ops, NoInventory);
          DispatchKeepsValid(st0, matched, inventories);
          return ops, NoInventory;
        }
        ResumeHead(heap0, ops0, rest, inventories);
        rest := rest[1..];
        i := i + 1;
      }
      assert DispatchFrom(heap, rest, inventories) == (heap, [], Ok) && ops + [] == ops;
      DispatchKeepsValid(st0, matched, inventories);
      status := Ok;
    }

    /** The `forEach` of the three cascades: walks the list as it had `len`
        entries at the start and removes each hit by its ID. */
    method RemoveHits(kind: Cascade, target: Option<Handle>) returns (status: Status)
      requires Valid()
      modifies this
      ensures Valid()
      ensures Outcome(State(), status) == CascadeFrom(old(State()), kind, target, 0, |Walked(old(State()), kind)|)
    {
      var len := if kind == GlobalCascade then |globalEvents| else |events|;
      var k := 0;
      while k < len
        invariant 0 <= k <= len && Valid()
        invariant CascadeFrom(State(), kind, target, k, len) == CascadeFrom(old(State()), kind, target, 0, len)
      {
        var list := if kind == GlobalCascade then globalEvents else events;
        if k < |list| {
          var item := list[k];
          assert item in list;
          if Hits(kind, target, heap[item]) {
            if kind == GlobalCascade {
              status := RemoveGlobalEventByID(item);
            } else {
              status := RemoveEventByID(item);
            }
            if status == HandleNotFound {
              return;
            }
          }
        }
        k := k + 1;
      }
      status := Ok;
    }

    /** `deleteEventsContainingItemById`: removes the Events whose `addObject` is the item. */
    method DeleteEventsContainingItemById(itemID: Handle) returns (status: Status)
      requires Valid()
      modifies this
      ensures Valid() && Outcome(State(), status) == CascadeById(old(State()), ItemCascade, itemID)
    {
      var agitem := if itemID in references then Some(itemID) else None;
      status := RemoveHits(ItemCascade, agitem);
    }

    /** `deleteEventsContainingObjectById`: removes the Events whose `addObject`,
        `origin` or `object` is the object. */
    method DeleteEventsContainingObjectById(objectID: Handle) returns (status: Status)
      requires Valid()
      modifies this
      ensures Valid() && Outcome(State(), status) == CascadeById(old(State()), ObjectCascade, objectID)
    {
      var agobject := if objectID in references then Some(objectID) else None;
      status := RemoveHits(ObjectCascade, agobject);
    }

    /** `deleteGlobalEventsContainingObjectById`: removes by ID the GlobalEvents whose `object` is the object. */
    method DeleteGlobalEventsContainingObjectById(objectID: Handle) returns (status: Status)
      requires Valid()
      modifies this
      ensures Valid() && Outcome(State(), status) == CascadeById(old(State()), GlobalCascade, objectID)
    {
      var agobject := if objectID in references then Some(objectID) else None;
      status := RemoveHits(GlobalCascade, agobject);
    }
  }
}
