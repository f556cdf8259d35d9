/**
 * The in-memory `IEventRepository` the default container uses: the
 * aggregates kept in a map keyed by id. `src/infrastructure/cqrs.ts:11`
 * imports the class from `src/infrastructure/repositories.ts`, which defines
 * no such class, so it is modelled against the repository interface alone:
 * `save` stores the aggregate's state under its id and never fails, and the
 * finders read that map.
 */
module InMemoryStore {
  import opened Wrappers
  import opened ValueObjects
  import opened EventAggregate

  /** Every stored state sits under its own id. */
  type EventMap = m: map<string, EventState> | forall k :: k in m ==> m[k].id.value == k
    witness map[]

  /** What the two list finders select. */
  datatype Selector = OfOrganizer(organizerId: OrganizerId) | PublishedOnes

  predicate Selects(sel: Selector, s: EventState)
  {
    match sel
    case OfOrganizer(o) => s.organizerId == o
    case PublishedOnes => s.isPublished
  }

  /** `r` holds every selected stored event exactly once, and nothing else, in any order. */
  ghost predicate IsSelection(events: EventMap, sel: Selector, r: seq<EventState>)
  {
    (forall i :: 0 <= i < |r| ==> r[i].id.value in events && events[r[i].id.value] == r[i] && Selects(sel, r[i]))
    && (forall k :: k in events && Selects(sel, events[k]) ==> exists i :: 0 <= i < |r| && r[i].id.value == k)
    && (forall i, j :: 0 <= i < j < |r| ==> r[i].id != r[j].id)
  }

  /** Collects the selected events one by one. */
  method SelectEvents(events: EventMap, sel: Selector) returns (r: seq<EventState>)
    ensures IsSelection(events, sel, r)
  {
    var rest := set k | k in events && Selects(sel, events[k]);
    r := [];
    while rest != {}
      invariant forall k :: k in rest ==> k in events && Selects(sel, events[k])
      invariant forall i :: 0 <= i < |r| ==>
        r[i].id.value in events && events[r[i].id.value] == r[i] && Selects(sel, r[i]) && r[i].id.value !in rest
      invariant forall k :: k in events && Selects(sel, events[k]) ==>
        k in rest || exists i :: 0 <= i < |r| && r[i].id.value == k
      invariant forall i, j :: 0 <= i < j < |r| ==> r[i].id != r[j].id
      decreases rest
    {
      var k :| k in rest;
      ghost var prior := r;
      r := r + [events[k]];
      rest := rest - {k};
      assert r[|prior|].id.value == k;
      assert forall i :: 0 <= i < |prior| ==> r[i] == prior[i];
    }
  }

  class InMemoryEventRepository {
    var events: EventMap

    constructor ()
      ensures events == map[]
    {
      events := map[];
    }

    /** `save(event)`: stores the aggregate's current state, replacing any earlier one. */
    method Save(e: Event)
      modifies this
      ensures events == old(events)[e.id.value := old(e.State())]
    {
      events := events[e.id.value := e.State()];
    }

    /** `findById(id)`: a fresh aggregate holding the stored state, or none. */
    method FindById(id: EventId) returns (r: Option<Event>)
      ensures r.Some? <==> id.value in events
      ensures r.Some? ==> fresh(r.value) && r.value.State() == events[id.value] && r.value.domainEvents == []
    {
      if id.value !in events {
        return None;
      }
      var s := events[id.value];
      var e := new Event(s.id, s.organizerId, s.details, s.isPublished);
      return Some(e);
    }

    /** `findByOrganizer(organizerId)`. */
    method FindByOrganizer(organizerId: OrganizerId) returns (r: seq<EventState>)
      ensures IsSelection(events, OfOrganizer(organizerId), r)
    {
      r := SelectEvents(events, OfOrganizer(organizerId));
    }

    /** `findPublishedEvents()`. */
    method FindPublishedEvents() returns (r: seq<EventState>)
      ensures IsSelection(events, PublishedOnes, r)
    {
      r := SelectEvents(events, PublishedOnes);
    }
  }
}
