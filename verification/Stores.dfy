/** Shared state between jobs: the resource catalog and the snapshot stores (internal/app/resources.go, internal/snapshot/snapshot.go). */
module Stores {
  import opened Core
  import opened Clock

  // ---- The catalog: one buffer, overwritten in place ----

  /** The last completely discovered resource set, kept in a buffer that is reused while it is large enough. */
  class ResourceCatalog<T> {
    var buffer: array<T>
    var length: nat

    ghost predicate Valid()
      reads this
    {
      length <= buffer.Length
    }

    ghost function Contents(): seq<T>
      reads this, buffer
      requires Valid()
    {
      buffer[..length]
    }

    constructor (values: seq<T>)
      ensures Valid() && fresh(buffer) && Contents() == values
    {
      buffer := new T[|values|](i requires 0 <= i < |values| => values[i]);
      length := |values|;
    }

    /** A copy: later replacements cannot reach it. */
    method Snapshot() returns (copy: array<T>)
      requires Valid()
      ensures fresh(copy) && copy[..] == Contents()
    {
      var current := buffer[..length];
      copy := new T[|current|](i requires 0 <= i < |current| => current[i]);
    }

    method Replace(values: seq<T>)
      requires Valid()
      modifies this, buffer
      ensures Valid() && Contents() == values
      ensures if |values| <= old(buffer).Length then buffer == old(buffer) else fresh(buffer) && old(buffer)[..] == old(buffer[..])
    {
      if |values| <= buffer.Length {
        for i := 0 to |values|
          invariant buffer == old(buffer)
          invariant buffer[..i] == values[..i]
        {
          buffer[i] := values[i];
        }
      } else {
        buffer := new T[|values|](i requires 0 <= i < |values| => values[i]);
      }
      length := |values|;
    }
  }

  /** Snapshots taken before a replacement keep the old contents although the buffer is reused. */
  method SnapshotSurvivesReplace<T>(catalog: ResourceCatalog<T>, values: seq<T>) returns (before: array<T>, after: array<T>)
    requires catalog.Valid()
    modifies catalog, catalog.buffer
    ensures before[..] == old(catalog.Contents()) && after[..] == values && before != after
  {
    before := catalog.Snapshot();
    catalog.Replace(values);
    after := catalog.Snapshot();
  }

  // ---- Staleness ----

  datatype Meta = Meta(collectedAt: int, dataAt: int, staleAfter: int)

  /** The older of collection time and data time; zero times are absent. */
  function Reference(m: Meta): int {
    if m.dataAt != ZERO_TIME && (m.collectedAt == ZERO_TIME || m.dataAt < m.collectedAt) then m.dataAt else m.collectedAt
  }

  predicate Stale(now: int, m: Meta) { m.staleAfter > 0 && now - Reference(m) > m.staleAfter }

  /** Fresh means both instants are recent enough; an unlimited snapshot never goes stale. */
  lemma StaleMeans(now: int, m: Meta)
    requires m.collectedAt != ZERO_TIME
    ensures !Stale(now, m) <==>
              m.staleAfter <= 0 || (now - m.collectedAt <= m.staleAfter && (m.dataAt == ZERO_TIME || now - m.dataAt <= m.staleAfter))
    ensures Stale(now, m) ==> forall later :: later >= now ==> Stale(later, m)
  {
  }

  // ---- Per-resource snapshots ----

  datatype Value<+T> = Value(data: T, meta: Meta)

  datatype StoreState<+T> = StoreState(values: map<string, Value<T>>, active: set<string>, managed: bool)

  function Published<T>(s: StoreState<T>, resource: string, value: Value<T>): StoreState<T> {
    if s.managed && resource !in s.active then s else s.(values := s.values[resource := value])
  }

  function Retained<T>(s: StoreState<T>, resources: seq<string>): StoreState<T> {
    var keep := set r | r in resources;
    StoreState(map r | r in s.values && r in keep :: s.values[r], keep, true)
  }

  class ResourceStore<T(==)> {
    var values: map<string, Value<T>>
    var active: set<string>
    var managed: bool

    function State(): StoreState<T>
      reads this
    {
      StoreState(values, active, managed)
    }

    constructor ()
      ensures State() == StoreState(map[], {}, false)
    {
      values, active, managed := map[], {}, false;
    }

    method Publish(resource: string, data: T, meta: Meta)
      modifies this
      ensures State() == Published(old(State()), resource, Value(data, meta))
    {
      if managed {
        if resource !in active {
          return;
        }
      }
      values := values[resource := Value(data, meta)];
    }

    /** Deletes departed resources, in whatever order the map is walked. */
    method Retain(resources: seq<string>)
      modifies this
      ensures State() == Retained(old(State()), resources)
    {
      var keep: set<string> := {};
      for i := 0 to |resources|
        invariant keep == set r | r in resources[..i]
      {
        keep := keep + {resources[i]};
      }
      assert resources[..|resources|] == resources;
      var pending := values.Keys;
      while pending != {}
        invariant pending <= old(values).Keys
        invariant values == map r | r in old(values) && (r in keep || r in pending) :: old(values)[r]
        invariant active == old(active) && managed == old(managed)
        decreases |pending|
      {
        var resource :| resource in pending;
        if resource !in keep {
          values := values - {resource};
        }
        pending := pending - {resource};
      }
      active := keep;
      managed := true;
    }

    /** Every value that is not stale, in whatever order the map is walked. */
    method Load(now: int) returns (result: map<string, Value<T>>)
      ensures result == map r | r in values && !Stale(now, values[r].meta) :: values[r]
    {
      result := map[];
      var pending := values.Keys;
      while pending != {}
        invariant pending <= values.Keys
        invariant result == map r | r in values && r !in pending && !Stale(now, values[r].meta) :: values[r]
        decreases |pending|
      {
        var resource :| resource in pending;
        if !Stale(now, values[resource].meta) {
          result := result[resource := values[resource]];
        }
        pending := pending - {resource};
      }
    }
  }

  // ---- What the store holds after any history ----

  datatype Event<+T> = Publish(resource: string, value: Value<T>) | Retain(resources: seq<string>)

  function After<T>(events: seq<Event<T>>): StoreState<T> {
    if |events| == 0 then StoreState(map[], {}, false)
    else
      var before := After(events[..|events| - 1]);
      match events[|events| - 1]
      case Publish(resource, value) => Published(before, resource, value)
      case Retain(resources) => Retained(before, resources)
  }

  /** A resource counts as known until a reconciliation leaves it out. */
  predicate Known<T>(events: seq<Event<T>>, resource: string) {
    if |events| == 0 then true
    else if events[|events| - 1].Retain? then resource in events[|events| - 1].resources
    else Known(events[..|events| - 1], resource)
  }

  /** One resource's own story: its last accepted value, forgotten when it departs. */
  function LastGood<T>(events: seq<Event<T>>, resource: string): Option<Value<T>> {
    if |events| == 0 then None
    else
      var init := events[..|events| - 1];
      match events[|events| - 1]
      case Publish(r, value) => if r == resource && Known(init, resource) then Some(value) else LastGood(init, resource)
      case Retain(resources) => if resource in resources then LastGood(init, resource) else None
  }

  /** Main law: over every history each resource holds its own last good value, and departed resources hold none. */
  lemma {:induction false} StoreHoldsLastGood<T>(events: seq<Event<T>>, resource: string)
    ensures var s := After(events);
      && (s.managed ==> (resource in s.active <==> Known(events, resource)))
      && (!s.managed ==> Known(events, resource))
      && (resource in s.values <==> LastGood(events, resource).Some?)
      && (resource in s.values ==> LastGood(events, resource) == Some(s.values[resource]))
  {
    if |events| > 0 {
      StoreHoldsLastGood(events[..|events| - 1], resource);
    }
  }

  /** A value published for a departed resource is never loaded. */
  lemma {:induction false} DepartedHoldsNothing<T>(events: seq<Event<T>>, resource: string)
    requires !Known(events, resource)
    ensures resource !in After(events).values
  {
    StoreHoldsLastGood(events, resource);
    UnknownIsNone(events, resource);
  }

  lemma {:induction false} UnknownIsNone<T>(events: seq<Event<T>>, resource: string)
    requires !Known(events, resource)
    ensures LastGood(events, resource).None?
  {
    if |events| > 0 && events[|events| - 1].Publish? {
      UnknownIsNone(events[..|events| - 1], resource);
    }
  }

  // ---- One whole-account snapshot ----

  class Store<T> {
    var value: Option<Value<T>>

    constructor ()
      ensures value == None
    {
      value := None;
    }

    method Publish(data: T, meta: Meta)
      modifies this
      ensures value == Some(Value(data, meta))
    {
      value := Some(Value(data, meta));
    }

    method Clear()
      modifies this
      ensures value == None
    {
      value := None;
    }

    /** The metadata is reported even when the value is too old to be used. */
    method Load(now: int) returns (data: Option<T>, meta: Option<Meta>)
      ensures meta == if value.Some? then Some(value.value.meta) else None
      ensures data == if value.Some? && !Stale(now, value.value.meta) then Some(value.value.data) else None
    {
      if value.None? {
        return None, None;
      }
      if Stale(now, value.value.meta) {
        return None, Some(value.value.meta);
      }
      return Some(value.value.data), Some(value.value.meta);
    }
  }
}
