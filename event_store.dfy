/**
 * The event store (`useEventStore` in store/eventStore.ts): the cached event
 * list with its loading flag and last error, and the actions that call the
 * server and refresh the cache. What the server answers is a parameter of
 * each action; every action runs as one step.
 */
module Store {
  import opened Wrappers
  import opened Events

  /** The store's fields as one value. */
  datatype StoreState = StoreState(events: seq<Event>, loading: bool, error: Option<string>)

  /** The state the store is created with. */
  function Initial(): (s: StoreState)
    ensures s.events == [] && !s.loading && s.error.None?
  {
    StoreState([], false, None)
  }

  /** `loadEvents` before the fetch answers: only `loading` changes. */
  function StartLoad(s: StoreState): (t: StoreState)
    ensures t.loading
    ensures t.events == s.events && t.error == s.error
  {
    s.(loading := true)
  }

  /** `loadEvents` once the fetch has answered: a fetched list replaces the
    * cache and leaves the error alone; a failure keeps the cache and records
    * the message. Either way loading is over. */
  function FinishLoad(s: StoreState, fetched: Result<seq<Event>, string>): (t: StoreState)
    ensures !t.loading
    ensures fetched.Ok? ==> t.events == fetched.value && t.error == s.error
    ensures fetched.Err? ==> t.events == s.events && t.error == Some(fetched.error)
  {
    match fetched
    case Ok(list) => s.(events := list, loading := false)
    case Err(message) => s.(error := Some(message), loading := false)
  }

  /** A whole `loadEvents`. */
  function Load(s: StoreState, fetched: Result<seq<Event>, string>): StoreState {
    FinishLoad(StartLoad(s), fetched)
  }

  /** Once an error is recorded, no later load clears it. */
  lemma LoadNeverClearsError(s: StoreState, fetched: Result<seq<Event>, string>)
    requires s.error.Some?
    ensures Load(s, fetched).error.Some?
    ensures fetched.Ok? ==> Load(s, fetched).error == s.error
  {
  }

  /** After a successful load the cache is exactly what was fetched,
    * whatever it held before. */
  lemma LoadForgetsOldEvents(s1: StoreState, s2: StoreState, list: seq<Event>)
    ensures Load(s1, Ok(list)).events == Load(s2, Ok(list)).events == list
  {
  }

  /** `createEvent` after the server answered: the created event, as the
    * server returned it, goes at the end of the cache. */
  function Append(s: StoreState, created: Event): (t: StoreState)
    ensures |t.events| == |s.events| + 1
    ensures t.events[..|s.events|] == s.events && t.events[|s.events|] == created
    ensures t.loading == s.loading && t.error == s.error
  {
    s.(events := s.events + [created])
  }

  /** The store object. */
  class EventStore {
    var events: seq<Event>
    var loading: bool
    var error: Option<string>

    function State(): StoreState
      reads this
    {
      StoreState(events, loading, error)
    }

    constructor ()
      ensures State() == Initial()
    {
      events, loading, error := [], false, None;
    }

    /** `set({ loading: true })` at the start of `loadEvents`. */
    method StartLoading()
      modifies this
      ensures State() == StartLoad(old(State()))
    {
      loading := true;
    }

    /** The `set` that follows the fetch in `loadEvents`. */
    method FinishLoading(fetched: Result<seq<Event>, string>)
      modifies this
      ensures State() == FinishLoad(old(State()), fetched)
    {
      match fetched {
        case Ok(list) =>
          events, loading := list, false;
        case Err(message) =>
          error, loading := Some(message), false;
      }
    }

    /** `loadEvents`: it catches the fetch's failure itself, so it never fails. */
    method LoadEvents(fetched: Result<seq<Event>, string>)
      modifies this
      ensures State() == Load(old(State()), fetched)
    {
      StartLoading();
      FinishLoading(fetched);
    }

    /** `deleteEvent(id)`: the server's answer to the delete is `removed`; only
      * when it succeeds is the list reloaded (with `fetched`). A failed delete
      * leaves the store as it was and is handed back to the caller. */
    method DeleteEvent(id: string, removed: Outcome<string>, fetched: Result<seq<Event>, string>)
      returns (r: Outcome<string>)
      modifies this
      ensures r == removed
      ensures State() == if removed.Pass? then Load(old(State()), fetched) else old(State())
    {
      if removed.Fail? {
        return removed;
      }
      LoadEvents(fetched);
      r := Pass;
    }

    /** `updateEvent(event)`: as DeleteEvent, with the server's answer to the
      * update in `updated`; the record it returns is not used. */
    method UpdateEvent(event: Event, updated: Result<Event, string>, fetched: Result<seq<Event>, string>)
      returns (r: Outcome<string>)
      modifies this
      ensures r == if updated.Ok? then Pass else Fail(updated.error)
      ensures State() == if updated.Ok? then Load(old(State()), fetched) else old(State())
    {
      if updated.Err? {
        return Fail(updated.error);
      }
      LoadEvents(fetched);
      r := Pass;
    }

    /** `createEvent(event)`: the server's answer is `created`; on success
      * the record it returns is appended, on failure nothing changes. */
    method CreateEvent(event: Event, created: Result<Event, string>) returns (r: Outcome<string>)
      modifies this
      ensures r == if created.Ok? then Pass else Fail(created.error)
      ensures State() == if created.Ok? then Append(old(State()), created.value) else old(State())
    {
      if created.Err? {
        return Fail(created.error);
      }
      events := events + [created.value];
      r := Pass;
    }
  }
}
