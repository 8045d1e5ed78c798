/**
 * The hook registry of src/vellum/hooks.py: per model class, per lifecycle
 * event, an ordered list of hook functions; and the decorators that tag a
 * function with its event.
 */
module Hooks {
  import opened Results
  import opened Models

  datatype HookEvent = BeforeInsert | AfterInsert | BeforeUpdate | AfterUpdate | BeforeDelete | AfterDelete

  const AllEvents: set<HookEvent> := {BeforeInsert, AfterInsert, BeforeUpdate, AfterUpdate, BeforeDelete, AfterDelete}

  /**
   * A hook function object. `raises` says whether calling it raises; `event`
   * is the `_vellum_hook_event` attribute a decorator sets.
   */
  class HookFunction {
    const name: string
    const raises: bool
    var event: Option<HookEvent>

    constructor (name: string, raises: bool)
      ensures this.name == name && this.raises == raises && event == None
    {
      this.name := name;
      this.raises := raises;
      event := None;
    }
  }

  /**
   * The decorators `before_insert`, `after_insert`, `before_update`,
   * `after_update`, `before_delete` and `after_delete`: each tags the
   * function with its own event and returns the same function object.
   */
  method Decorate(f: HookFunction, ev: HookEvent) returns (g: HookFunction)
    modifies f
    ensures g == f && f.event == Some(ev)
  {
    f.event := Some(ev);
    g := f;
  }

  type EventLists = map<HookEvent, seq<HookFunction>>
  type HookTable = map<ModelClass, EventLists>

  /** The entry a class gets on its first registration: all six events, each empty. */
  function EmptyEventLists(): (m: EventLists)
    ensures forall ev :: ev in m && m[ev] == []
  {
    var m := map[BeforeInsert := [], AfterInsert := [], BeforeUpdate := [], AfterUpdate := [],
                 BeforeDelete := [], AfterDelete := []];
    CoversAllEvents(m.Keys);
    m
  }

  lemma EveryEvent(ev: HookEvent)
    ensures ev in AllEvents
  {
    match ev
    case BeforeInsert =>
    case AfterInsert =>
    case BeforeUpdate =>
    case AfterUpdate =>
    case BeforeDelete =>
    case AfterDelete =>
  }

  lemma CoversAllEvents(keys: set<HookEvent>)
    requires keys == AllEvents
    ensures forall ev :: ev in keys
  {
    forall ev ensures ev in keys {
      EveryEvent(ev);
    }
  }

  /** Every registered class has a list for every event. */
  ghost predicate WellFormed(t: HookTable) {
    forall c, ev :: c in t ==> ev in t[c]
  }

  /** `_register_hook`: append `f` to the list of `c` for `ev`, creating the class entry first. */
  function Registered(t: HookTable, c: ModelClass, ev: HookEvent, f: HookFunction): (r: HookTable)
    requires WellFormed(t)
    ensures WellFormed(r)
  {
    var lists := if c in t then t[c] else EmptyEventLists();
    EveryEvent(ev);
    t[c := lists[ev := lists[ev] + [f]]]
  }

  /**
   * `get_hooks_for_model`: a class never registered has no hooks for any
   * event (no KeyError); in a well-formed table a registered class has a
   * list for every event, and that list is the answer.
   */
  function Lookup(t: HookTable, c: ModelClass, ev: HookEvent): (r: seq<HookFunction>)
    ensures c !in t ==> r == []
    ensures WellFormed(t) && c in t ==> r == t[c][ev]
  {
    if c in t && ev in t[c] then t[c][ev] else []
  }

  /**
   * The first registration for a class creates all six events, each empty,
   * before appending; other classes keep their entries.
   */
  lemma FirstRegistration(t: HookTable, c: ModelClass, ev: HookEvent, f: HookFunction)
    requires WellFormed(t) && c !in t
    ensures c in Registered(t, c, ev, f) && Registered(t, c, ev, f)[c].Keys == AllEvents
    ensures forall e :: e in AllEvents && e != ev ==> Registered(t, c, ev, f)[c][e] == []
    ensures Registered(t, c, ev, f)[c][ev] == [f]
    ensures forall d :: d in t ==> d in Registered(t, c, ev, f) && Registered(t, c, ev, f)[d] == t[d]
  {
  }

  /**
   * Registration appends `f` at the end of the list for `c` and `ev`; every
   * other class and event keeps its list.
   */
  lemma LookupRegistered(t: HookTable, c: ModelClass, ev: HookEvent, f: HookFunction, c': ModelClass, ev': HookEvent)
    requires WellFormed(t)
    ensures Lookup(Registered(t, c, ev, f), c', ev') ==
      if c' == c && ev' == ev then Lookup(t, c, ev) + [f] else Lookup(t, c', ev')
  {
  }

  /** Registering the same function twice gives two entries: nothing is deduplicated. */
  lemma RegisteredTwice(t: HookTable, c: ModelClass, ev: HookEvent, f: HookFunction)
    requires WellFormed(t)
    ensures Lookup(Registered(Registered(t, c, ev, f), c, ev, f), c, ev) == Lookup(t, c, ev) + [f, f]
  {
    LookupRegistered(t, c, ev, f, c, ev);
    LookupRegistered(Registered(t, c, ev, f), c, ev, f, c, ev);
  }

  /** A sequence of registrations, applied in order. */
  function RegisterAll(t: HookTable, regs: seq<(ModelClass, HookEvent, HookFunction)>): (r: HookTable)
    requires WellFormed(t)
    ensures WellFormed(r)
  {
    if regs == [] then t
    else
      var last := regs[|regs| - 1];
      Registered(RegisterAll(t, regs[..|regs| - 1]), last.0, last.1, last.2)
  }

  /** The functions registered for `c` and `ev`, in registration order. */
  function RegisteredFor(regs: seq<(ModelClass, HookEvent, HookFunction)>, c: ModelClass, ev: HookEvent): seq<HookFunction> {
    if regs == [] then []
    else
      var last := regs[|regs| - 1];
      RegisteredFor(regs[..|regs| - 1], c, ev) + (if last.0 == c && last.1 == ev then [last.2] else [])
  }

  /**
   * For any sequence of registrations, the lookup returns the hooks of that
   * class and event in registration order, after those already present.
   */
  lemma {:induction false} LookupRegisterAll(t: HookTable, regs: seq<(ModelClass, HookEvent, HookFunction)>, c: ModelClass, ev: HookEvent)
    requires WellFormed(t)
    ensures Lookup(RegisterAll(t, regs), c, ev) == Lookup(t, c, ev) + RegisteredFor(regs, c, ev)
  {
    if regs != [] {
      var init, last := regs[..|regs| - 1], regs[|regs| - 1];
      var before := RegisterAll(t, init);
      LookupRegisterAll(t, init, c, ev);
      LookupRegistered(before, last.0, last.1, last.2, c, ev);
      var prior := Lookup(t, c, ev) + RegisteredFor(init, c, ev);
      if last.0 == c && last.1 == ev {
        assert prior + [last.2] == Lookup(t, c, ev) + (RegisteredFor(init, c, ev) + [last.2]);
      }
    }
  }

  /** The process-wide `_HOOKS` table. */
  class Registry {
    var table: HookTable

    ghost predicate Valid()
      reads this
    {
      WellFormed(table)
    }

    constructor ()
      ensures Valid() && table == map[]
    {
      table := map[];
    }

    /** `_register_hook`. */
    method Register(c: ModelClass, ev: HookEvent, f: HookFunction)
      requires Valid()
      modifies this
      ensures Valid() && table == Registered(old(table), c, ev, f)
    {
      table := Registered(table, c, ev, f);
    }

    /** `get_hooks_for_model` on the process-wide table. */
    function HooksFor(c: ModelClass, ev: HookEvent): (r: seq<HookFunction>)
      reads this
      ensures c !in table ==> r == []
      ensures Valid() && c in table ==> r == table[c][ev]
    {
      Lookup(table, c, ev)
    }
  }
}
