/** The engine's ownership of the platform library.

    Constructing an engine initialises the platform (`SDL_Init`) and makes
    the engine its owner (active). The destructor shuts the platform down
    (`SDL_Quit`) only if the engine is still active, and the move operations
    hand the active flag from one engine to another. The platform calls are
    kept only as ghost counters of how often each happened. */
module Engines {

  /** 1 for an engine that owns the platform, 0 otherwise. */
  function Owned(active: bool): nat
  {
    if active then 1 else 0
  }

  /** The flags of a move-assignment's target and source afterwards, and the
      number of platform shutdowns it performed. */
  datatype MoveResult = MoveResult(target: bool, source: bool, released: nat)

  /** Move-assignment between two distinct engines. An active target shuts
      the platform down and becomes inactive, and the source keeps its flag;
      an inactive target takes the source's flag and the source becomes
      inactive. */
  function MoveAssignment(target: bool, source: bool): (r: MoveResult)
    ensures r.released == Owned(target)
    ensures target ==> !r.target && r.source == source
    ensures !target ==> r.target == source && !r.source
    ensures Owned(r.target) + Owned(r.source) + r.released == Owned(target) + Owned(source)
  {
    if target then MoveResult(false, source, 1)
    else MoveResult(source, false, 0)
  }

  /** The flags of the new engine and of its source after move
      construction: the new engine takes the source's flag and the source
      becomes inactive. */
  function MoveConstruction(source: bool): (r: (bool, bool))
    ensures r.0 == source && !r.1
    ensures Owned(r.0) + Owned(r.1) == Owned(source)
  {
    (source, false)
  }

  /** The number of platform shutdowns the destructor performs: one if and
      only if the engine is active. */
  function Destruction(active: bool): (released: nat)
    ensures released <= 1
    ensures released == 1 <==> active
  {
    Owned(active)
  }

  /** The platform library, seen through how often it was initialised and
      shut down. */
  class Platform {
    ghost var inits: nat
    ghost var quits: nat

    constructor ()
      ensures inits == 0 && quits == 0
    {
      inits, quits := 0, 0;
    }
  }

  /** The engine (`Engine`), reduced to its ownership flag. */
  class Engine {
    var active: bool

    /** A new engine initialises the platform and owns it. */
    constructor (platform: Platform)
      modifies platform
      ensures active
      ensures platform.inits == old(platform.inits) + 1 && platform.quits == old(platform.quits)
    {
      active := true;
      platform.inits := platform.inits + 1;
    }

    /** Move construction: the new engine takes the source's flag and the
        source becomes inactive, so the number of owners is unchanged. */
    constructor Move(other: Engine)
      modifies other
      ensures (active, other.active) == MoveConstruction(old(other.active))
    {
      active := other.active;
      other.active := false;
    }

    /** The destructor: shuts the platform down exactly when the engine is
        active. */
    method Destroy(platform: Platform)
      modifies platform
      ensures platform.quits == old(platform.quits) + Destruction(active)
      ensures platform.inits == old(platform.inits)
    {
      if active {
        platform.quits := platform.quits + 1;
      }
    }

    /** Move-assignment. Assigning an engine to itself changes nothing.
        Otherwise the flags change as MoveAssignment says: an active target
        shuts down and becomes inactive without taking the source's flag. */
    method MoveAssign(other: Engine, platform: Platform)
      modifies this, other, platform
      ensures other == this ==> active == old(active) && platform.quits == old(platform.quits)
      ensures other != this ==>
        var r := MoveAssignment(old(active), old(other.active));
        active == r.target && other.active == r.source && platform.quits == old(platform.quits) + r.released
      ensures platform.inits == old(platform.inits)
    {
      if other != this {
        if active {
          platform.quits := platform.quits + 1;
          active := false;
        } else {
          active := other.active;
          other.active := false;
        }
      }
    }
  }

  /** A slot for one engine object over a program's lifetime: alive with
      its flag, or destroyed. */
  datatype Slot = Alive(active: bool) | Destroyed

  /** One lifetime event on the engines of a program, by slot index. */
  datatype Event =
    | Construct
    | MoveConstruct(from: nat)
    | MoveAssign(to: nat, from: nat)
    | Destroy(at: nat)

  /** All engines with their counts of platform initialisations and
      shutdowns. */
  datatype World = World(slots: seq<Slot>, inits: nat, quits: nat)

  /** 1 for an alive, active engine, 0 otherwise. */
  function SlotOwned(s: Slot): nat
  {
    match s
    case Alive(a) => Owned(a)
    case Destroyed => 0
  }

  /** The number of alive, active engines. */
  function Owners(slots: seq<Slot>): nat
    decreases |slots|
  {
    if slots == [] then 0 else Owners(slots[..|slots| - 1]) + SlotOwned(slots[|slots| - 1])
  }

  /** The event refers only to alive engines. */
  predicate Allowed(w: World, e: Event)
  {
    match e
    case Construct => true
    case MoveConstruct(from) => from < |w.slots| && w.slots[from].Alive?
    case MoveAssign(to, from) => to < |w.slots| && from < |w.slots| && w.slots[to].Alive? && w.slots[from].Alive?
    case Destroy(at) => at < |w.slots| && w.slots[at].Alive?
  }

  /** What one event does, using the engine's own operations on the flags. */
  function Next(w: World, e: Event): World
    requires Allowed(w, e)
  {
    match e
    case Construct => World(w.slots + [Alive(true)], w.inits + 1, w.quits)
    case MoveConstruct(from) =>
      var r := MoveConstruction(w.slots[from].active);
      World(w.slots[from := Alive(r.1)] + [Alive(r.0)], w.inits, w.quits)
    case MoveAssign(to, from) =>
      if to == from then w
      else
        var r := MoveAssignment(w.slots[to].active, w.slots[from].active);
        World(w.slots[to := Alive(r.target)][from := Alive(r.source)], w.inits, w.quits + r.released)
    case Destroy(at) =>
      World(w.slots[at := Destroyed], w.inits, w.quits + Destruction(w.slots[at].active))
  }

  /** Changing one slot changes the owner count by the difference. */
  lemma {:induction false} OwnersUpdate(slots: seq<Slot>, i: nat, s: Slot)
    requires i < |slots|
    ensures Owners(slots[i := s]) + SlotOwned(slots[i]) == Owners(slots) + SlotOwned(s)
    decreases |slots|
  {
    var n := |slots| - 1;
    assert slots[i := s][..n] == if i == n then slots[..n] else slots[..n][i := s];
    if i < n {
      OwnersUpdate(slots[..n], i, s);
    }
  }

  /** Every platform initialisation is matched by exactly one owner or one
      shutdown: inits == owners + quits holds after every event. */
  lemma OwnershipConserved(w: World, e: Event)
    requires Allowed(w, e)
    requires w.inits == Owners(w.slots) + w.quits
    ensures Next(w, e).inits == Owners(Next(w, e).slots) + Next(w, e).quits
  {
    var slots := w.slots;
    match e
    case Construct =>
      assert (slots + [Alive(true)])[..|slots|] == slots;
    case MoveConstruct(from) =>
      var moved := slots[from := Alive(false)];
      OwnersUpdate(slots, from, Alive(false));
      assert (moved + [Alive(slots[from].active)])[..|moved|] == moved;
    case MoveAssign(to, from) =>
      if to != from {
        var r := MoveAssignment(slots[to].active, slots[from].active);
        OwnersUpdate(slots, to, Alive(r.target));
        OwnersUpdate(slots[to := Alive(r.target)], from, Alive(r.source));
      }
    case Destroy(at) =>
      OwnersUpdate(slots, at, Destroyed);
  }

  /** Neither move operation ever adds an owner. */
  lemma MovesNeverAddOwners(w: World, e: Event)
    requires Allowed(w, e) && (e.MoveConstruct? || e.MoveAssign?)
    ensures Owners(Next(w, e).slots) <= Owners(w.slots)
    ensures Next(w, e).inits == w.inits
  {
    var slots := w.slots;
    match e
    case MoveConstruct(from) =>
      var moved := slots[from := Alive(false)];
      OwnersUpdate(slots, from, Alive(false));
      assert (moved + [Alive(slots[from].active)])[..|moved|] == moved;
    case MoveAssign(to, from) =>
      if to != from {
        var r := MoveAssignment(slots[to].active, slots[from].active);
        OwnersUpdate(slots, to, Alive(r.target));
        OwnersUpdate(slots[to := Alive(r.target)], from, Alive(r.source));
      }
  }

  /** Runs the events one after another, as long as each is allowed; the
      result says how far it got. */
  function RunEvents(w: World, events: seq<Event>): World
    decreases |events|
  {
    if events == [] || !Allowed(w, events[0]) then w
    else RunEvents(Next(w, events[0]), events[1..])
  }

  /** Whatever the engines do, starting from a balanced world (for one, a
      program with no engines yet), every platform initialisation not matched
      by a shutdown has an alive, active owner, and the platform is never
      shut down more often than it was initialised. */
  lemma {:induction false} NoDoubleRelease(w: World, events: seq<Event>)
    requires w.inits == Owners(w.slots) + w.quits
    ensures RunEvents(w, events).inits == Owners(RunEvents(w, events).slots) + RunEvents(w, events).quits
    ensures RunEvents(w, events).quits <= RunEvents(w, events).inits
    decreases |events|
  {
    if events != [] && Allowed(w, events[0]) {
      OwnershipConserved(w, events[0]);
      NoDoubleRelease(Next(w, events[0]), events[1..]);
    }
  }
}
