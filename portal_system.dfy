/**
 * The runtime side of the portal module: the registry from portal voxel to
 * destination, the queue of portals requested during world generation, and
 * the per-tick list of teleport requests flushed by `Update`.
 *
 * Engine effects (building a portal entity, sending a teleport event to a
 * character) are appended to an output log instead of being performed.
 */
module PortalRuntime {
  import opened Geometry

  /** A reference to an engine entity (EntityRef); only its identity matters here. */
  datatype EntityRef = EntityRef(id: nat)

  /**
   * The runtime portal component: the portal voxel and where it leads, a
   * float vector here. The rasterizer (`Rasterization.PortalComponent`)
   * assigns an integer vector to the same field and sets no location; the two
   * source files disagree about the field's type, so each side has its own
   * datatype and the rasterizer's component is never passed to
   * `OnPortalActivated` here.
   */
  datatype PortalComponent = PortalComponent(location: Vec3, destination: Vec3f)

  /** A portal requested by world generation, to be built by the next tick. */
  datatype GeneratedPortal = GeneratedPortal(location: Vec3, destination: Vec3f)

  /** A character that entered a registered portal voxel during the current tick. */
  datatype TeleportRequest = TeleportRequest(character: EntityRef, destination: Vec3f)

  /** What the system asks of the engine. */
  datatype Effect =
    | SpawnedPortal(location: Vec3, destination: Vec3f)       // an entity with a PortalComponent is built
    | TeleportSent(character: EntityRef, destination: Vec3f)  // a CharacterTeleportEvent is sent

  /** One "character entered a voxel" notification. */
  datatype EnterEvent = EnterEvent(entity: EntityRef, ownerIsClient: bool, voxel: Vec3)

  /** The abstract value of a PortalSystem object. */
  datatype SystemState = SystemState(
    portals: map<Vec3, Vec3f>,
    generatedPortals: seq<GeneratedPortal>,
    teleportingPlayers: seq<TeleportRequest>,
    log: seq<Effect>)

  // ---------------------------------------------------------------------------
  // The operations, as transitions of the abstract state
  // ---------------------------------------------------------------------------

  function Register(s: SystemState, location: Vec3, destination: Vec3f): SystemState
  {
    s.(portals := s.portals[location := destination])
  }

  function Deregister(s: SystemState, location: Vec3): SystemState
  {
    s.(portals := s.portals - {location})
  }

  /** The teleport request an entry produces: one when a client-owned entity enters a registered voxel, none otherwise. */
  function Requests(portals: map<Vec3, Vec3f>, e: EnterEvent): seq<TeleportRequest>
  {
    if e.ownerIsClient && e.voxel in portals then [TeleportRequest(e.entity, portals[e.voxel])] else []
  }

  function EnterBlock(s: SystemState, e: EnterEvent): SystemState
  {
    s.(teleportingPlayers := s.teleportingPlayers + Requests(s.portals, e))
  }

  function Generate(s: SystemState, location: Vec3, destination: Vec3f): SystemState
  {
    s.(generatedPortals := s.generatedPortals + [GeneratedPortal(location, destination)])
  }

  /** The effects of spawning the queued portals, front to back. */
  function Spawns(g: seq<GeneratedPortal>): seq<Effect>
  {
    if g == [] then [] else [SpawnedPortal(g[0].location, g[0].destination)] + Spawns(g[1..])
  }

  /** The effects of flushing the collected teleport requests, front to back. */
  function Teleports(t: seq<TeleportRequest>): seq<Effect>
  {
    if t == [] then [] else [TeleportSent(t[0].character, t[0].destination)] + Teleports(t[1..])
  }

  function AfterUpdate(s: SystemState): SystemState
  {
    SystemState(s.portals, [], [], s.log + Spawns(s.generatedPortals) + Teleports(s.teleportingPlayers))
  }

  function AfterShutdown(s: SystemState): SystemState
  {
    s.(portals := map[], generatedPortals := [])
  }

  /** A tick's worth of entry notifications, delivered in order. */
  function EnterAll(s: SystemState, events: seq<EnterEvent>): SystemState
    decreases |events|
  {
    if events == [] then s else EnterAll(EnterBlock(s, events[0]), events[1..])
  }

  /** Independent reference: the requests a sequence of entries produces against a fixed registry. */
  function AllRequests(portals: map<Vec3, Vec3f>, events: seq<EnterEvent>): seq<TeleportRequest>
    decreases |events|
  {
    if events == [] then [] else Requests(portals, events[0]) + AllRequests(portals, events[1..])
  }

  /** Several generation requests, queued in order. */
  function GenerateAll(s: SystemState, g: seq<GeneratedPortal>): SystemState
    decreases |g|
  {
    if g == [] then s else GenerateAll(Generate(s, g[0].location, g[0].destination), g[1..])
  }

  // ---------------------------------------------------------------------------
  // Properties of the operations
  // ---------------------------------------------------------------------------

  /** Registering sets the location's destination, keeps every other entry and touches nothing else. */
  lemma RegisterSetsOnlyThatLocation(s: SystemState, location: Vec3, destination: Vec3f)
    ensures var t := Register(s, location, destination);
      && location in t.portals && t.portals[location] == destination
      && (forall k :: k != location ==> (k in t.portals <==> k in s.portals))
      && (forall k :: k != location && k in s.portals ==> t.portals[k] == s.portals[k])
      && t.generatedPortals == s.generatedPortals
      && t.teleportingPlayers == s.teleportingPlayers
      && t.log == s.log
  {
  }

  /** Registering the same location again overwrites: the last write wins. */
  lemma ReRegisterOverwrites(s: SystemState, location: Vec3, d1: Vec3f, d2: Vec3f)
    ensures Register(Register(s, location, d1), location, d2) == Register(s, location, d2)
  {
  }

  /** Deregistering removes the location and keeps every other entry. */
  lemma DeregisterRemovesOnlyThatLocation(s: SystemState, location: Vec3)
    ensures var t := Deregister(s, location);
      && location !in t.portals
      && (forall k :: k != location ==> (k in t.portals <==> k in s.portals))
      && (forall k :: k != location && k in s.portals ==> t.portals[k] == s.portals[k])
      && t.generatedPortals == s.generatedPortals
      && t.teleportingPlayers == s.teleportingPlayers
      && t.log == s.log
  {
  }

  /** Deregistering a location that is not registered changes nothing. */
  lemma DeregisterAbsentIsNoOp(s: SystemState, location: Vec3)
    requires location !in s.portals
    ensures Deregister(s, location) == s
  {
    assert s.portals - {location} == s.portals;
  }

  /** Deregistering undoes registering a location that was not registered before. */
  lemma DeregisterUndoesRegister(s: SystemState, location: Vec3, destination: Vec3f)
    requires location !in s.portals
    ensures Deregister(Register(s, location, destination), location) == s
  {
    assert s.portals[location := destination] - {location} == s.portals;
  }

  /**
   * An entry appends exactly one request, carrying the registered destination,
   * when the entity is client-owned and the voxel is registered; otherwise
   * nothing changes.
   */
  lemma EnterBlockIff(s: SystemState, e: EnterEvent)
    ensures var t := EnterBlock(s, e);
      && t.portals == s.portals && t.generatedPortals == s.generatedPortals && t.log == s.log
      && (e.ownerIsClient && e.voxel in s.portals ==>
            t.teleportingPlayers == s.teleportingPlayers + [TeleportRequest(e.entity, s.portals[e.voxel])])
      && (!(e.ownerIsClient && e.voxel in s.portals) ==> t == s)
  {
  }

  /** Queuing a generated portal appends it at the back and changes nothing else. */
  lemma GenerateAppends(s: SystemState, location: Vec3, destination: Vec3f)
    ensures var t := Generate(s, location, destination);
      && t.generatedPortals == s.generatedPortals + [GeneratedPortal(location, destination)]
      && t.portals == s.portals && t.teleportingPlayers == s.teleportingPlayers && t.log == s.log
  {
  }

  /** Spawning a queue emits one SpawnedPortal per queued request, in queue order. */
  lemma {:induction false} SpawnsInOrder(g: seq<GeneratedPortal>)
    ensures |Spawns(g)| == |g|
    ensures forall i :: 0 <= i < |g| ==> Spawns(g)[i] == SpawnedPortal(g[i].location, g[i].destination)
  {
    if g != [] {
      SpawnsInOrder(g[1..]);
    }
  }

  /** Flushing emits one TeleportSent per collected request, in collection order. */
  lemma {:induction false} TeleportsInOrder(t: seq<TeleportRequest>)
    ensures |Teleports(t)| == |t|
    ensures forall i :: 0 <= i < |t| ==> Teleports(t)[i] == TeleportSent(t[i].character, t[i].destination)
  {
    if t != [] {
      TeleportsInOrder(t[1..]);
    }
  }

  /**
   * After a tick both queues are empty, the registry is as it was, and the
   * log grew by exactly one spawn per queued portal (FIFO) followed by one
   * teleport per collected request (collection order).
   */
  lemma UpdateDrainsBothQueues(s: SystemState)
    ensures var t := AfterUpdate(s);
      && t.generatedPortals == [] && t.teleportingPlayers == []
      && t.portals == s.portals
      && |t.log| == |s.log| + |s.generatedPortals| + |s.teleportingPlayers|
      && t.log[..|s.log|] == s.log
      && (forall i :: 0 <= i < |s.generatedPortals| ==>
            t.log[|s.log| + i] == SpawnedPortal(s.generatedPortals[i].location, s.generatedPortals[i].destination))
      && (forall i :: 0 <= i < |s.teleportingPlayers| ==>
            t.log[|s.log| + |s.generatedPortals| + i]
              == TeleportSent(s.teleportingPlayers[i].character, s.teleportingPlayers[i].destination))
  {
    SpawnsInOrder(s.generatedPortals);
    TeleportsInOrder(s.teleportingPlayers);
  }

  /** Nothing carries over: a second tick with no new input emits nothing more. */
  lemma UpdateTwiceIsUpdateOnce(s: SystemState)
    ensures AfterUpdate(AfterUpdate(s)) == AfterUpdate(s)
  {
    var t := AfterUpdate(s);
    assert Spawns([]) == [] && Teleports([]) == [];
    assert t.log + [] + [] == t.log;
  }

  /** Shutdown empties the registry and the generation queue and keeps the teleport requests. */
  lemma ShutdownClears(s: SystemState)
    ensures var t := AfterShutdown(s);
      && t.portals == map[] && t.generatedPortals == []
      && t.teleportingPlayers == s.teleportingPlayers && t.log == s.log
  {
  }

  /** Entries only append requests, in event order, and leave the registry, the queue and the log alone. */
  lemma {:induction false} EnterAllCollects(s: SystemState, events: seq<EnterEvent>)
    ensures var t := EnterAll(s, events);
      && t.portals == s.portals && t.generatedPortals == s.generatedPortals && t.log == s.log
      && t.teleportingPlayers == s.teleportingPlayers + AllRequests(s.portals, events)
    decreases |events|
  {
    if events != [] {
      var s1 := EnterBlock(s, events[0]);
      EnterAllCollects(s1, events[1..]);
      assert s1.teleportingPlayers + AllRequests(s.portals, events[1..])
          == s.teleportingPlayers + AllRequests(s.portals, events);
    }
  }

  /** Entries of entities that are not client-owned, or into unregistered voxels, produce no request. */
  lemma {:induction false} UnregisteredEntriesProduceNothing(portals: map<Vec3, Vec3f>, events: seq<EnterEvent>)
    requires forall i :: 0 <= i < |events| ==> !events[i].ownerIsClient || events[i].voxel !in portals
    ensures AllRequests(portals, events) == []
    decreases |events|
  {
    if events != [] {
      UnregisteredEntriesProduceNothing(portals, events[1..]);
    }
  }

  /** Every entry that hits a registered voxel with a client-owned entity yields one request. */
  lemma {:induction false} RegisteredEntriesEachProduceOne(portals: map<Vec3, Vec3f>, events: seq<EnterEvent>)
    requires forall i :: 0 <= i < |events| ==> events[i].ownerIsClient && events[i].voxel in portals
    ensures |AllRequests(portals, events)| == |events|
    ensures forall i :: 0 <= i < |events| ==>
      AllRequests(portals, events)[i] == TeleportRequest(events[i].entity, portals[events[i].voxel])
    decreases |events|
  {
    if events != [] {
      RegisteredEntriesEachProduceOne(portals, events[1..]);
    }
  }

  /**
   * One tick starting with no pending teleports: the entries of the tick are
   * collected, then the tick's update sends one teleport per request the
   * entries produced, in order, and empties the list.
   */
  lemma TickFlushesCollectedRequests(s: SystemState, events: seq<EnterEvent>)
    requires s.teleportingPlayers == []
    ensures var t := AfterUpdate(EnterAll(s, events));
      && t.teleportingPlayers == [] && t.generatedPortals == [] && t.portals == s.portals
      && t.log == s.log + Spawns(s.generatedPortals) + Teleports(AllRequests(s.portals, events))
  {
    EnterAllCollects(s, events);
    assert [] + AllRequests(s.portals, events) == AllRequests(s.portals, events);
  }

  /** Queuing several generated portals appends them at the back of the queue in order and changes nothing else. */
  lemma {:induction false} GenerateAllQueuesInOrder(s: SystemState, g: seq<GeneratedPortal>)
    ensures GenerateAll(s, g).generatedPortals == s.generatedPortals + g
    ensures GenerateAll(s, g).portals == s.portals
    ensures GenerateAll(s, g).teleportingPlayers == s.teleportingPlayers
    ensures GenerateAll(s, g).log == s.log
    decreases |g|
  {
    if g != [] {
      var s1 := Generate(s, g[0].location, g[0].destination);
      GenerateAllQueuesInOrder(s1, g[1..]);
      assert s1.generatedPortals + g[1..] == s.generatedPortals + g;
    }
  }

  /** Spawning two queues one after the other is spawning their concatenation. */
  lemma {:induction false} SpawnsAppend(a: seq<GeneratedPortal>, b: seq<GeneratedPortal>)
    ensures Spawns(a + b) == Spawns(a) + Spawns(b)
    decreases |a|
  {
    if a != [] {
      assert (a + b)[1..] == a[1..] + b;
      SpawnsAppend(a[1..], b);
    } else {
      assert a + b == b;
    }
  }

  /**
   * Portals queued before a tick are all spawned by that tick, after the ones
   * already waiting, each exactly once and in the order they were queued, and
   * none is left for the next tick.
   */
  lemma QueuedPortalsSpawnNextTick(s: SystemState, g: seq<GeneratedPortal>)
    ensures var t := AfterUpdate(GenerateAll(s, g));
      && t.generatedPortals == []
      && t.log == s.log + Spawns(s.generatedPortals) + Spawns(g) + Teleports(s.teleportingPlayers)
  {
    GenerateAllQueuesInOrder(s, g);
    SpawnsAppend(s.generatedPortals, g);
  }

  // ---------------------------------------------------------------------------
  // The system object
  // ---------------------------------------------------------------------------

  /**
   * The portal system. In the source `generatedPortals` is a static list
   * shared by every instance and guarded by a lock; here it is a field of the
   * one system object and every operation runs sequentially.
   */
  class PortalSystem {
    var portals: map<Vec3, Vec3f>
    var generatedPortals: seq<GeneratedPortal>
    var teleportingPlayers: seq<TeleportRequest>
    var log: seq<Effect>

    function State(): SystemState
      reads this
    {
      SystemState(portals, generatedPortals, teleportingPlayers, log)
    }

    /**
     * A new system. `pending` holds the generation requests already queued
     * before it exists: the shared queue outlives any one system, and the
     * first `Update` spawns them.
     */
    constructor (pending: seq<GeneratedPortal>)
      ensures State() == SystemState(map[], pending, [], [])
    {
      portals := map[];
      generatedPortals := pending;
      teleportingPlayers := [];
      log := [];
    }

    method RegisterPortal(startPosition: Vec3, destination: Vec3f)
      modifies this`portals
      ensures State() == Register(old(State()), startPosition, destination)
    {
      portals := portals[startPosition := destination];
    }

    method DeregisterPortal(startPosition: Vec3)
      modifies this`portals
      ensures State() == Deregister(old(State()), startPosition)
    {
      portals := portals - {startPosition};
    }

    /** A portal component became active: its location is registered. */
    method OnPortalActivated(portalComponent: PortalComponent)
      modifies this`portals
      ensures State() == Register(old(State()), portalComponent.location, portalComponent.destination)
    {
      RegisterPortal(portalComponent.location, portalComponent.destination);
    }

    /** A portal component is about to be deactivated: its location is deregistered. */
    method OnSystemDeactivated(portalComponent: PortalComponent)
      modifies this`portals
      ensures State() == Deregister(old(State()), portalComponent.location)
    {
      DeregisterPortal(portalComponent.location);
    }

    /**
     * An entity entered the voxel `startPosition`; `ownerIsClient` says
     * whether its owner has a client component.
     */
    method OnEnterBlock(entity: EntityRef, ownerIsClient: bool, startPosition: Vec3)
      modifies this`teleportingPlayers
      ensures State() == EnterBlock(old(State()), EnterEvent(entity, ownerIsClient, startPosition))
    {
      if ownerIsClient && startPosition in portals {
        teleportingPlayers := teleportingPlayers + [TeleportRequest(entity, portals[startPosition])];
      }
    }

    /** Builds a portal entity; the model records the request in the log. */
    method SpawnPortal(location: Vec3, destination: Vec3f)
      modifies this`log
      ensures log == old(log) + [SpawnedPortal(location, destination)]
    {
      log := log + [SpawnedPortal(location, destination)];
    }

    /** Queues a portal request from world generation; the source's method is static and may run before any system exists. */
    method GeneratePortal(location: Vec3, destination: Vec3f)
      modifies this`generatedPortals
      ensures State() == Generate(old(State()), location, destination)
    {
      generatedPortals := generatedPortals + [GeneratedPortal(location, destination)];
    }

    method Shutdown()
      modifies this`portals, this`generatedPortals
      ensures State() == AfterShutdown(old(State()))
    {
      portals := map[];
      generatedPortals := [];
    }

    /** One tick: drain the generation queue front to back, then flush and clear the teleport requests. */
    method Update()
      modifies this`generatedPortals, this`teleportingPlayers, this`log
      ensures State() == AfterUpdate(old(State()))
    {
      if |generatedPortals| > 0 {
        while |generatedPortals| > 0
          invariant log + Spawns(generatedPortals) == old(log) + Spawns(old(generatedPortals))
          invariant teleportingPlayers == old(teleportingPlayers)
          decreases |generatedPortals|
        {
          var p := generatedPortals[0];
          SpawnPortal(p.location, p.destination);
          generatedPortals := generatedPortals[1..];
        }
      }
      assert Spawns(generatedPortals) == [] && log == old(log) + Spawns(old(generatedPortals));
      ghost var drained := log;
      for i := 0 to |teleportingPlayers|
        invariant teleportingPlayers == old(teleportingPlayers) && generatedPortals == []
        invariant log + Teleports(teleportingPlayers[i..]) == drained + Teleports(teleportingPlayers)
      {
        var request := teleportingPlayers[i];
        log := log + [TeleportSent(request.character, request.destination)];
      }
      assert teleportingPlayers[|teleportingPlayers|..] == [];
      teleportingPlayers := [];
    }
  }
}
