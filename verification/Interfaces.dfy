/**
 The two interface models of a node: host-owned endpoint facts, and a router's registry with a
 registration generation per slot.
 */
module Interfaces {
  import opened Base

  const SLOTS: nat := 8
  const LORA_WIRE_MAX: nat := 508

  datatype Mode = Full | PointToPoint | Internal | AccessPoint | Gateway | Roaming | Boundary
  datatype Role = LoRa | Backbone | Normal | LocalClient
  datatype Direction = Direction(inbound: bool, outbound: bool, forward: bool, repeat: bool)

  /** A registered interface; `tag` is the length of its access code, zero for none. */
  datatype InterfaceConfig = InterfaceConfig(
    id: byte, role: Role, mode: Mode, direction: Direction, mtu: nat, bitrate: u64, tag: nat,
    online: bool, depth: nat, capPermille: nat, bulk: bool)
  {
    function ClearMtu(): nat {
      if role.LoRa? then Min(mtu, if tag <= LORA_WIRE_MAX then LORA_WIRE_MAX - tag else 0) else mtu
    }

    function WireMtu(): nat {
      ClearMtu() + tag
    }

    predicate Valid(total: nat) {
      && tag <= 64 && 19 <= mtu <= 500 && 0 < depth <= total
      && (direction.inbound || direction.outbound)
      && (direction.forward || direction.repeat ==> direction.outbound)
    }

    predicate Sends() {
      online && direction.outbound
    }
  }

  /** `announce_egress_allowed`. */
  predicate EgressAllowed(source: InterfaceConfig, target: InterfaceConfig) {
    && target.Sends()
    && (if source.id == target.id then target.direction.repeat else target.direction.forward)
    && (target.role.LocalClient? ||
        match target.mode
        case AccessPoint => false
        case Internal => !source.mode.Boundary?
        case Roaming => !source.mode.Roaming? && !source.mode.Boundary?
        case Boundary => !source.mode.Roaming?
        case _ => true)
  }

  /** What an endpoint knows of a host interface. */
  datatype Facts = Facts(
    occupied: bool, sendable: bool, explicit: bool, local: bool,
    id: byte, generation: nat, mode: Mode, bitrate: nat, clearMtu: nat)
  {
    predicate Outbound() {
      sendable && generation != 0
    }
  }

  const EMPTY_FACTS := Facts(false, false, false, false, 0, 0, Full, 0, 500)

  datatype Interfaces =
    | Endpoint(facts: seq<Facts>)
    | Router(registry: seq<Option<InterfaceConfig>>, generations: seq<u64>, last: u64, gates: seq<u64>)
  {
    predicate WellFormed() {
      match this
      case Endpoint(facts) => |facts| == SLOTS
      case Router(registry, generations, last, gates) =>
        && |registry| == |generations| == |gates| == SLOTS
        && (forall s :: 0 <= s < SLOTS ==> generations[s] <= last)
        && (forall s, t :: 0 <= s < t < SLOTS && registry[s].Some? && registry[t].Some? ==>
          registry[s].value.id != registry[t].value.id)
    }

    /** The slot of an interface, or `SLOTS` when it is unknown. */
    function Slot(id: byte): (s: nat)
      requires WellFormed()
      ensures s <= SLOTS
      ensures Router? ==> (s < SLOTS ==> registry[s].Some? && registry[s].value.id == id)
      ensures Router? ==> forall t :: 0 <= t < SLOTS && registry[t].Some? && registry[t].value.id == id ==> t == s
      ensures Endpoint? && s < SLOTS ==> facts[s].occupied && facts[s].id == id
      ensures Endpoint? ==> forall t :: 0 <= t < s ==> !(facts[t].occupied && facts[t].id == id)
    {
      match this
      case Endpoint(facts) => First(facts, (f: Facts) => f.occupied && f.id == id)
      case Router(registry, _, _, _) => First(registry, (o: Option<InterfaceConfig>) => o.Some? && o.value.id == id)
    }

    function Config(id: byte): (c: Option<InterfaceConfig>)
      requires WellFormed()
      ensures c.Some? ==> Router? && c.value.id == id
    {
      if Router? && Slot(id) < SLOTS then registry[Slot(id)] else None
    }

    /** Registration generation of an interface; zero when it is unknown. */
    function Generation(id: byte): u64
      requires WellFormed()
    {
      if Router? && Slot(id) < SLOTS then generations[Slot(id)] else 0
    }

    /** Whether a delivery sealed for this registration may still go out. */
    predicate DeliveryIsCurrent(id: byte, generation: u64)
      requires WellFormed()
    {
      Router? ==> generation != 0 && Generation(id) == generation
    }

    predicate Online(id: byte)
      requires WellFormed()
    {
      Router? ==> Config(id).Some? && Config(id).value.Sends()
    }

    function FactsAt(s: nat): Facts
      requires WellFormed() && s < SLOTS
    {
      match this
      case Endpoint(facts) => facts[s]
      case Router(registry, _, _, _) =>
        match registry[s]
        case None => EMPTY_FACTS
        case Some(c) => Facts(true, c.Sends(), true, c.role.LocalClient?, c.id, 1, c.mode, Min(c.bitrate, 0xFFFF_FFFF),
          c.ClearMtu())
    }

    /** `at_slot` of a router's registry. */
    function At(s: nat): Option<InterfaceConfig>
      requires WellFormed() && s < SLOTS
    {
      if Router? then registry[s] else None
    }

    /** The slot of an endpoint's interface, or a free one for it. */
    function SlotFor(id: byte): (s: nat)
      requires WellFormed() && Endpoint?
      ensures s <= SLOTS
    {
      if Slot(id) < SLOTS then Slot(id) else First(facts, (f: Facts) => !f.occupied)
    }

    function WithFacts(s: nat, f: Facts): (i: Interfaces)
      requires WellFormed() && Endpoint? && s < SLOTS
      ensures i.WellFormed() && i.Endpoint?
    {
      Endpoint(facts[s := f])
    }

    /** How many interfaces are registered. */
    function Registered(): nat
      requires WellFormed()
    {
      if Router? then |set s: nat | s < SLOTS && registry[s].Some?| else 0
    }

    /** When the announce gate of a slot opens. */
    function GateAt(s: nat): u64
      requires WellFormed() && s < SLOTS
    {
      if Router? then gates[s] else 0
    }

    /** `announce_targets`: the slots an announce that came in on `source` is owed to. */
    function Targets(source: byte): (t: set<nat>)
      requires WellFormed()
      ensures forall s :: s in t ==> s < SLOTS
    {
      if Config(source).None? then {}
      else set s: nat | s < SLOTS && At(s).Some? && EgressAllowed(Config(source).value, At(s).value)
    }

    /** Whether a search coming in on `requester` may go out on slot `s`, at a known rate. */
    predicate Searches(requester: byte, s: nat)
      requires WellFormed() && s < SLOTS
    {
      var f := FactsAt(s);
      (f.id != requester || (Config(f.id).Some? && Config(f.id).value.direction.repeat)) && f.Outbound()
        && f.bitrate > 0
    }

    /** `slowest_outbound_bitrate` from slot `s` on: the least rate of an interface searched, zero for none. */
    function Slowest(requester: byte, s: nat): (rate: nat)
      requires WellFormed() && s <= SLOTS
      ensures forall t :: s <= t < SLOTS && Searches(requester, t) ==> 0 < rate <= FactsAt(t).bitrate
      ensures rate > 0 ==> exists t :: s <= t < SLOTS && Searches(requester, t) && FactsAt(t).bitrate == rate
      decreases SLOTS - s
    {
      if s == SLOTS then 0
      else
        var rest := Slowest(requester, s + 1);
        if Searches(requester, s) && (rest == 0 || FactsAt(s).bitrate < rest) then FactsAt(s).bitrate else rest
    }

    /** `bitrate_bps` of an interface that can send, else zero. */
    function Bitrate(id: byte): nat
      requires WellFormed()
    {
      var s := Slot(id);
      if s < SLOTS && FactsAt(s).Outbound() && FactsAt(s).bitrate >= 0 then FactsAt(s).bitrate else 0
    }

    function ClearMtu(id: byte, fallback: nat): nat
      requires WellFormed()
    {
      var s := Slot(id);
      if s < SLOTS then FactsAt(s).clearMtu else fallback
    }

    predicate IsLocalClient(id: byte)
      requires WellFormed()
    {
      var s := Slot(id);
      s < SLOTS && FactsAt(s).local
    }

    /** `Model::observe`: an endpoint remembers the interface a frame came in on. */
    function Observe(id: byte, mode: Mode, clearMtu: nat): (i: Interfaces)
      requires WellFormed()
      ensures i.WellFormed() && i.Endpoint? == Endpoint? && (Router? ==> i == this)
    {
      match this
      case Router(_, _, _, _) => this
      case Endpoint(facts) =>
        var s := Slot(id);
        if s < SLOTS then
          if facts[s].explicit then this else Endpoint(facts[s := facts[s].(mode := mode)])
        else
          var free := First(facts, (f: Facts) => !f.occupied);
          if free < SLOTS then Endpoint(facts[free := Facts(true, true, false, false, id, 1, mode, 0, clearMtu)])
            else this
    }
  }

  /** A valid interface is of use: a header fits, frames go in or out, and what it may pass on it can send when up. */
  lemma ValidIsUsable(c: InterfaceConfig, total: nat)
    requires c.Valid(total)
    ensures 19 <= c.ClearMtu() <= 500 && c.ClearMtu() <= c.WireMtu() && 0 < c.depth <= total
    ensures c.role.LoRa? ==> c.WireMtu() <= LORA_WIRE_MAX
    ensures c.online && (c.direction.forward || c.direction.repeat) ==> c.Sends()
    ensures c.direction.inbound || c.direction.outbound
  {
  }

  /** A router knows of an interface what it was registered with. */
  lemma FactsByConfig(ifs: Interfaces, id: byte)
    requires ifs.WellFormed() && ifs.Config(id).Some?
    ensures var c := ifs.Config(id).value;
      && ifs.IsLocalClient(id) == c.role.LocalClient? && ifs.Online(id) == c.Sends()
      && ifs.ClearMtu(id, 0) == c.ClearMtu() && ifs.FactsAt(ifs.Slot(id)).mode == c.mode
      && ifs.Bitrate(id) == if c.Sends() then Min(c.bitrate, 0xFFFF_FFFF) else 0
  {
  }

  /** What a host has said of an interface is not changed by what comes in on it, nor is any other interface. */
  lemma ObservingKeeps(ifs: Interfaces, id: byte, mode: Mode, clearMtu: nat, s: nat)
    requires ifs.WellFormed() && ifs.Endpoint? && s < SLOTS && ifs.facts[s].occupied
    requires ifs.facts[s].explicit || ifs.facts[s].id != id
    ensures ifs.Observe(id, mode, clearMtu).facts[s] == ifs.facts[s]
  {
  }

  /** The pairs of modes between which announces do not pass. */
  const BARRED: set<(Mode, Mode)> := {
    (Boundary, Internal), (Boundary, Roaming), (Roaming, Roaming), (Roaming, Boundary)
  }

  /** Announces leave only on interfaces that can send, back only where repeated, and never to an access point. */
  lemma EgressExactly(source: InterfaceConfig, target: InterfaceConfig)
    ensures EgressAllowed(source, target) <==>
      && target.online && target.direction.outbound
      && (source.id == target.id ==> target.direction.repeat) && (source.id != target.id ==> target.direction.forward)
      && (target.role.LocalClient? || (!target.mode.AccessPoint? && (source.mode, target.mode) !in BARRED))
  {
  }

  /** An announce is owed to the registered slots it may leave on from a registered interface, and to no other. */
  lemma TargetsExactly(ifs: Interfaces, source: byte, s: nat)
    requires ifs.WellFormed() && s < SLOTS
    ensures s in ifs.Targets(source) <==>
      && ifs.Config(source).Some? && ifs.At(s).Some?
      && var a, b := ifs.Config(source).value, ifs.At(s).value;
      && b.online && b.direction.outbound
      && (a.id == b.id ==> b.direction.repeat) && (a.id != b.id ==> b.direction.forward)
      && (b.role.LocalClient? || (!b.mode.AccessPoint? && (a.mode, b.mode) !in BARRED))
  {
    hide Interfaces.WellFormed, EgressAllowed, BARRED;
    if ifs.Config(source).Some? && ifs.At(s).Some? {
      EgressExactly(ifs.Config(source).value, ifs.At(s).value);
    }
  }

  /**
   How a router's registrations may change: each interface keeps its registration, or loses it, or
   gets a generation no interface ever had.
   */
  ghost predicate Reregisters(v: Interfaces, w: Interfaces)
  {
    && v.WellFormed() && w.WellFormed()
    && (v.Endpoint? <==> w.Endpoint?)
    && (v.Router? ==>
          && v.last <= w.last
          && forall id: byte ::
               || w.Generation(id) == 0
               || w.Generation(id) > v.last
               || (w.Generation(id) == v.Generation(id) && w.Config(id) == v.Config(id)))
  }

  lemma ReregistersTransitive(u: Interfaces, v: Interfaces, w: Interfaces)
    requires Reregisters(u, v) && Reregisters(v, w)
    ensures Reregisters(u, w)
  {
  }

  /** A router that differs only in slot `s`, which belongs or belonged to interface `id`. */
  ghost predicate DiffersAt(v: Interfaces, w: Interfaces, s: nat, id: byte) {
    && v.WellFormed() && w.WellFormed() && v.Router? && w.Router? && s < SLOTS && v.last <= w.last
    && (forall t :: 0 <= t < SLOTS && t != s ==> w.registry[t] == v.registry[t] && w.generations[t] == v.generations[t])
    && (v.registry[s].Some? ==> v.registry[s].value.id == id)
    && (w.registry[s].Some? ==> w.registry[s].value.id == id)
    && (v.registry[s].None? ==> v.Slot(id) == SLOTS)
  }

  lemma OthersKept(v: Interfaces, w: Interfaces, s: nat, id: byte)
    requires DiffersAt(v, w, s, id)
    ensures w.Config(id) == w.registry[s]
    ensures w.registry[s].Some? ==> w.Generation(id) == w.generations[s]
    ensures w.registry[s].None? ==> w.Generation(id) == 0
    ensures forall other: byte ::
      other != id ==> w.Config(other) == v.Config(other) && w.Generation(other) == v.Generation(other)
    ensures w.registry[s].None? || w.generations[s] == 0 || w.generations[s] > v.last ==> Reregisters(v, w)
  {
    forall t | 0 <= t < SLOTS && t != s ensures w.registry[t].None? || w.registry[t].value.id != id {
      assert v.registry[t] == w.registry[t];
    }
    forall other: byte | other != id ensures w.Slot(other) == v.Slot(other) {
    }
  }

  /** `register_interface` on the registry: into the first free slot, under a new generation, gate open. */
  function Register(v: Interfaces, c: InterfaceConfig): (w: Option<Interfaces>)
    requires v.WellFormed() && v.Router?
    ensures w.Some? <==>
      && v.last < U64_MAX && v.Config(c.id).None?
      && exists s :: 0 <= s < SLOTS && v.registry[s].None?
    ensures w.Some? ==> w.value.WellFormed() && Reregisters(v, w.value)
    ensures w.Some? ==>
      v.Config(c.id).None? && w.value.Config(c.id) == Some(c) && w.value.Generation(c.id) == w.value.last > 0
    ensures w.Some? ==> w.value.Slot(c.id) < SLOTS
    ensures w.Some? ==>
      && w.value.Router? && w.value.registry == v.registry[w.value.Slot(c.id) := Some(c)]
      && w.value.gates == v.gates[w.value.Slot(c.id) := 0]
    ensures w.Some? ==> forall id: byte :: id != c.id ==>
      w.value.Config(id) == v.Config(id) && w.value.Generation(id) == v.Generation(id)
  {
    var free := First(v.registry, (o: Option<InterfaceConfig>) => o.None?);
    if v.last == U64_MAX || v.Slot(c.id) < SLOTS || free == SLOTS then None
    else
      var w := Router(v.registry[free := Some(c)], v.generations[free := v.last + 1], v.last + 1, v.gates[free := 0]);
      OthersKept(v, w, free, c.id);
      Some(w)
  }

  /** `retire_router_interface` on the registry: the generation goes, and the gate opens. */
  function Retire(v: Interfaces, s: nat, entry: Option<InterfaceConfig>): (w: Interfaces)
    requires v.WellFormed() && v.Router? && s < SLOTS && v.registry[s].Some?
    requires entry.Some? ==> entry.value.id == v.registry[s].value.id
    ensures w.WellFormed() && Reregisters(v, w) && w.Router? && w.last == v.last
    ensures w.Generation(v.registry[s].value.id) == 0
    ensures w.registry == v.registry[s := entry] && w.gates == v.gates[s := 0]
    ensures w.Config(v.registry[s].value.id) == entry
    ensures forall id: byte :: id != v.registry[s].value.id ==>
      w.Config(id) == v.Config(id) && w.Generation(id) == v.Generation(id)
  {
    var w := Router(v.registry[s := entry], v.generations[s := 0], v.last, v.gates[s := 0]);
    OthersKept(v, w, s, v.registry[s].value.id);
    w
  }

  /** Bringing an offline interface up gives it a new generation. */
  function BringUp(v: Interfaces, s: nat): (w: Option<Interfaces>)
    requires v.WellFormed() && v.Router? && s < SLOTS && v.registry[s].Some?
    ensures w.Some? ==> w.value.WellFormed() && Reregisters(v, w.value)
    ensures w.Some? ==>
      && w.value.Router? && w.value.registry == v.registry[s := Some(v.registry[s].value.(online := true))]
      && w.value.gates == v.gates
    ensures w.Some? ==> w.value.Config(v.registry[s].value.id) == Some(v.registry[s].value.(online := true))
    ensures w.Some? ==> w.value.Generation(v.registry[s].value.id) > 0
    ensures w.Some? ==> forall id: byte :: id != v.registry[s].value.id ==>
      w.value.Config(id) == v.Config(id) && w.value.Generation(id) == v.Generation(id)
  {
    if v.last == U64_MAX then None
    else
      var w := Router(v.registry[s := Some(v.registry[s].value.(online := true))], v.generations[s := v.last + 1],
        v.last + 1, v.gates);
      OthersKept(v, w, s, v.registry[s].value.id);
      Some(w)
  }

  /** A fresh registration epoch for every slot, whatever registry comes with it. */
  function Renew(v: Interfaces, registry: seq<Option<InterfaceConfig>>): (w: Option<Interfaces>)
    requires v.WellFormed() && v.Router? && |registry| == SLOTS
    requires forall s, t ::
      0 <= s < t < SLOTS && registry[s].Some? && registry[t].Some? ==> registry[s].value.id != registry[t].value.id
    ensures w.Some? ==>
      w.value.WellFormed() && Reregisters(v, w.value) && w.value.Router? && w.value.registry == registry
    ensures w.Some? <==> v.last < U64_MAX
    ensures w.Some? ==> forall s :: 0 <= s < SLOTS ==> w.value.generations[s] > 0 && w.value.gates[s] == 0
  {
    if v.last == U64_MAX then None
    else Some(Router(registry, seq(SLOTS, _ => v.last + 1), v.last + 1, seq(SLOTS, _ => 0)))
  }
}
