// The broker of the integration (custom_components/ramses_cc/broker.py):
// the bookkeeping between the RF library's client and Home Assistant.
// It diffs the client's entity lists against the ones already announced,
// caches each device's registry entry, filters the packets restored from
// storage, decides which remote command tables win, and shapes the
// bind_device and send_packet service calls before handing them to the
// library.  The library, the registry, the store and the platforms are
// represented by a log of the actions the broker asks of them.

module Broker {
  import opened Outcomes
  import opened PyValues
  import ServiceSchemas
  import Ids

  const Day: int := 86400

  /** The gateway's placeholder address, replaced by the real gateway id. */
  const SentinelId: string := "18:000730"

  // ---------------------------------------------------------------------
  // Entity discovery

  /** The identity of a library entity.  The client keeps one object per
    * entity, and `x not in known` compares those objects, so an entity is
    * the same one whatever state it is in: it is known by its id and class. */
  function KeyOf(e: Entity): (string, EntityClass)
  {
    (e.id, e.cls)
  }

  function KeysOf(es: seq<Entity>): set<(string, EntityClass)>
  {
    set e | e in es :: KeyOf(e)
  }

  /** The client lists each entity once. */
  predicate UniqueKeys(es: seq<Entity>)
  {
    forall i, j :: 0 <= i < j < |es| ==> KeyOf(es[i]) != KeyOf(es[j])
  }

  /** `[x for x in current if x not in known]`: the entities of the client's
    * list that were not announced before, in any state. */
  function NewEntities(known: seq<Entity>, current: seq<Entity>): (r: seq<Entity>)
    ensures forall x :: x in r <==> x in current && KeyOf(x) !in KeysOf(known)
    ensures |r| <= |current|
    ensures KeysOf(current) <= KeysOf(known) ==> r == []
  {
    if current == [] then []
    else
      assert current[0] in current && KeysOf(current[1..]) <= KeysOf(current);
      Keep(known, current[0]) + NewEntities(known, current[1..])
  }

  function Keep(known: seq<Entity>, x: Entity): (r: seq<Entity>)
  {
    if KeyOf(x) in KeysOf(known) then [] else [x]
  }

  /** The new entities keep the order they have in the client's list: the
    * filter distributes over concatenation. */
  lemma {:induction false} NewEntitiesAppend(known: seq<Entity>, a: seq<Entity>, b: seq<Entity>)
    ensures NewEntities(known, a + b) == NewEntities(known, a) + NewEntities(known, b)
  {
    if a == [] {
      assert a + b == b;
    } else {
      var head := Keep(known, a[0]);
      assert (a + b)[0] == a[0] && (a + b)[1..] == a[1..] + b;
      NewEntitiesAppend(known, a[1..], b);
      calc {
        NewEntities(known, a + b);
        head + NewEntities(known, a[1..] + b);
        head + (NewEntities(known, a[1..]) + NewEntities(known, b));
        (head + NewEntities(known, a[1..])) + NewEntities(known, b);
        NewEntities(known, a) + NewEntities(known, b);
      }
    }
  }

  /** The record the client's list holds for an identity: the first one. */
  function Current(current: seq<Entity>, key: (string, EntityClass)): (r: Option<Entity>)
    ensures r.None? <==> key !in KeysOf(current)
    ensures r.Some? ==> r.value in current && KeyOf(r.value) == key
  {
    if current == [] then None
    else
      assert KeysOf(current) == {KeyOf(current[0])} + KeysOf(current[1..]);
      if KeyOf(current[0]) == key then Some(current[0]) else Current(current[1..], key)
  }

  /** In a list with one record per entity, an entity's record is found by
    * its identity. */
  lemma {:induction false} CurrentOfUnique(current: seq<Entity>, x: Entity)
    requires UniqueKeys(current) && x in current
    ensures Current(current, KeyOf(x)) == Some(x)
  {
    if current[0] != x {
      var j :| 0 <= j < |current| && current[j] == x;
      assert j != 0 && KeyOf(current[0]) != KeyOf(current[j]);
      assert current[1..][j - 1] == x;
      assert UniqueKeys(current[1..]) by {
        forall i, k | 0 <= i < k < |current[1..]|
          ensures KeyOf(current[1..][i]) != KeyOf(current[1..][k])
        {
          assert current[1..][i] == current[i + 1] && current[1..][k] == current[k + 1];
        }
      }
      CurrentOfUnique(current[1..], x);
    }
  }

  /** The announced entities as the client holds them now: one still in the
    * client's list is read in its current state; one no longer listed keeps
    * the state it was last seen in. */
  function Sync(known: seq<Entity>, current: seq<Entity>): (r: seq<Entity>)
    ensures |r| == |known|
    ensures forall i :: 0 <= i < |known| ==> KeyOf(r[i]) == KeyOf(known[i])
    ensures KeysOf(r) == KeysOf(known)
  {
    var r := seq(|known|, i requires 0 <= i < |known| => Current(current, KeyOf(known[i])).GetOr(known[i]));
    assert forall i :: 0 <= i < |known| ==> KeyOf(r[i]) == KeyOf(known[i]);
    assert forall e :: e in known ==> KeyOf(e) in KeysOf(r) by {
      forall e | e in known ensures KeyOf(e) in KeysOf(r) {
        var i :| 0 <= i < |known| && known[i] == e;
        assert KeyOf(r[i]) == KeyOf(e);
      }
    }
    r
  }

  /** `find_new_entities`: the known list, read in its current state and
    * extended by the new entities, and the new entities. */
  function FindNewEntities(known: seq<Entity>, current: seq<Entity>): (r: (seq<Entity>, seq<Entity>))
    ensures |r.0| == |known| + |r.1| && r.0[|known|..] == r.1
    ensures forall i :: 0 <= i < |known| ==> KeyOf(r.0[i]) == KeyOf(known[i])
    ensures forall x :: x in r.1 <==> x in current && KeyOf(x) !in KeysOf(known)
    ensures KeysOf(current) <= KeysOf(r.0)
  {
    var synced := Sync(known, current);
    var added := NewEntities(known, current);
    var r := (synced + added, added);
    assert KeysOf(r.0) == KeysOf(known) + KeysOf(added) by {
      assert forall e :: e in r.0 <==> e in synced || e in added;
    }
    r
  }

  /** Every entity of a list with one record per entity is in the known
    * list, in the state the list gives it. */
  lemma ListedEntitiesKnown(known: seq<Entity>, current: seq<Entity>, x: Entity)
    requires UniqueKeys(current) && x in current
    ensures x in FindNewEntities(known, current).0
  {
    var r := FindNewEntities(known, current);
    CurrentOfUnique(current, x);
    if KeyOf(x) in KeysOf(known) {
      var i :| 0 <= i < |known| && KeyOf(known[i]) == KeyOf(x);
      assert r.0[i] == Sync(known, current)[i] == x;
    } else {
      assert x in r.1 && r.0[|known|..] == r.1;
    }
  }

  /** An announced entity whose state changed in the client's list is not
    * new: the known list reads it in its new state. */
  lemma ChangedEntityNotNew(known: seq<Entity>, current: seq<Entity>, i: nat, x: Entity)
    requires i < |known| && x in current && KeyOf(x) == KeyOf(known[i]) && UniqueKeys(current)
    ensures x !in FindNewEntities(known, current).1
    ensures FindNewEntities(known, current).0[i] == x
  {
    assert KeyOf(known[i]) in KeysOf(known);
    CurrentOfUnique(current, x);
    assert FindNewEntities(known, current).0[i] == Sync(known, current)[i];
  }

  /** Diffing again against the same client list finds nothing new and
    * leaves the known list as it is. */
  lemma FindNewEntitiesAgain(known: seq<Entity>, current: seq<Entity>)
    requires UniqueKeys(current)
    ensures var r := FindNewEntities(known, current);
      FindNewEntities(r.0, current) == (r.0, [])
  {
    var r := FindNewEntities(known, current);
    var again := NewEntities(r.0, current);
    assert again == [];
    var synced := Sync(r.0, current);
    forall i | 0 <= i < |r.0|
      ensures synced[i] == r.0[i]
    {
      if i < |known| {
        assert r.0[i] == Sync(known, current)[i];
      } else {
        assert r.0[i] in r.1 by { assert r.0[i] == r.1[i - |known|]; }
        CurrentOfUnique(current, r.0[i]);
      }
    }
    assert synced == r.0;
    assert FindNewEntities(r.0, current) == (synced + again, again);
    assert r.0 + [] == r.0;
  }

  /** The classes of library entities the broker tells apart. */
  datatype EntityClass = SystemEntity | ZoneEntity | DhwEntity | VentilatorDevice | RemoteDevice | OtherDevice

  /** The product information a device may have reported (code 10E0). */
  datatype ProductInfo = NoProductInfo | ProductInfo(description: Option<string>)

  /** A library entity, as far as the broker looks at it: its id, its own
    * name ("" when it has none), its class and slug ("" when none), its
    * product information, and the controller and parent it hangs off. */
  datatype Entity = Entity(
    id: string, name: string, cls: EntityClass, slug: string,
    product: ProductInfo, tcs: Option<string>, parent: Option<string>)

  /** A system of the client: whether it is an evohome system, its zones and
    * its stored hot water, if any. */
  datatype ClientSystem = ClientSystem(system: Entity, isEvohome: bool, zones: seq<Entity>, dhw: Option<Entity>)

  function EvohomeSystems(systems: seq<ClientSystem>): (r: seq<Entity>)
    ensures forall e :: e in r <==> exists s :: s in systems && s.isEvohome && s.system == e
  {
    if systems == [] then []
    else (if systems[0].isEvohome then [systems[0].system] else []) + EvohomeSystems(systems[1..])
  }

  function EvohomeZones(systems: seq<ClientSystem>): (r: seq<Entity>)
    ensures forall e :: e in r <==> exists s :: s in systems && s.isEvohome && e in s.zones
  {
    if systems == [] then []
    else (if systems[0].isEvohome then systems[0].zones else []) + EvohomeZones(systems[1..])
  }

  function EvohomeDhws(systems: seq<ClientSystem>): (r: seq<Entity>)
    ensures forall e :: e in r <==> exists s :: s in systems && s.isEvohome && s.dhw == Some(e)
  {
    if systems == [] then []
    else (if systems[0].isEvohome && systems[0].dhw.Some? then [systems[0].dhw.value] else []) + EvohomeDhws(systems[1..])
  }

  /** The four lists of entities the broker has announced. */
  datatype Known = Known(systems: seq<Entity>, zones: seq<Entity>, dhws: seq<Entity>, devices: seq<Entity>)

  /** What one update finds: the extended lists and the new entities. */
  function Discover(known: Known, systems: seq<ClientSystem>, devices: seq<Entity>): (Known, Known)
  {
    var s := FindNewEntities(known.systems, EvohomeSystems(systems));
    var z := FindNewEntities(known.zones, EvohomeZones(systems));
    var d := FindNewEntities(known.dhws, EvohomeDhws(systems));
    var v := FindNewEntities(known.devices, devices);
    (Known(s.0, z.0, d.0, v.0), Known(s.1, z.1, d.1, v.1))
  }

  /** What an update finds new: the evohome systems, zones and DHWs, and
    * the client's devices, whose identity is not yet known; each extended
    * list is the known one followed by the new entities. */
  lemma DiscoverFindsNew(known: Known, systems: seq<ClientSystem>, devices: seq<Entity>)
    ensures var r := Discover(known, systems, devices);
      (forall x :: x in r.1.systems <==> x in EvohomeSystems(systems) && KeyOf(x) !in KeysOf(known.systems)) &&
      (forall x :: x in r.1.zones <==> x in EvohomeZones(systems) && KeyOf(x) !in KeysOf(known.zones)) &&
      (forall x :: x in r.1.dhws <==> x in EvohomeDhws(systems) && KeyOf(x) !in KeysOf(known.dhws)) &&
      (forall x :: x in r.1.devices <==> x in devices && KeyOf(x) !in KeysOf(known.devices))
    ensures var r := Discover(known, systems, devices);
      |r.0.systems| == |known.systems| + |r.1.systems| && r.0.systems[|known.systems|..] == r.1.systems &&
      |r.0.zones| == |known.zones| + |r.1.zones| && r.0.zones[|known.zones|..] == r.1.zones &&
      |r.0.dhws| == |known.dhws| + |r.1.dhws| && r.0.dhws[|known.dhws|..] == r.1.dhws &&
      |r.0.devices| == |known.devices| + |r.1.devices| && r.0.devices[|known.devices|..] == r.1.devices
  {
  }

  predicate NothingNew(added: Known)
  {
    added.systems == [] && added.zones == [] && added.dhws == [] && added.devices == []
  }

  /** The client's lists each hold an entity once. */
  predicate ClientListsUnique(systems: seq<ClientSystem>, devices: seq<Entity>)
  {
    UniqueKeys(EvohomeSystems(systems)) && UniqueKeys(EvohomeZones(systems)) &&
    UniqueKeys(EvohomeDhws(systems)) && UniqueKeys(devices)
  }

  /** An update against unchanged client lists finds no new entity. */
  lemma DiscoverAgain(known: Known, systems: seq<ClientSystem>, devices: seq<Entity>)
    requires ClientListsUnique(systems, devices)
    ensures var r := Discover(known, systems, devices);
      Discover(r.0, systems, devices) == (r.0, Known([], [], [], []))
  {
    FindNewEntitiesAgain(known.systems, EvohomeSystems(systems));
    FindNewEntitiesAgain(known.zones, EvohomeZones(systems));
    FindNewEntitiesAgain(known.dhws, EvohomeDhws(systems));
    FindNewEntitiesAgain(known.devices, devices);
  }

  // ---------------------------------------------------------------------
  // Platforms and the actions asked of the library, store and registry

  datatype Platform = BinarySensorPlatform | SensorPlatform | ClimatePlatform | RemotePlatform | WaterHeaterPlatform

  /** The request the broker makes to bind a faked device. */
  datatype BindRequest = BindRequest(deviceId: string, offerCodes: seq<string>, confirmCodes: seq<string>, ratify: Option<string>)

  datatype Action =
    | AddEntities(platform: Platform, entities: seq<Entity>)
    | SaveState(clientState: Value, remotes: map<string, map<string, string>>)
    | UpdateSignal
    | StartBinding(request: BindRequest)
    | SendCommand(packet: ServiceSchemas.SendPacket)
    | ScheduleUpdate

  /** `async_add_entities`: nothing for an empty list. */
  function AddTo(platform: Platform, entities: seq<Entity>): (r: seq<Action>)
    ensures r == [] <==> entities == []
  {
    if entities == [] then [] else [AddEntities(platform, entities)]
  }

  function OfClass(es: seq<Entity>, cls: EntityClass): (r: seq<Entity>)
    ensures forall e :: e in r <==> e in es && e.cls == cls
  {
    if es == [] then [] else (if es[0].cls == cls then [es[0]] else []) + OfClass(es[1..], cls)
  }

  /** The announcements of one update: every new entity to the sensor
    * platforms, new ventilators and remotes to their platforms, new
    * systems and zones to climate, new stored hot water to water_heater. */
  function Announcements(added: Known): (r: seq<Action>)
    ensures r == [] <==> NothingNew(added)
  {
    var all := added.devices + added.systems + added.zones + added.dhws;
    AddTo(BinarySensorPlatform, all) + AddTo(SensorPlatform, all) +
    AddTo(ClimatePlatform, OfClass(added.devices, VentilatorDevice)) +
    AddTo(RemotePlatform, OfClass(added.devices, RemoteDevice)) +
    AddTo(ClimatePlatform, added.systems) + AddTo(ClimatePlatform, added.zones) +
    AddTo(WaterHeaterPlatform, added.dhws)
  }

  /** What one update asks for after the diff: the announcements, a state
    * save when anything is new, and the update signal to every entity. */
  function UpdateActions(added: Known, clientState: Value, remotes: map<string, map<string, string>>): (r: seq<Action>)
    ensures NothingNew(added) <==> r == [UpdateSignal]
    ensures |r| >= 1 && r[|r| - 1] == UpdateSignal
    ensures !NothingNew(added) ==> SaveState(clientState, remotes) in r
  {
    Announcements(added) + (if NothingNew(added) then [] else [SaveState(clientState, remotes)]) + [UpdateSignal]
  }

  // ---------------------------------------------------------------------
  // Device registry entries

  /** A device registry entry: the device's id (its identifier and serial
    * number), name, model and the device it hangs off. */
  datatype DeviceInfo = DeviceInfo(id: string, name: string, model: Option<string>, via: Option<string>)

  /** The name of a device: its own, else "Controller id" for a system,
    * else "SLUG id", else the bare id. */
  function DeviceName(e: Entity): (r: string)
    ensures e.name != "" ==> r == e.name
    ensures e.name == "" ==> |r| >= |e.id| && r[|r| - |e.id|..] == e.id
    ensures e.name == "" && e.cls == SystemEntity ==> r == "Controller " + e.id
    ensures e.name == "" && e.cls != SystemEntity && e.slug != "" ==> r == e.slug + " " + e.id
    ensures e.name == "" && e.cls != SystemEntity && e.slug == "" ==> r == e.id
  {
    if e.name != "" then e.name
    else if e.cls == SystemEntity then "Controller " + e.id
    else if e.slug != "" then e.slug + " " + e.id
    else e.id
  }

  /** The registry entry of an entity: the model is the product
    * description when the device reported product information, else its
    * slug; a zone hangs off its controller, any other child off its parent. */
  function InfoOf(e: Entity): (r: DeviceInfo)
    ensures r.id == e.id && r.name == DeviceName(e)
    ensures e.product.ProductInfo? ==> r.model == e.product.description
    ensures e.product.NoProductInfo? ==> r.model == Some(e.slug)
    ensures e.cls == ZoneEntity && e.tcs.Some? ==> r.via == e.tcs
    ensures r.via.Some? ==> r.via == e.parent || (e.cls == ZoneEntity && r.via == e.tcs)
  {
    var model := if e.product.ProductInfo? then e.product.description else Some(e.slug);
    var via := if e.cls == ZoneEntity && e.tcs.Some? then e.tcs else e.parent;
    DeviceInfo(e.id, DeviceName(e), model, via)
  }

  /** `_update_device` on one entity: the cache gets the entity's entry,
    * and the registry is written only when it differs from the cached one. */
  function RefreshOne(cache: map<string, DeviceInfo>, e: Entity): (r: (map<string, DeviceInfo>, seq<DeviceInfo>))
    ensures e.id in r.0 && r.0[e.id] == InfoOf(e)
    ensures forall k :: k in cache && k != e.id ==> k in r.0 && r.0[k] == cache[k]
    ensures r.1 == [] <==> e.id in cache && cache[e.id] == InfoOf(e)
    ensures r.1 != [] ==> r.1 == [InfoOf(e)]
  {
    if e.id in cache && cache[e.id] == InfoOf(e) then (cache, [])
    else (cache[e.id := InfoOf(e)], [InfoOf(e)])
  }

  /** The cache and the registry writes after `_update_device` on each of
    * the entities in turn. */
  function Refreshed(cache: map<string, DeviceInfo>, es: seq<Entity>): (r: (map<string, DeviceInfo>, seq<DeviceInfo>))
    ensures |r.1| <= |es|
    decreases |es|
  {
    if es == [] then (cache, [])
    else
      var first := RefreshOne(cache, es[0]);
      var rest := Refreshed(first.0, es[1..]);
      (rest.0, first.1 + rest.1)
  }

  /** Refreshing one more entity continues from where the others left off. */
  lemma {:induction false} RefreshedSnoc(cache: map<string, DeviceInfo>, es: seq<Entity>, e: Entity)
    ensures var r := Refreshed(cache, es); var last := RefreshOne(r.0, e);
      Refreshed(cache, es + [e]) == (last.0, r.1 + last.1)
    decreases |es|
  {
    if es == [] {
      var last := RefreshOne(cache, e);
      assert es + [e] == [e] && [e][1..] == [];
      assert Refreshed(cache, [e]) == (last.0, last.1 + []);
      assert last.1 + [] == [] + last.1;
    } else {
      var first := RefreshOne(cache, es[0]);
      assert (es + [e])[0] == es[0] && (es + [e])[1..] == es[1..] + [e];
      RefreshedSnoc(first.0, es[1..], e);
      var rest := Refreshed(first.0, es[1..]);
      var last := RefreshOne(rest.0, e);
      assert Refreshed(cache, es) == (rest.0, first.1 + rest.1);
      assert Refreshed(cache, es + [e]) == (last.0, first.1 + (rest.1 + last.1));
      assert first.1 + (rest.1 + last.1) == (first.1 + rest.1) + last.1;
    }
  }

  /** No two entities with the same id give different registry entries. */
  predicate ConsistentIds(es: seq<Entity>)
  {
    forall e, f :: e in es && f in es && e.id == f.id ==> InfoOf(e) == InfoOf(f)
  }

  /** An entry that every later entity with its id agrees with stays. */
  lemma {:induction false} RefreshedKeeps(cache: map<string, DeviceInfo>, es: seq<Entity>, k: string)
    requires k in cache
    requires forall e :: e in es && e.id == k ==> InfoOf(e) == cache[k]
    ensures k in Refreshed(cache, es).0 && Refreshed(cache, es).0[k] == cache[k]
    decreases |es|
  {
    if es != [] {
      var c := RefreshOne(cache, es[0]).0;
      assert forall e :: e in es[1..] ==> e in es;
      RefreshedKeeps(c, es[1..], k);
    }
  }

  /** After refreshing, an entity's entry is the cached one. */
  lemma {:induction false} RefreshedCaches(cache: map<string, DeviceInfo>, es: seq<Entity>, e: Entity)
    requires ConsistentIds(es) && e in es
    ensures e.id in Refreshed(cache, es).0 && Refreshed(cache, es).0[e.id] == InfoOf(e)
    decreases |es|
  {
    var c := RefreshOne(cache, es[0]).0;
    assert forall f :: f in es[1..] ==> f in es;
    if e == es[0] {
      RefreshedKeeps(c, es[1..], e.id);
    } else {
      assert e in es[1..];
      RefreshedCaches(c, es[1..], e);
    }
  }

  /** Entities whose entries are all cached write nothing. */
  lemma {:induction false} RefreshedNoop(cache: map<string, DeviceInfo>, es: seq<Entity>)
    requires forall e :: e in es ==> e.id in cache && cache[e.id] == InfoOf(e)
    ensures Refreshed(cache, es) == (cache, [])
    decreases |es|
  {
    if es != [] {
      assert es[0] in es;
      assert forall e :: e in es[1..] ==> e in es;
      RefreshedNoop(cache, es[1..]);
    }
  }

  /** Refreshing the same entities again writes nothing to the registry and
    * leaves the cache as it is. */
  lemma RefreshedAgain(cache: map<string, DeviceInfo>, es: seq<Entity>)
    requires ConsistentIds(es)
    ensures var c := Refreshed(cache, es).0; Refreshed(c, es) == (c, [])
  {
    forall e | e in es
      ensures e.id in Refreshed(cache, es).0 && Refreshed(cache, es).0[e.id] == InfoOf(e)
    {
      RefreshedCaches(cache, es, e);
    }
    RefreshedNoop(Refreshed(cache, es).0, es);
  }

  // ---------------------------------------------------------------------
  // Packets restored from storage

  /** A packet whose command code (characters 41 to 45 of its string form)
    * is 313F is not restored. */
  predicate CodeKept(pkt: string)
  {
    Slice(pkt, 41, 45) != "313F"
  }

  /** `cached_packets`: the stored packets whose timestamp lies within the
    * last day and whose code is not 313F.  The ISO 8601 parser is a
    * parameter; a timestamp it refuses raises ValueError. */
  function CachedPackets(packets: map<string, string>, now: int, parseIso: string -> Option<int>):
    (r: Result<map<string, string>>)
    ensures r.Err? <==> exists k :: k in packets && parseIso(k).None?
    ensures r.Err? ==> r.error == ValueError
    ensures r.Ok? ==> forall k :: k in r.value ==> k in packets && r.value[k] == packets[k]
    ensures r.Ok? ==> forall k :: k in r.value ==> parseIso(k).value > now - Day && CodeKept(r.value[k])
    ensures r.Ok? ==> forall k :: k in packets && parseIso(k).value > now - Day && CodeKept(packets[k]) ==> k in r.value
  {
    if exists k :: k in packets && parseIso(k).None? then Err(ValueError)
    else Ok(map k | k in packets && parseIso(k).value > now - Day && CodeKept(packets[k]) :: packets[k])
  }

  /** A packet string too short to hold a code is always restored, whatever
    * it is. */
  lemma ShortPacketKept(pkt: string)
    requires |pkt| < 44
    ensures CodeKept(pkt)
  {
    assert |Slice(pkt, 41, 45)| < 4;
  }

  /** Restoring is a filter: applied to its own result it changes nothing. */
  lemma CachedPacketsIdempotent(packets: map<string, string>, now: int, parseIso: string -> Option<int>)
    requires CachedPackets(packets, now, parseIso).Ok?
    ensures CachedPackets(CachedPackets(packets, now, parseIso).value, now, parseIso) == CachedPackets(packets, now, parseIso)
  {
    var c := CachedPackets(packets, now, parseIso).value;
    assert !exists k :: k in c && parseIso(k).None?;
    var again := CachedPackets(c, now, parseIso).value;
    assert again.Keys == c.Keys;
    assert again == c;
  }

  // ---------------------------------------------------------------------
  // Remote command tables

  /** The remotes table at setup: the stored tables, overridden per device
    * by the non-empty command tables of the known_list. */
  function RemotesAtSetup(stored: map<string, map<string, string>>, knownCommands: map<string, map<string, string>>):
    (r: map<string, map<string, string>>)
    ensures r.Keys == stored.Keys + set k | k in knownCommands && knownCommands[k] != map[]
    ensures forall k :: k in knownCommands && knownCommands[k] != map[] ==> r[k] == knownCommands[k]
    ensures forall k :: k in stored && (k !in knownCommands || knownCommands[k] == map[]) ==> r[k] == stored[k]
  {
    stored + map k | k in knownCommands && knownCommands[k] != map[] :: knownCommands[k]
  }

  /** The remotes table saved: the broker's tables, overridden per device by
    * the live tables of the remote entities. */
  function SavedRemotes(remotes: map<string, map<string, string>>, live: map<string, map<string, string>>):
    (r: map<string, map<string, string>>)
    ensures r.Keys == remotes.Keys + live.Keys
    ensures forall k :: k in live ==> r[k] == live[k]
    ensures forall k :: k in remotes && k !in live ==> r[k] == remotes[k]
  {
    remotes + live
  }

  /** After a save and a restart, a remote's learnt table comes back unless
    * the known_list has commands for it: those win again. */
  lemma SaveThenSetup(remotes: map<string, map<string, string>>, live: map<string, map<string, string>>,
                      knownCommands: map<string, map<string, string>>, k: string)
    requires k in live
    ensures var r := RemotesAtSetup(SavedRemotes(remotes, live), knownCommands);
      k in r && r[k] == if k in knownCommands && knownCommands[k] != map[] then knownCommands[k] else live[k]
  {
  }

  // ---------------------------------------------------------------------
  // Service calls

  /** Whether the gateway id is known (a non-empty string).  `hgiId` is
    * None when the client has no gateway (`client.hgi` is None), and
    * Some("") when the gateway has no id yet. */
  predicate HgiKnown(hgiId: Option<string>)
  {
    hgiId.Some? && hgiId.value != ""
  }

  /** Whether `async_send_packet` reads the gateway's id: for a packet
    * addressed to the sentinel and not sent from some other device. */
  predicate ToSentinel(p: ServiceSchemas.SendPacket)
  {
    p.deviceId == SentinelId && p.fromId.GetOr(SentinelId) == SentinelId
  }

  /** `async_send_packet`'s arguments: a packet addressed to the sentinel,
    * and not sent from some other device, goes to the gateway when its id
    * is known, and raises AttributeError when the client has no gateway;
    * nothing else changes. */
  function PacketArgs(p: ServiceSchemas.SendPacket, hgiId: Option<string>): (r: Result<ServiceSchemas.SendPacket>)
    ensures r.Err? <==> p.deviceId == SentinelId && p.fromId in {None, Some(SentinelId)} && hgiId.None?
    ensures r.Err? ==> r.error == AttributeError
    ensures r.Ok? ==> r.value.(deviceId := p.deviceId) == p
    ensures r.Ok? && r.value.deviceId != p.deviceId ==>
      p.deviceId == SentinelId && HgiKnown(hgiId) && r.value.deviceId == hgiId.value
    ensures p.deviceId == SentinelId && p.fromId in {None, Some(SentinelId)} && HgiKnown(hgiId) ==>
      r == Ok(p.(deviceId := hgiId.value))
    ensures p.deviceId != SentinelId || p.fromId !in {None, Some(SentinelId)} || (hgiId.Some? && !HgiKnown(hgiId)) ==>
      r == Ok(p)
  {
    if !ToSentinel(p) then Ok(p)
    else if hgiId.None? then Err(AttributeError)
    else if hgiId.value != "" then Ok(p.(deviceId := hgiId.value))
    else Ok(p)
  }

  /** The rewrite is done once: applying it to its own result changes
    * nothing, and an accepted packet stays acceptable when the gateway id
    * is a device id. */
  lemma PacketArgsStable(p: ServiceSchemas.SendPacket, hgiId: Option<string>)
    requires HgiKnown(hgiId) ==> Ids.IsDeviceId(hgiId.value)
    requires PacketArgs(p, hgiId).Ok?
    ensures PacketArgs(PacketArgs(p, hgiId).value, hgiId) == PacketArgs(p, hgiId)
    ensures ServiceSchemas.IsSendPacket(p) ==> ServiceSchemas.IsSendPacket(PacketArgs(p, hgiId).value)
  {
  }

  function Codes(bs: seq<ServiceSchemas.Binding>): (r: seq<string>)
    ensures |r| == |bs| && forall i :: 0 <= i < |bs| ==> r[i] == bs[i].code
  {
    if bs == [] then [] else [bs[0].code] + Codes(bs[1..])
  }

  /** `async_bind_device`'s request: the offer's and confirm's codes, in
    * order, and a ratify command only when device_info is given. */
  function BindArgs(b: ServiceSchemas.BindDevice): (r: BindRequest)
    ensures r.deviceId == b.deviceId
    ensures r.offerCodes == Codes(b.offer) && r.confirmCodes == Codes(b.confirm)
    ensures r.ratify.Some? <==> b.deviceInfo.Some? && b.deviceInfo.value != ""
    ensures r.ratify.Some? ==> r.ratify == b.deviceInfo
  {
    BindRequest(b.deviceId, Codes(b.offer), Codes(b.confirm),
      if b.deviceInfo.Some? && b.deviceInfo.value != "" then b.deviceInfo else None)
  }

  /** The codes passed to the binding are the keys of the dicts the caller
    * wrote. */
  lemma {:induction false} BindArgsAreCallKeys(b: ServiceSchemas.BindDevice)
    ensures BindArgs(b).offerCodes == Keys(ServiceSchemas.BindingEntries(b.offer))
    ensures BindArgs(b).confirmCodes == Keys(ServiceSchemas.BindingEntries(b.confirm))
  {
    CodesAreKeys(b.offer);
    CodesAreKeys(b.confirm);
  }

  lemma CodesAreKeys(bs: seq<ServiceSchemas.Binding>)
    ensures Codes(bs) == Keys(ServiceSchemas.BindingEntries(bs))
  {
    var es := ServiceSchemas.BindingEntries(bs);
    assert forall i :: 0 <= i < |bs| ==> Keys(es)[i] == es[i].key == bs[i].code;
  }

  // ---------------------------------------------------------------------
  // The broker

  class RamsesBroker {
    /** The command tables of the remotes, by device id. */
    var remotes: map<string, map<string, string>>
    /** The device whose commands are being learnt, if any. */
    var learnDeviceId: Option<string>
    /** The entities announced so far. */
    var known: Known
    /** The registry entry last written for each device id. */
    var deviceInfo: map<string, DeviceInfo>
    /** The registry entries written, oldest first. */
    var registry: seq<DeviceInfo>
    /** The gateway's id: None when the client has no gateway. */
    var hgiId: Option<string>
    /** The actions asked of the client, the platforms and the store. */
    var actions: seq<Action>

    constructor (hgiId: Option<string>)
      ensures remotes == map[] && learnDeviceId.None? && known == Known([], [], [], [])
      ensures deviceInfo == map[] && registry == [] && this.hgiId == hgiId && actions == []
    {
      remotes := map[];
      learnDeviceId := None;
      known := Known([], [], [], []);
      deviceInfo := map[];
      registry := [];
      this.hgiId := hgiId;
      actions := [];
    }

    /** The remotes part of `async_setup`. */
    method LoadRemotes(stored: map<string, map<string, string>>, knownCommands: map<string, map<string, string>>)
      modifies this`remotes
      ensures remotes == RemotesAtSetup(stored, knownCommands)
    {
      remotes := stored + map k | k in knownCommands && knownCommands[k] != map[] :: knownCommands[k];
    }

    /** `async_save_client_state`: the client's state and the remotes, with
      * the live tables of the remote entities winning. */
    method SaveClientState(clientState: Value, live: map<string, map<string, string>>)
      modifies this`actions
      ensures actions == old(actions) + [SaveState(clientState, SavedRemotes(remotes, live))]
    {
      actions := actions + [SaveState(clientState, remotes + live)];
    }

    /** `_update_device`: the registry is written only when the entry
      * differs from the cached one. */
    method UpdateDevice(e: Entity)
      modifies this`deviceInfo, this`registry
      ensures deviceInfo == RefreshOne(old(deviceInfo), e).0
      ensures registry == old(registry) + RefreshOne(old(deviceInfo), e).1
    {
      var info := InfoOf(e);
      if e.id in deviceInfo && deviceInfo[e.id] == info {
        return;
      }
      deviceInfo := deviceInfo[e.id := info];
      registry := registry + [info];
    }

    /** The registry refresh of `async_update`, entity by entity. */
    method UpdateDevices(es: seq<Entity>)
      modifies this`deviceInfo, this`registry
      ensures deviceInfo == Refreshed(old(deviceInfo), es).0
      ensures registry == old(registry) + Refreshed(old(deviceInfo), es).1
    {
      ghost var cache0, registry0 := deviceInfo, registry;
      var i := 0;
      assert es[..0] == [];
      while i < |es|
        invariant 0 <= i <= |es|
        invariant deviceInfo == Refreshed(cache0, es[..i]).0
        invariant registry == registry0 + Refreshed(cache0, es[..i]).1
      {
        RefreshedSnoc(cache0, es[..i], es[i]);
        assert es[..i + 1] == es[..i] + [es[i]];
        UpdateDevice(es[i]);
        i := i + 1;
      }
      assert es[..i] == es;
    }

    /** `async_update`: diff the client's lists, refresh every registry
      * entry, announce the new entities, save the state when there are
      * any, and signal an update. */
    method Update(systems: seq<ClientSystem>, devices: seq<Entity>, clientState: Value, live: map<string, map<string, string>>)
      modifies this`known, this`deviceInfo, this`registry, this`actions
      ensures known == Discover(old(known), systems, devices).0
      ensures actions == old(actions) + UpdateActions(Discover(old(known), systems, devices).1, clientState, SavedRemotes(remotes, live))
      ensures var k := Discover(old(known), systems, devices).0;
        (deviceInfo, registry) == (Refreshed(old(deviceInfo), k.devices + k.systems + k.zones + k.dhws).0,
                                   old(registry) + Refreshed(old(deviceInfo), k.devices + k.systems + k.zones + k.dhws).1)
    {
      var d := Discover(known, systems, devices);
      known := d.0;
      UpdateDevices(known.devices + known.systems + known.zones + known.dhws);
      actions := actions + UpdateActions(d.1, clientState, SavedRemotes(remotes, live));
    }

    /** `async_bind_device`: a device the client cannot fake is only
      * logged; otherwise the binding starts and an update is scheduled. */
    method BindDevice(b: ServiceSchemas.BindDevice, fakeable: bool)
      modifies this`actions
      ensures !fakeable ==> actions == old(actions)
      ensures fakeable ==> actions == old(actions) + [StartBinding(BindArgs(b)), ScheduleUpdate]
    {
      if !fakeable {
        return;
      }
      var ratify := if b.deviceInfo.Some? && b.deviceInfo.value != "" then b.deviceInfo else None;
      actions := actions + [StartBinding(BindRequest(b.deviceId, Codes(b.offer), Codes(b.confirm), ratify)), ScheduleUpdate];
    }

    /** `async_send_packet`: nothing is sent and no update scheduled when
      * reading the gateway's id raises. */
    method SendPacket(p: ServiceSchemas.SendPacket) returns (r: Result<()>)
      modifies this`actions
      ensures r.Err? <==> PacketArgs(p, hgiId).Err?
      ensures r.Err? ==> r.error == AttributeError && actions == old(actions)
      ensures r.Ok? ==> actions == old(actions) + [SendCommand(PacketArgs(p, hgiId).value), ScheduleUpdate]
    {
      var args := p;
      if ToSentinel(p) {
        if hgiId.None? {
          return Err(AttributeError);
        }
        if hgiId.value != "" {
          args := args.(deviceId := hgiId.value);
        }
      }
      actions := actions + [SendCommand(args), ScheduleUpdate];
      return Ok(());
    }
  }

  /** A second update against unchanged client lists announces nothing,
    * saves nothing and writes nothing to the registry. */
  lemma UpdateAgainQuiet(known: Known, cache: map<string, DeviceInfo>, systems: seq<ClientSystem>, devices: seq<Entity>)
    requires ClientListsUnique(systems, devices)
    requires var k := Discover(known, systems, devices).0; ConsistentIds(k.devices + k.systems + k.zones + k.dhws)
    ensures var k := Discover(known, systems, devices).0;
      var all := k.devices + k.systems + k.zones + k.dhws;
      var added := Discover(k, systems, devices).1;
      NothingNew(added) && Announcements(added) == [] && Refreshed(Refreshed(cache, all).0, all).1 == []
  {
    DiscoverAgain(known, systems, devices);
    var k := Discover(known, systems, devices).0;
    var all := k.devices + k.systems + k.zones + k.dhws;
    RefreshedAgain(cache, all);
  }
}
