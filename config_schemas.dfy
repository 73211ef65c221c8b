// The integration's configuration helpers (custom_components/ramses_cc/schemas.py):
// splitting the validated configuration into what the RF library and what
// the broker receive, choosing between a configured and a cached system
// schema, and deciding whether a schema is the minimal one.
//
// `shrink`, `is_subset`, `deep_merge` and `extract_serial_port` belong to
// the RF library; they are parameters here.

module ConfigSchemas {
  import opened Outcomes
  import opened PyValues
  import opened Ids

  // ---------------------------------------------------------------------
  // normalise_config

  /** The keys the broker keeps for itself. */
  const BrokerKeys: set<string> := {"scan_interval", "advanced_features", "restore_cache"}

  /** `{k: v for k, v in d.items() if (k in ks) == keep}` */
  function KeepKeys(es: seq<Entry>, ks: set<string>, keep: bool): (r: seq<Entry>)
    ensures forall k :: Lookup(r, k) == if (k in ks) == keep then Lookup(es, k) else None
  {
    if es == [] then []
    else
      HasKeyCons(es);
      var rest := KeepKeys(es[1..], ks, keep);
      if (es[0].key in ks) == keep then
        ConsEntry(es[0], rest);
        [es[0]] + rest
      else rest
  }

  /** Every known_list entry is a dict (`v.get` is called on each). */
  predicate AllDicts(known: seq<Entry>)
  {
    forall i :: 0 <= i < |known| ==> known[i].val.Dict?
  }

  /** `v.get("commands")` when it is truthy. */
  function CommandsOf(v: Value): (r: Option<Value>)
    requires v.Dict?
    ensures r.Some? <==> Truthy(Lookup(v.entries, "commands").GetOr(Nil))
    ensures r.Some? ==> r == Lookup(v.entries, "commands")
  {
    var c := Lookup(v.entries, "commands").GetOr(Nil);
    if Truthy(c) then Some(c) else None
  }

  /** The entry after the comprehension: truthy commands popped out of it. */
  function WithoutCommands(v: Value): (r: Value)
    requires v.Dict?
    ensures r.Dict? && forall j :: j != "commands" ==> Lookup(r.entries, j) == Lookup(v.entries, j)
    ensures CommandsOf(v).Some? ==> !HasKey(r.entries, "commands")
    ensures CommandsOf(v).None? ==> r == v
  {
    if CommandsOf(v).Some? then Dict(Remove(v.entries, "commands")) else v
  }

  /** The remotes dict and the stripped known_list after the comprehension
    * has visited every entry of `known`, in order. */
  function SplitRemotes(known: seq<Entry>): (r: (seq<Entry>, seq<Entry>))
    requires AllDicts(known)
    ensures |r.1| == |known| && forall i :: 0 <= i < |known| ==>
      r.1[i] == Entry(known[i].key, WithoutCommands(known[i].val))
  {
    if known == [] then ([], [])
    else
      var init := known[..|known| - 1];
      var e := known[|known| - 1];
      var prev := SplitRemotes(init);
      var c := CommandsOf(e.val);
      var remotes := if c.Some? then Assign(prev.0, e.key, c.value) else prev.0;
      (remotes, prev.1 + [Entry(e.key, WithoutCommands(e.val))])
  }

  /** Exactly the devices with truthy commands have remotes. */
  lemma {:induction false} SplitRemotesKeys(known: seq<Entry>)
    requires AllDicts(known)
    ensures forall k :: HasKey(SplitRemotes(known).0, k) <==>
      exists i :: 0 <= i < |known| && known[i].key == k && CommandsOf(known[i].val).Some?
  {
    if known != [] {
      var init := known[..|known| - 1];
      var e := known[|known| - 1];
      SplitRemotesKeys(init);
      assert forall i :: 0 <= i < |init| ==> known[i] == init[i];
      var prev := SplitRemotes(init).0;
      assert forall k :: HasKey(SplitRemotes(known).0, k) <==> HasKey(prev, k) || (k == e.key && CommandsOf(e.val).Some?);
    }
  }

  /** In a dict (no key twice), each device with truthy commands is found
    * in the remotes dict under its own id with those commands. */
  lemma {:induction false} SplitRemotesLookup(known: seq<Entry>)
    requires UniqueKeys(known) && AllDicts(known)
    ensures forall i :: 0 <= i < |known| ==> Lookup(SplitRemotes(known).0, known[i].key) == CommandsOf(known[i].val)
  {
    if known != [] {
      var init := known[..|known| - 1];
      assert UniqueKeys(init);
      SplitRemotesLookup(init);
      var e := known[|known| - 1];
      forall i | 0 <= i < |known|
        ensures Lookup(SplitRemotes(known).0, known[i].key) == CommandsOf(known[i].val)
      {
        if i < |known| - 1 {
          assert known[i] == init[i] && known[i].key != e.key;
        } else if CommandsOf(e.val).None? {
          LastKeyAbsent(known);
        }
      }
    }
  }

  /** The last device of a dict has no remote from the devices before it. */
  lemma LastKeyAbsent(known: seq<Entry>)
    requires UniqueKeys(known) && AllDicts(known) && known != []
    ensures !HasKey(SplitRemotes(known[..|known| - 1]).0, known[|known| - 1].key)
  {
    var init := known[..|known| - 1];
    SplitRemotesKeys(init);
    forall j | 0 <= j < |init|
      ensures init[j].key != known[|known| - 1].key
    {
      assert known[j] == init[j];
    }
  }

  /** The comprehension over known_list: each entry must be a dict. */
  method CollectRemotes(known: seq<Entry>) returns (r: Result<(seq<Entry>, seq<Entry>)>)
    ensures r.Ok? <==> AllDicts(known)
    ensures r.Ok? ==> r.value == SplitRemotes(known)
    ensures r.Err? ==> r.error == AttributeError
  {
    var remotes, stripped := [], [];
    var i := 0;
    while i < |known|
      invariant 0 <= i <= |known|
      invariant AllDicts(known[..i]) && SplitRemotes(known[..i]) == (remotes, stripped)
    {
      assert known[..i + 1][..i] == known[..i];
      var v := known[i].val;
      if !v.Dict? {
        return Err(AttributeError);
      }
      var c := CommandsOf(v);
      if c.Some? {
        remotes := Assign(remotes, known[i].key, c.value);
      }
      stripped := stripped + [Entry(known[i].key, WithoutCommands(v))];
      i := i + 1;
      assert AllDicts(known[..i]);
    }
    assert known[..i] == known;
    return Ok((remotes, stripped));
  }

  /** The configuration once `ramses_rf` is renamed to `config` and the
    * serial port is popped. */
  function Detached(config: seq<Entry>): (r: seq<Entry>)
    requires HasKey(config, "ramses_rf")
    ensures Lookup(r, "config") == Lookup(config, "ramses_rf")
    ensures !HasKey(r, "ramses_rf") && !HasKey(r, "serial_port")
    ensures forall k :: k !in {"ramses_rf", "serial_port", "config"} ==> Lookup(r, k) == Lookup(config, k)
  {
    Remove(Assign(Remove(config, "ramses_rf"), "config", Lookup(config, "ramses_rf").value), "serial_port")
  }

  /** The client's configuration: every key but the broker's, the stripped
    * known_list, and the port settings. */
  function ClientOf(cfg: seq<Entry>, portConfig: Value, stripped: seq<Entry>): seq<Entry>
  {
    Assign(KeepKeys(Assign(cfg, "known_list", Dict(stripped)), BrokerKeys, false), "port_config", portConfig)
  }

  /** The broker's configuration: its own keys and the remotes. */
  function BrokerOf(cfg: seq<Entry>, remotes: seq<Entry>): seq<Entry>
  {
    Assign(KeepKeys(cfg, BrokerKeys, true), "remotes", Dict(remotes))
  }

  /** `config["config"] = config.pop("ramses_rf")`, then the serial port
    * popped and split into its name and settings. */
  method DetachPort(config: seq<Entry>, extract: Value -> Result<(string, Value)>)
    returns (r: Result<(seq<Entry>, string, Value)>)
    ensures !HasKey(config, "ramses_rf") || !HasKey(config, "serial_port") ==> r == Err(KeyError)
    ensures HasKey(config, "ramses_rf") && HasKey(config, "serial_port") ==>
      (r.Ok? <==> extract(Lookup(config, "serial_port").value).Ok?)
    ensures r.Ok? ==>
      (r.value.1, r.value.2) == extract(Lookup(config, "serial_port").value).value &&
      r.value.0 == Detached(config)
  {
    var cfg := config;
    if !HasKey(cfg, "ramses_rf") {
      return Err(KeyError);
    }
    var rf := Lookup(cfg, "ramses_rf").value;
    cfg := Remove(cfg, "ramses_rf");
    cfg := Assign(cfg, "config", rf);
    if !HasKey(cfg, "serial_port") {
      return Err(KeyError);
    }
    var serialPort := Lookup(cfg, "serial_port").value;
    cfg := Remove(cfg, "serial_port");
    var extracted := extract(serialPort);
    if extracted.Err? {
      return Err(extracted.error);
    }
    return Ok((cfg, extracted.value.0, extracted.value.1));
  }

  datatype Normalised = Normalised(portName: string, client: seq<Entry>, broker: seq<Entry>)

  /** The known_list of a configuration, as a dict of dicts. */
  predicate HasKnownDicts(config: seq<Entry>)
  {
    Lookup(config, "known_list").Some? && Lookup(config, "known_list").value.Dict? &&
    AllDicts(Lookup(config, "known_list").value.entries)
  }

  /** `normalise_config`: the serial port's name, the client configuration
    * and the broker configuration.  The caller's dict is copied first, so
    * it is not changed. */
  method NormaliseConfig(config: seq<Entry>, extract: Value -> Result<(string, Value)>) returns (r: Result<Normalised>)
    ensures !HasKey(config, "ramses_rf") || !HasKey(config, "serial_port") ==> r == Err(KeyError)
    ensures r.Ok? <==>
      HasKey(config, "ramses_rf") && HasKey(config, "serial_port") &&
      extract(Lookup(config, "serial_port").value).Ok? && HasKnownDicts(config)
    ensures r.Ok? ==>
      var split := SplitRemotes(Lookup(config, "known_list").value.entries);
      var port := extract(Lookup(config, "serial_port").value).value;
      r.value == Normalised(port.0, ClientOf(Detached(config), port.1, split.1), BrokerOf(Detached(config), split.0))
  {
    var detached := DetachPort(config, extract);
    if detached.Err? {
      return Err(detached.error);
    }
    var cfg, portName, portConfig := detached.value.0, detached.value.1, detached.value.2;
    var knownIn := Lookup(cfg, "known_list");
    assert "known_list" !in {"ramses_rf", "serial_port", "config"};
    assert knownIn == Lookup(config, "known_list");
    if knownIn.None? {
      return Err(KeyError);
    }
    if !knownIn.value.Dict? {
      return Err(AttributeError);
    }
    var collected := CollectRemotes(knownIn.value.entries);
    if collected.Err? {
      return Err(collected.error);
    }
    var remotes, stripped := collected.value.0, collected.value.1;
    var cfg' := Assign(cfg, "known_list", Dict(stripped));
    var client := Assign(KeepKeys(cfg', BrokerKeys, false), "port_config", portConfig);
    var broker := Assign(KeepKeys(cfg', BrokerKeys, true), "remotes", Dict(remotes));
    KnownListIsClientKey();
    KeepKeysIgnores(cfg, "known_list", Dict(stripped), BrokerKeys);
    return Ok(Normalised(portName, client, broker));
  }

  lemma KnownListIsClientKey()
    ensures "known_list" !in BrokerKeys
  {
  }

  /** Replacing the value of a key the filter drops changes nothing. */
  lemma {:induction false} KeepKeysIgnores(es: seq<Entry>, k: string, v: Value, ks: set<string>)
    requires k !in ks
    ensures KeepKeys(Assign(es, k, v), ks, true) == KeepKeys(es, ks, true)
  {
    if es != [] {
      KeepKeysIgnores(es[1..], k, v, ks);
      if es[0].key != k {
        assert Assign(es, k, v) == [es[0]] + Assign(es[1..], k, v);
        assert ([es[0]] + Assign(es[1..], k, v))[1..] == Assign(es[1..], k, v);
      } else {
        assert Assign(es, k, v) == [Entry(k, v)] + es[1..];
        assert ([Entry(k, v)] + es[1..])[1..] == es[1..];
      }
    }
  }

  /** What the client configuration holds under each key: the port
    * settings under `port_config`, the stripped known_list, `ramses_rf`
    * under its new name `config`, none of the broker's keys, no serial port,
    * and everything else as given. */
  lemma ClientConfig(config: seq<Entry>, portConfig: Value, stripped: seq<Entry>, k: string)
    requires HasKey(config, "ramses_rf")
    ensures Lookup(ClientOf(Detached(config), portConfig, stripped), k) ==
      if k == "port_config" then Some(portConfig)
      else if k in BrokerKeys then None
      else if k == "known_list" then Some(Dict(stripped))
      else if k == "config" then Lookup(config, "ramses_rf")
      else if k == "ramses_rf" || k == "serial_port" then None
      else Lookup(config, k)
  {
    var cfg := Detached(config);
    var withKnown := Assign(cfg, "known_list", Dict(stripped));
    var kept := KeepKeys(withKnown, BrokerKeys, false);
    assert Lookup(ClientOf(cfg, portConfig, stripped), k) == if k == "port_config" then Some(portConfig) else Lookup(kept, k);
    if k != "port_config" && k !in BrokerKeys {
      assert Lookup(kept, k) == Lookup(withKnown, k);
      if k != "known_list" {
        assert Lookup(withKnown, k) == Lookup(cfg, k);
      }
    }
  }

  /** What the broker configuration holds under each key: the remotes, its
    * own keys as given, and nothing else. */
  lemma BrokerConfig(config: seq<Entry>, remotes: seq<Entry>, k: string)
    requires HasKey(config, "ramses_rf")
    ensures Lookup(BrokerOf(Detached(config), remotes), k) ==
      if k == "remotes" then Some(Dict(remotes))
      else if k in BrokerKeys then Lookup(config, k)
      else None
  {
    if k != "remotes" {
      BrokerKeyLookup(Detached(config), remotes, k);
      if k in BrokerKeys {
        DetachedKeepsBrokerKey(config, k);
      }
    }
  }

  lemma BrokerKeyLookup(cfg: seq<Entry>, remotes: seq<Entry>, k: string)
    requires k != "remotes"
    ensures Lookup(BrokerOf(cfg, remotes), k) == if k in BrokerKeys then Lookup(cfg, k) else None
  {
    assert Lookup(BrokerOf(cfg, remotes), k) == Lookup(KeepKeys(cfg, BrokerKeys, true), k);
  }

  lemma DetachedKeepsBrokerKey(config: seq<Entry>, k: string)
    requires HasKey(config, "ramses_rf") && k in BrokerKeys
    ensures Lookup(Detached(config), k) == Lookup(config, k)
  {
    assert k != "ramses_rf" && k != "serial_port" && k != "config";
  }

  // ---------------------------------------------------------------------
  // merge_schemas

  /** `merge_schemas`: the cached schema when it already holds the
    * configured one; else the configured schema deep-merged into the cached
    * one, when that holds it; else nothing.  Whatever is returned holds
    * the configured schema (compared after shrinking). */
  function MergeSchemas(config: Value, cached: Value, shrink: Value -> Value,
                        isSubset: (Value, Value) -> bool, deepMerge: (Value, Value) -> Value): (r: Option<Value>)
    ensures r.Some? ==> isSubset(shrink(config), shrink(r.value))
    ensures r.Some? ==> r.value == cached || r.value == deepMerge(config, cached)
    ensures isSubset(shrink(config), shrink(cached)) ==> r == Some(cached)
    ensures r.None? <==>
      !isSubset(shrink(config), shrink(cached)) && !isSubset(shrink(config), shrink(deepMerge(config, cached)))
  {
    if isSubset(shrink(config), shrink(cached)) then Some(cached)
    else
      var merged := deepMerge(config, cached);
      if isSubset(shrink(config), shrink(merged)) then Some(merged) else None
  }

  // ---------------------------------------------------------------------
  // schema_is_minimal

  /** The top-level keys that are not systems. */
  const NonSystemKeys: set<string> := {"block_list", "known_list", "orphans_heat", "orphans_hvac"}

  /** `^TT:[0-9]{6}$`: a device id of the given two-digit type. */
  predicate IsDeviceOfType(v: Value, kind: string)
  {
    v.Str? && IsDeviceId(v.s) && v.s[..2] == kind
  }

  /** Every key of the dict is one of `allowed`. */
  predicate KeysWithin(es: seq<Entry>, allowed: set<string>)
  {
    forall i :: 0 <= i < |es| ==> es[i].key in allowed
  }

  /** `{Required("sensor"): ^01:[0-9]{6}$}`, nothing else. */
  predicate IsMinimalZone(v: Value)
  {
    v.Dict? && KeysWithin(v.entries, {"sensor"}) && HasKey(v.entries, "sensor") &&
    IsDeviceOfType(Lookup(v.entries, "sensor").value, "01")
  }

  /** `SCH_MINIMUM_TCS`: at most a `system` holding only an appliance
    * controller `10:...`, and `zones` (default `{}`), a non-empty dict of
    * zones each holding only a sensor `01:...`; nothing else. */
  predicate IsMinimumTcs(v: Value)
  {
    v.Dict? && KeysWithin(v.entries, {"system", "zones"}) &&
    (HasKey(v.entries, "system") ==>
       var sys := Lookup(v.entries, "system").value;
       sys.Dict? && KeysWithin(sys.entries, {"appliance_control"}) && HasKey(sys.entries, "appliance_control") &&
       IsDeviceOfType(Lookup(sys.entries, "appliance_control").value, "10")) &&
    var zones := Lookup(v.entries, "zones").GetOr(EmptyDict);
    zones.Dict? && zones.entries != [] &&
    forall i :: 0 <= i < |zones.entries| ==> IsMinimalZone(zones.entries[i].val)
  }

  /** `list(sch["zones"].values())[0]["sensor"] != key`, for a `sch` that
    * holds "zones". */
  function FirstSensorDiffers(sch: Value, key: string): (r: Result<bool>)
    ensures r == Ok(false) ==>
              GetItem(sch, "zones").Ok? && GetItem(sch, "zones").value.Dict? && GetItem(sch, "zones").value.entries != [] &&
              GetItem(GetItem(sch, "zones").value.entries[0].val, "sensor") == Ok(Str(key))
  {
    var zones := GetItem(sch, "zones");
    if zones.Err? then Err(zones.error)
    else if !zones.value.Dict? then Err(AttributeError)
    else if zones.value.entries == [] then Err(IndexError)
    else
      var sensor := GetItem(zones.value.entries[0].val, "sensor");
      if sensor.Err? then Err(sensor.error) else Ok(sensor.value != Str(key))
  }

  /** What one entry of the schema contributes: `None` to go on, `Some(false)`
    * to stop with false, or the error raised. */
  function CheckSystem(key: string, sch: Value, shrink: Value -> Value): (r: Result<Option<bool>>)
    ensures r.Ok? && r.value.Some? ==> r.value == Some(false)
    ensures key in NonSystemKeys ==> r == Ok(None)
    ensures key !in NonSystemKeys && !IsMinimumTcs(shrink(sch)) ==> r == Ok(Some(false))
    ensures r == Ok(None) && key !in NonSystemKeys ==>
              IsMinimumTcs(shrink(sch)) && (ContainsKey(sch, "zones") == Ok(true) ==> FirstSensorDiffers(sch, key) == Ok(false))
  {
    if key in NonSystemKeys then Ok(None)
    else if !IsMinimumTcs(shrink(sch)) then Ok(Some(false))
    else
      var hasZones := ContainsKey(sch, "zones");
      if hasZones.Err? then Err(hasZones.error)
      else if !hasZones.value then Ok(None)
      else
        var differs := FirstSensorDiffers(sch, key);
        if differs.Err? then Err(differs.error)
        else if differs.value then Ok(Some(false)) else Ok(None)
  }

  /** The verdict on a schema's entries, visited in order. */
  function MinimalFrom(es: seq<Entry>, shrink: Value -> Value): (r: Result<bool>)
  {
    if es == [] then Ok(true)
    else
      var c := CheckSystem(es[0].key, es[0].val, shrink);
      if c.Err? then Err(c.error)
      else if c.value.Some? then Ok(false)
      else MinimalFrom(es[1..], shrink)
  }

  /** `schema_is_minimal`: a loop over the schema's entries that stops at
    * the first system that is not minimal. */
  method SchemaIsMinimal(schema: seq<Entry>, shrink: Value -> Value) returns (r: Result<bool>)
    ensures r == MinimalFrom(schema, shrink)
  {
    var i := 0;
    while i < |schema|
      invariant 0 <= i <= |schema|
      invariant MinimalFrom(schema, shrink) == MinimalFrom(schema[i..], shrink)
    {
      assert schema[i..][1..] == schema[i + 1..];
      var c := CheckSystem(schema[i].key, schema[i].val, shrink);
      if c.Err? {
        return Err(c.error);
      }
      if c.value.Some? {
        return Ok(false);
      }
      i := i + 1;
    }
    return Ok(true);
  }

  /** A schema is minimal exactly when every system in it passes
    * `SCH_MINIMUM_TCS` and its first zone's sensor is the system's own id;
    * the other keys do not matter, and an empty schema is minimal. */
  lemma {:induction false} MinimalMeaning(es: seq<Entry>, shrink: Value -> Value)
    requires MinimalFrom(es, shrink).Ok?
    ensures MinimalFrom(es, shrink).value <==>
      forall i :: 0 <= i < |es| ==> CheckSystem(es[i].key, es[i].val, shrink) == Ok(None)
  {
    if es != [] {
      if CheckSystem(es[0].key, es[0].val, shrink) == Ok(None) {
        MinimalMeaning(es[1..], shrink);
        assert forall i :: 1 <= i < |es| ==> es[i] == es[1..][i - 1];
      }
    }
  }

  /** The non-system keys are skipped, wherever they are. */
  lemma {:induction false} MinimalIgnoresNonSystems(es: seq<Entry>, shrink: Value -> Value)
    ensures MinimalFrom(es, shrink) == MinimalFrom(KeepKeys(es, NonSystemKeys, false), shrink)
  {
    if es != [] {
      MinimalIgnoresNonSystems(es[1..], shrink);
      var rest := KeepKeys(es[1..], NonSystemKeys, false);
      if es[0].key !in NonSystemKeys {
        assert KeepKeys(es, NonSystemKeys, false) == [es[0]] + rest;
        assert ([es[0]] + rest)[1..] == rest;
      }
    }
  }

  /** A system that fails `SCH_MINIMUM_TCS` before any other verdict makes
    * the schema not minimal. */
  lemma FailingSystemNotMinimal(es: seq<Entry>, shrink: Value -> Value)
    requires es != [] && es[0].key !in NonSystemKeys && !IsMinimumTcs(shrink(es[0].val))
    ensures MinimalFrom(es, shrink) == Ok(false)
  {
  }
}
