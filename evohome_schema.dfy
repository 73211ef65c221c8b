// The configuration and service schemas of the earlier evohome_cc
// integration (custom_components/evohome_cc/schema.py).  The configuration
// dict is rewritten in place into the form the client library expects; it
// is modelled as an object holding the dict.

module EvohomeSchema {
  import opened Outcomes
  import opened PyValues
  import opened Ids
  import opened Modes
  import opened ServiceSchemas

  // ---------------------------------------------------------------------
  // PACKET_LOG_SCHEMA

  datatype PacketLog = PacketLog(fileName: string, rotateBytes: Option<int>, rotateCount: int)

  /** `int` as a voluptuous type check: a bool is an int in Python. */
  predicate IsPyInt(v: Value)
  {
    v.Int? || v.Bool?
  }

  /** `PACKET_LOG_SCHEMA`: a file name (required), `rotate_bytes` that is
    * `None` (the default) or an int, and `rotate_count` an int of 0 to 7
    * (default 7); nothing else. */
  function ValidatePacketLog(es: seq<Entry>): (r: Result<PacketLog>)
    ensures r.Ok? ==>
      Lookup(es, "file_name") == Some(Str(r.value.fileName)) &&
      0 <= r.value.rotateCount <= 7 &&
      (r.value.rotateBytes.None? <==> Lookup(es, "rotate_bytes").GetOr(Nil) == Nil)
    ensures r.Ok? ==> forall i :: 0 <= i < |es| ==> es[i].key in {"file_name", "rotate_bytes", "rotate_count"}
    ensures !HasKey(es, "file_name") ==> r == Err(Invalid)
    ensures r.Ok? <==>
      (forall i :: 0 <= i < |es| ==> es[i].key in {"file_name", "rotate_bytes", "rotate_count"}) &&
      HasKey(es, "file_name") && Lookup(es, "file_name").value.Str? &&
      (!HasKey(es, "rotate_bytes") || Lookup(es, "rotate_bytes").value.Nil? || IsPyInt(Lookup(es, "rotate_bytes").value)) &&
      (!HasKey(es, "rotate_count") ||
        (IsPyInt(Lookup(es, "rotate_count").value) && 0 <= NumberOf(Lookup(es, "rotate_count").value) <= 7))
    ensures r.Ok? ==>
      r.value.rotateCount == (if HasKey(es, "rotate_count") then NumberOf(Lookup(es, "rotate_count").value) else 7) &&
      r.value.rotateBytes ==
        (if !HasKey(es, "rotate_bytes") || Lookup(es, "rotate_bytes").value.Nil? then None
         else Some(NumberOf(Lookup(es, "rotate_bytes").value)))
  {
    var name := Lookup(es, "file_name");
    var bytes := Lookup(es, "rotate_bytes").GetOr(Nil);
    var count := Lookup(es, "rotate_count").GetOr(Int(7));
    if !(forall i :: 0 <= i < |es| ==> es[i].key in {"file_name", "rotate_bytes", "rotate_count"}) then Err(Invalid)
    else if name.None? || !name.value.Str? then Err(Invalid)
    else if !(bytes.Nil? || IsPyInt(bytes)) then Err(Invalid)
    else if !IsPyInt(count) || !(0 <= NumberOf(count) <= 7) then Err(Invalid)
    else Ok(PacketLog(name.value.s, if bytes.Nil? then None else Some(NumberOf(bytes)), NumberOf(count)))
  }

  /** A validated packet log as the dict the library receives. */
  function PacketLogDict(p: PacketLog): Value
  {
    Dict([Entry("file_name", Str(p.fileName)),
          Entry("rotate_bytes", if p.rotateBytes.Some? then Int(p.rotateBytes.value) else Nil),
          Entry("rotate_count", Int(p.rotateCount))])
  }

  /** A bare file name gets the defaults: no size limit, seven backups. */
  lemma PacketLogFromName(name: string)
    ensures ValidatePacketLog([Entry("file_name", Str(name))]) == Ok(PacketLog(name, None, 7))
  {
    ConsEntry(Entry("file_name", Str(name)), []);
    assert [Entry("file_name", Str(name))] == [Entry("file_name", Str(name))] + [];
  }

  // ---------------------------------------------------------------------
  // normalise_config_schema, one statement group at a time.  Each stage
  // returns the outcome and the dict as it stands afterwards: a stage that
  // raises may already have changed the dict.

  /** `config["config"]` exists and is a dict. */
  predicate ConfigIsDict(es: seq<Entry>)
  {
    Lookup(es, "config").Some? && Lookup(es, "config").value.Dict?
  }

  function ConfigOf(es: seq<Entry>): seq<Entry>
    requires ConfigIsDict(es)
  {
    Lookup(es, "config").value.entries
  }

  /** `del config["scan_interval"]; config.pop("send_packet", None)` */
  function DropScanInterval(es: seq<Entry>): (r: (Result<()>, seq<Entry>))
    ensures !HasKey(es, "scan_interval") ==> r == (Err(KeyError), es)
    ensures HasKey(es, "scan_interval") ==>
      (r.0.Ok? && !HasKey(r.1, "scan_interval") && !HasKey(r.1, "send_packet") &&
       forall k :: k != "scan_interval" && k != "send_packet" ==> Lookup(r.1, k) == Lookup(es, k))
  {
    if !HasKey(es, "scan_interval") then (Err(KeyError), es)
    else (Ok(()), Remove(Remove(es, "scan_interval"), "send_packet"))
  }

  /** `config["config"][key] = v` */
  function SetInConfig(es: seq<Entry>, key: string, v: Value): (r: (Result<()>, seq<Entry>))
    ensures !HasKey(es, "config") ==> r == (Err(KeyError), es)
    ensures HasKey(es, "config") && !ConfigIsDict(es) ==> r == (Err(TypeError), es)
    ensures r.0.Ok? <==> ConfigIsDict(es)
    ensures r.0.Ok? ==> ConfigIsDict(r.1) && ConfigOf(r.1) == Assign(ConfigOf(es), key, v)
    ensures r.0.Ok? ==> forall k :: k != "config" ==> Lookup(r.1, k) == Lookup(es, k)
  {
    var cfg := Lookup(es, "config");
    if cfg.None? then (Err(KeyError), es)
    else
      var updated := SetItem(cfg.value, key, v);
      if updated.Err? then (Err(TypeError), es) else (Ok(()), Assign(es, "config", updated.value))
  }

  /** The serial port settings, with the port name and the evofw flag
    * popped out of them. */
  function SerialSettings(sp: seq<Entry>): (r: seq<Entry>)
    ensures !HasKey(r, "port_name") && !HasKey(r, "evofw_flag")
    ensures forall k :: k != "port_name" && k != "evofw_flag" ==> Lookup(r, k) == Lookup(sp, k)
  {
    Remove(Remove(sp, "port_name"), "evofw_flag")
  }

  /** A serial port dict without its name: its evofw flag (default `None`)
    * and the remaining settings move under `config`. */
  function DetachSettings(es: seq<Entry>, sp: seq<Entry>): (r: (Result<()>, seq<Entry>))
    ensures r.0.Ok? <==> ConfigIsDict(es)
    ensures r.0.Ok? ==>
      (!HasKey(r.1, "serial_port") && ConfigIsDict(r.1) &&
       ConfigOf(r.1) == Assign(Assign(ConfigOf(es), "evofw_flag", Lookup(sp, "evofw_flag").GetOr(Nil)),
                               "serial_config", Dict(SerialSettings(sp))))
    ensures r.0.Ok? ==> forall k :: k != "serial_port" && k != "config" ==> Lookup(r.1, k) == Lookup(es, k)
  {
    var sp1 := Remove(sp, "port_name");
    var flag := Lookup(sp1, "evofw_flag").GetOr(Nil);
    assert flag == Lookup(sp, "evofw_flag").GetOr(Nil);
    var es1 := Assign(es, "serial_port", Dict(SerialSettings(sp)));
    assert ConfigIsDict(es1) <==> ConfigIsDict(es);
    var set1 := SetInConfig(es1, "evofw_flag", flag);
    if set1.0.Err? then set1
    else
      var es2 := Remove(set1.1, "serial_port");
      SetInConfig(es2, "serial_config", Dict(SerialSettings(sp)))
  }

  /** A serial port given as a dict must name the port. */
  predicate PortAccepted(port: Option<Value>)
  {
    port.Some? && (port.value.Dict? ==> HasKey(port.value.entries, "port_name"))
  }

  /** The serial port: a dict gives up its port name and the rest moves
    * under `config`; anything else is the port name.  Either way the
    * top-level key goes. */
  function DetachSerialPort(es: seq<Entry>): (r: (Result<Value>, seq<Entry>))
    ensures r.0.Ok? <==> PortAccepted(Lookup(es, "serial_port")) &&
                         (Lookup(es, "serial_port").value.Dict? ==> ConfigIsDict(es))
    ensures r.0.Ok? ==> (ConfigIsDict(r.1) <==> ConfigIsDict(es))
    ensures r.0.Ok? ==> (!HasKey(r.1, "serial_port") &&
                         forall k :: k != "serial_port" && k != "config" ==> Lookup(r.1, k) == Lookup(es, k))
    ensures r.0.Ok? && !Lookup(es, "serial_port").value.Dict? ==>
      r == (Ok(Lookup(es, "serial_port").value), Remove(es, "serial_port"))
    ensures r.0.Ok? && Lookup(es, "serial_port").value.Dict? ==>
      var sp := Lookup(es, "serial_port").value.entries;
      r.0.value == Lookup(sp, "port_name").value && ConfigIsDict(r.1) &&
      ConfigOf(r.1) == Assign(Assign(ConfigOf(es), "evofw_flag", Lookup(sp, "evofw_flag").GetOr(Nil)),
                              "serial_config", Dict(SerialSettings(sp)))
  {
    var port := Lookup(es, "serial_port");
    if port.None? then (Err(KeyError), es)
    else if !port.value.Dict? then (Ok(port.value), Remove(es, "serial_port"))
    else if !HasKey(port.value.entries, "port_name") then (Err(KeyError), es)
    else
      var moved := DetachSettings(es, port.value.entries);
      if moved.0.Err? then (Err(moved.0.error), moved.1)
      else (Ok(Lookup(port.value.entries, "port_name").value), moved.1)
  }

  /** What lands under `config["packet_log"]`: `{}` when there is no packet
    * log, a dict as it is, a file name as a full packet log dict. */
  function PacketLogEntry(log: Option<Value>): Value
    requires log.Some? && !log.value.Dict? ==> log.value.Str?
  {
    if log.None? then EmptyDict
    else if log.value.Dict? then log.value
    else PacketLogDict(PacketLog(log.value.s, None, 7))
  }

  /** A packet log that is neither a dict nor a string is refused. */
  predicate PacketLogAccepted(log: Option<Value>)
  {
    log.Some? && !log.value.Dict? ==> log.value.Str?
  }

  /** The packet log moves under `config`. */
  function MovePacketLog(es: seq<Entry>): (r: (Result<()>, seq<Entry>))
    ensures r.0.Ok? <==> ConfigIsDict(es) && PacketLogAccepted(Lookup(es, "packet_log"))
    ensures r.0.Ok? ==>
      (!HasKey(r.1, "packet_log") &&
       forall k :: k != "packet_log" && k != "config" ==> Lookup(r.1, k) == Lookup(es, k))
    ensures r.0.Ok? ==>
      (ConfigIsDict(r.1) &&
       ConfigOf(r.1) == Assign(ConfigOf(es), "packet_log", PacketLogEntry(Lookup(es, "packet_log"))))
  {
    var log := Lookup(es, "packet_log");
    if log.None? then SetInConfig(es, "packet_log", EmptyDict)
    else
      var es1 := Remove(es, "packet_log");
      assert ConfigIsDict(es1) <==> ConfigIsDict(es);
      if log.value.Dict? then SetInConfig(es1, "packet_log", log.value)
      else
        PacketLogFromName(if log.value.Str? then log.value.s else "");
        var validated := ValidatePacketLog([Entry("file_name", log.value)]);
        if !log.value.Str? then
          assert validated.Err?;
          (Err(Invalid), es1)
        else SetInConfig(es1, "packet_log", PacketLogDict(validated.value))
  }

  /** `{k: None for k in ids}`: each id once, in order of first appearance. */
  function IdsToDict(ids: seq<Value>): (r: Result<seq<Entry>>)
    ensures r.Ok? <==> forall i :: 0 <= i < |ids| ==> ids[i].Str?
    ensures r.Ok? ==> UniqueKeys(r.value) && forall k :: Lookup(r.value, k) == if Str(k) in ids then Some(Nil) else None
  {
    if ids == [] then Ok([])
    else
      var init := ids[..|ids| - 1];
      var last := ids[|ids| - 1];
      var prev := IdsToDict(init);
      assert ids == init + [last];
      if prev.Err? then Err(prev.error)
      else if !last.Str? then Err(TypeError)
      else
        AssignKeepsUnique(prev.value, last.s, Nil);
        Ok(Assign(prev.value, last.s, Nil))
  }

  lemma AssignKeepsUnique(es: seq<Entry>, k: string, v: Value)
    requires UniqueKeys(es)
    ensures UniqueKeys(Assign(es, k, v))
  {
    var r := Assign(es, k, v);
    forall i, j | 0 <= i < j < |r|
      ensures r[i].key != r[j].key
    {
      assert Keys(r)[i] == r[i].key && Keys(r)[j] == r[j].key;
      if HasKey(es, k) || j < |es| {
        assert Keys(es)[i] == es[i].key && Keys(es)[j] == es[j].key;
      } else {
        assert Keys(r)[i] == Keys(es)[i] && Keys(es)[i] == es[i].key;
        assert es[i].key in Keys(es);
      }
    }
  }

  /** The ids under `key`, when the value there can be iterated and
    * yields strings only. */
  predicate IdsAccepted(ids: Option<Value>)
  {
    ids.Some? && Iterate(ids.value).Ok? && IdsToDict(Iterate(ids.value).value).Ok?
  }

  predicate IdListAccepted(es: seq<Entry>, key: string)
  {
    IdsAccepted(Lookup(es, key))
  }

  function IdDict(es: seq<Entry>, key: string): seq<Entry>
    requires IdListAccepted(es, key)
  {
    IdsToDict(Iterate(Lookup(es, key).value).value).value
  }

  /** `config[key] = {k: None for k in config[key]}` */
  function IdListToDict(es: seq<Entry>, key: string): (r: (Result<()>, seq<Entry>))
    ensures r.0.Ok? <==> IdListAccepted(es, key)
    ensures !HasKey(es, key) ==> r == (Err(KeyError), es)
    ensures r.0.Ok? ==> forall k :: k != key ==> Lookup(r.1, k) == Lookup(es, k)
    ensures r.0.Ok? ==> Lookup(r.1, key) == Some(Dict(IdDict(es, key)))
    ensures r.0.Err? ==> r.1 == es
  {
    var ids := Lookup(es, key);
    if ids.None? then (Err(KeyError), es)
    else
      var items := Iterate(ids.value);
      if items.Err? then (Err(TypeError), es)
      else
        var d := IdsToDict(items.value);
        if d.Err? then (Err(TypeError), es) else (Ok(()), Assign(es, key, Dict(d.value)))
  }

  /** The top-level keys the rewrite touches are distinct names. */
  lemma StageKeysDistinct()
    ensures "allow_list" != "block_list" && "allow_list" != "packet_log" && "block_list" != "packet_log"
    ensures "serial_port" != "send_packet" && "serial_port" != "scan_interval"
    ensures "config" != "allow_list" && "config" != "block_list" && "config" != "packet_log"
    ensures "serial_port" != "allow_list" && "serial_port" != "block_list" && "serial_port" != "packet_log"
  {
    assert "allow_list"[0] != "block_list"[0] && "allow_list"[0] != "packet_log"[0] && "block_list"[0] != "packet_log"[0];
    assert "serial_port"[2] != "send_packet"[2];
  }

  /** The id lists, in order: `allow_list`, then `block_list`. */
  function IdListsToDicts(es: seq<Entry>): (r: (Result<()>, seq<Entry>))
    ensures r.0.Ok? <==> IdListAccepted(es, "allow_list") && IdListAccepted(es, "block_list")
    ensures r.0.Ok? ==> forall k :: k != "allow_list" && k != "block_list" ==> Lookup(r.1, k) == Lookup(es, k)
    ensures r.0.Ok? ==>
      (Lookup(r.1, "allow_list") == Some(Dict(IdDict(es, "allow_list"))) &&
       Lookup(r.1, "block_list") == Some(Dict(IdDict(es, "block_list"))))
  {
    var d := IdListToDict(es, "allow_list");
    if d.0.Err? then d
    else
      StageKeysDistinct();
      assert Lookup(d.1, "block_list") == Lookup(es, "block_list");
      IdListToDict(d.1, "block_list")
  }

  /** The packet log, then the id lists. */
  function PacketLogAndIdLists(es: seq<Entry>): (r: (Result<()>, seq<Entry>))
    ensures r.0.Ok? <==>
      ConfigIsDict(es) && PacketLogAccepted(Lookup(es, "packet_log")) &&
      IdListAccepted(es, "allow_list") && IdListAccepted(es, "block_list")
    ensures r.0.Ok? ==>
      (!HasKey(r.1, "packet_log") &&
       forall k :: k != "packet_log" && k != "config" && k != "allow_list" && k != "block_list" ==>
         Lookup(r.1, k) == Lookup(es, k))
  {
    var c := MovePacketLog(es);
    if c.0.Err? then c
    else
      StageKeysDistinct();
      assert Lookup(c.1, "allow_list") == Lookup(es, "allow_list");
      assert Lookup(c.1, "block_list") == Lookup(es, "block_list");
      var rest := IdListsToDicts(c.1);
      assert rest.0.Ok? ==> Lookup(rest.1, "packet_log") == Lookup(c.1, "packet_log");
      rest
  }

  /** Where the packet log and the id lists end up. */
  lemma PacketLogAndIdListsContent(es: seq<Entry>)
    ensures var r := PacketLogAndIdLists(es);
      r.0.Ok? ==>
        ConfigIsDict(r.1) &&
        ConfigOf(r.1) == Assign(ConfigOf(es), "packet_log", PacketLogEntry(Lookup(es, "packet_log"))) &&
        Lookup(r.1, "allow_list") == Some(Dict(IdDict(es, "allow_list"))) &&
        Lookup(r.1, "block_list") == Some(Dict(IdDict(es, "block_list")))
  {
    var c := MovePacketLog(es);
    if c.0.Ok? {
      StageKeysDistinct();
      assert Lookup(c.1, "allow_list") == Lookup(es, "allow_list");
      assert Lookup(c.1, "block_list") == Lookup(es, "block_list");
      var rest := IdListsToDicts(c.1);
      assert rest.0.Ok? ==> Lookup(rest.1, "config") == Lookup(c.1, "config");
    }
  }

  /** `config` after the serial port settings have moved into it. */
  function ConfigWithPort(es: seq<Entry>): seq<Entry>
    requires ConfigIsDict(es) && PortAccepted(Lookup(es, "serial_port"))
  {
    var port := Lookup(es, "serial_port").value;
    if port.Dict? then
      Assign(Assign(ConfigOf(es), "evofw_flag", Lookup(port.entries, "evofw_flag").GetOr(Nil)),
             "serial_config", Dict(SerialSettings(port.entries)))
    else ConfigOf(es)
  }

  /** The port name, given as a dict's `port_name` or as the value itself. */
  function PortName(port: Value): Value
    requires PortAccepted(Some(port))
  {
    if port.Dict? then Lookup(port.entries, "port_name").value else port
  }

  /** The serial port, the packet log, then the id lists. */
  function DetachAndMove(es: seq<Entry>): (r: (Result<Value>, seq<Entry>))
    ensures r.0.Ok? <==>
      PortAccepted(Lookup(es, "serial_port")) && ConfigIsDict(es) && PacketLogAccepted(Lookup(es, "packet_log")) &&
      IdListAccepted(es, "allow_list") && IdListAccepted(es, "block_list")
    ensures r.0.Ok? ==> r.0.value == PortName(Lookup(es, "serial_port").value)
    ensures r.0.Ok? ==>
      (!HasKey(r.1, "serial_port") && !HasKey(r.1, "packet_log") &&
       forall k :: k != "serial_port" && k != "packet_log" && k != "config" && k != "allow_list" && k != "block_list" ==>
         Lookup(r.1, k) == Lookup(es, k))
  {
    var b := DetachSerialPort(es);
    if b.0.Err? then b
    else
      StageKeysDistinct();
      assert Lookup(b.1, "packet_log") == Lookup(es, "packet_log");
      assert Lookup(b.1, "allow_list") == Lookup(es, "allow_list");
      assert Lookup(b.1, "block_list") == Lookup(es, "block_list");
      var rest := PacketLogAndIdLists(b.1);
      assert rest.0.Ok? ==> Lookup(rest.1, "serial_port") == Lookup(b.1, "serial_port");
      if rest.0.Err? then (Err(rest.0.error), rest.1) else (Ok(b.0.value), rest.1)
  }

  /** Where the serial port settings, the packet log and the id lists end up. */
  lemma DetachAndMoveContent(es: seq<Entry>)
    ensures var r := DetachAndMove(es);
      r.0.Ok? ==>
        ConfigIsDict(es) && PortAccepted(Lookup(es, "serial_port")) && ConfigIsDict(r.1) &&
        ConfigOf(r.1) == Assign(ConfigWithPort(es), "packet_log", PacketLogEntry(Lookup(es, "packet_log"))) &&
        Lookup(r.1, "allow_list") == Some(Dict(IdDict(es, "allow_list"))) &&
        Lookup(r.1, "block_list") == Some(Dict(IdDict(es, "block_list")))
  {
    var b := DetachSerialPort(es);
    if b.0.Ok? {
      StageKeysDistinct();
      assert Lookup(b.1, "packet_log") == Lookup(es, "packet_log");
      assert Lookup(b.1, "allow_list") == Lookup(es, "allow_list");
      assert Lookup(b.1, "block_list") == Lookup(es, "block_list");
      PacketLogAndIdListsContent(b.1);
    }
  }

  /** `normalise_config_schema`: the serial port name (or the exception),
    * and the dict as it is left. */
  function Normalise(es: seq<Entry>): (Result<Value>, seq<Entry>)
  {
    var a := DropScanInterval(es);
    if a.0.Err? then (Err(a.0.error), a.1) else DetachAndMove(a.1)
  }

  /** The HA configuration dict, rewritten in place. */
  class HassConfig {
    var entries: seq<Entry>

    constructor (entries: seq<Entry>)
      ensures this.entries == entries
    {
      this.entries := entries;
    }

    /** `normalise_config_schema`: each statement group rewrites the dict;
      * the first that raises ends the call with the dict as it stands. */
    method NormaliseConfigSchema() returns (r: Result<Value>)
      modifies this
      ensures (r, entries) == Normalise(old(entries))
    {
      var dropped := DropScanInterval(entries);
      entries := dropped.1;
      if dropped.0.Err? {
        return Err(dropped.0.error);
      }
      var port := DetachSerialPort(entries);
      entries := port.1;
      if port.0.Err? {
        return Err(port.0.error);
      }
      var moved := MovePacketLog(entries);
      entries := moved.1;
      if moved.0.Err? {
        return Err(moved.0.error);
      }
      var allow := IdListToDict(entries, "allow_list");
      entries := allow.1;
      if allow.0.Err? {
        return Err(allow.0.error);
      }
      var block := IdListToDict(entries, "block_list");
      entries := block.1;
      if block.0.Err? {
        return Err(block.0.error);
      }
      return Ok(port.0.value);
    }
  }

  /** The call succeeds exactly when every key it reads is there and has a
    * usable shape. */
  predicate NormaliseAccepts(es: seq<Entry>)
  {
    HasKey(es, "scan_interval") && PortAccepted(Lookup(es, "serial_port")) && ConfigIsDict(es) &&
    PacketLogAccepted(Lookup(es, "packet_log")) &&
    IdListAccepted(es, "allow_list") && IdListAccepted(es, "block_list")
  }

  /** Dropping the scan interval leaves every key the later stages read. */
  lemma DropKeepsStageKeys(es: seq<Entry>)
    requires HasKey(es, "scan_interval")
    ensures var a := DropScanInterval(es).1;
      Lookup(a, "serial_port") == Lookup(es, "serial_port") && Lookup(a, "config") == Lookup(es, "config") &&
      Lookup(a, "packet_log") == Lookup(es, "packet_log") &&
      Lookup(a, "allow_list") == Lookup(es, "allow_list") && Lookup(a, "block_list") == Lookup(es, "block_list")
  {
  }

  lemma NormaliseSucceeds(es: seq<Entry>)
    ensures Normalise(es).0.Ok? <==> NormaliseAccepts(es)
  {
    if HasKey(es, "scan_interval") {
      DropKeepsStageKeys(es);
    }
  }

  /** Without a scan interval nothing changes and KeyError is raised. */
  lemma NormaliseNeedsScanInterval(es: seq<Entry>)
    ensures !HasKey(es, "scan_interval") ==> Normalise(es) == (Err(KeyError), es)
  {
  }

  /** The returned port name: the dict's `port_name`, or the value itself. */
  lemma NormalisePortName(es: seq<Entry>)
    ensures Normalise(es).0.Ok? ==>
      (PortAccepted(Lookup(es, "serial_port")) && Normalise(es).0.value == PortName(Lookup(es, "serial_port").value))
  {
    if HasKey(es, "scan_interval") {
      DropKeepsStageKeys(es);
    }
  }

  /** The keys the client library does not take are gone. */
  lemma NormaliseDropsKeys(es: seq<Entry>)
    ensures Normalise(es).0.Ok? ==>
      (!HasKey(Normalise(es).1, "scan_interval") && !HasKey(Normalise(es).1, "send_packet") &&
       !HasKey(Normalise(es).1, "serial_port") && !HasKey(Normalise(es).1, "packet_log"))
  {
    if HasKey(es, "scan_interval") {
      var a := DropScanInterval(es).1;
      var r := DetachAndMove(a);
      if r.0.Ok? {
        DroppedStayDropped(a, r.1, "scan_interval");
        DroppedStayDropped(a, r.1, "send_packet");
      }
    }
  }

  lemma DroppedStayDropped(a: seq<Entry>, r: seq<Entry>, k: string)
    requires k != "serial_port" && k != "packet_log" && k != "config" && k != "allow_list" && k != "block_list"
    requires forall j :: j != "serial_port" && j != "packet_log" && j != "config" && j != "allow_list" && j != "block_list" ==>
      Lookup(r, j) == Lookup(a, j)
    requires !HasKey(a, k)
    ensures !HasKey(r, k)
  {
    assert Lookup(r, k) == Lookup(a, k);
  }

  /** Every key the rewrite does not touch keeps its value. */
  lemma NormaliseKeepsKeys(es: seq<Entry>, k: string)
    requires k != "scan_interval" && k != "send_packet" && k != "serial_port" && k != "packet_log"
    requires k != "config" && k != "allow_list" && k != "block_list"
    ensures Normalise(es).0.Ok? ==> Lookup(Normalise(es).1, k) == Lookup(es, k)
  {
    if HasKey(es, "scan_interval") {
      assert Lookup(DropScanInterval(es).1, k) == Lookup(es, k);
    }
  }

  /** Each id list becomes a dict with its ids as keys. */
  lemma NormaliseIdLists(es: seq<Entry>, key: string)
    requires key == "allow_list" || key == "block_list"
    ensures Normalise(es).0.Ok? ==> IdListAccepted(es, key) && Lookup(Normalise(es).1, key) == Some(Dict(IdDict(es, key)))
  {
    if HasKey(es, "scan_interval") {
      DropKeepsStageKeys(es);
      DetachAndMoveContent(DropScanInterval(es).1);
    }
  }

  /** What `config` holds afterwards: the packet log, and for a serial port
    * dict its evofw flag and settings; every other key as it was. */
  lemma NormaliseConfigKey(es: seq<Entry>, k: string)
    ensures Normalise(es).0.Ok? ==>
      ConfigIsDict(es) && ConfigIsDict(Normalise(es).1) && PortAccepted(Lookup(es, "serial_port")) &&
      var port := Lookup(es, "serial_port").value;
      Lookup(ConfigOf(Normalise(es).1), k) ==
        if k == "packet_log" then Some(PacketLogEntry(Lookup(es, "packet_log")))
        else if port.Dict? && k == "serial_config" then Some(Dict(SerialSettings(port.entries)))
        else if port.Dict? && k == "evofw_flag" then Some(Lookup(port.entries, "evofw_flag").GetOr(Nil))
        else Lookup(ConfigOf(es), k)
  {
    if HasKey(es, "scan_interval") {
      DropKeepsStageKeys(es);
      var a := DropScanInterval(es).1;
      DetachAndMoveContent(a);
      if DetachAndMove(a).0.Ok? {
        assert ConfigWithPort(a) == ConfigWithPort(es);
      }
    }
  }

  // ---------------------------------------------------------------------
  // Service schemas

  /** `[0-9A-F]{1,48}`: one to 48 hex digits, an odd count included. */
  predicate HexRunShape(s: string)
  {
    1 <= |s| <= 48 && AllInBase(s, 16)
  }

  predicate IsHexRun(s: string)
  {
    HexRunShape(s) || (EndsWithNewline(s) && HexRunShape(Chomp(s)))
  }

  const EvohomeVerbs: seq<string> := [" I", "RQ", "RP", " W"]

  datatype Packet = Packet(deviceId: string, verb: string, code: string, payload: string)

  predicate IsEvohomePacket(p: Packet)
  {
    IsDeviceId(p.deviceId) && p.verb in EvohomeVerbs && IsCmdCode(p.code) && IsHexRun(p.payload)
  }

  const EvohomePacketKeys: set<string> := {"device_id", "verb", "code", "payload"}

  /** `SEND_PACKET_SCHEMA`: a device id, one of four verbs, a command code
    * and a payload of up to 48 hex digits; nothing else. */
  function ValidateEvohomePacket(call: seq<Entry>): (r: Result<Packet>)
    ensures r.Ok? ==> IsEvohomePacket(r.value) && OnlyKeys(call, EvohomePacketKeys)
    ensures r.Ok? ==>
      Lookup(call, "device_id").GetOr(Nil) == Str(r.value.deviceId) &&
      Lookup(call, "verb").GetOr(Nil) == Str(r.value.verb) &&
      Lookup(call, "code").GetOr(Nil) == Str(r.value.code) &&
      Lookup(call, "payload").GetOr(Nil) == Str(r.value.payload)
  {
    var id := MatchDeviceId(Lookup(call, "device_id").GetOr(Nil));
    var verb := Lookup(call, "verb").GetOr(Nil);
    var code := MatchCmdCode(Lookup(call, "code").GetOr(Nil));
    var payload := Lookup(call, "payload").GetOr(Nil);
    if !OnlyKeys(call, EvohomePacketKeys) then Err(Invalid)
    else if id.Err? || !(verb.Str? && verb.s in EvohomeVerbs) || code.Err? || !(payload.Str? && IsHexRun(payload.s)) then
      Err(Invalid)
    else Ok(Packet(id.value, verb.s, code.value, payload.s))
  }

  /** A packet request as the call data a caller writes. */
  function EvohomePacketCall(p: Packet): seq<Entry>
  {
    [Entry("device_id", Str(p.deviceId))] +
      ([Entry("verb", Str(p.verb))] + ([Entry("code", Str(p.code))] + [Entry("payload", Str(p.payload))]))
  }

  lemma EvohomePacketCallFields(p: Packet)
    ensures var call := EvohomePacketCall(p);
      OnlyKeys(call, EvohomePacketKeys) &&
      Lookup(call, "device_id") == Some(Str(p.deviceId)) &&
      Lookup(call, "verb") == Some(Str(p.verb)) &&
      Lookup(call, "code") == Some(Str(p.code)) &&
      Lookup(call, "payload") == Some(Str(p.payload))
  {
    var e3 := [Entry("payload", Str(p.payload))];
    var e2 := [Entry("code", Str(p.code))] + e3;
    var e1 := [Entry("verb", Str(p.verb))] + e2;
    assert [Entry("device_id", Str(p.deviceId))] + e1 == EvohomePacketCall(p);
    ConsEntry(e3[0], []);
    assert e3 == [e3[0]] + [];
    ConsEntry(Entry("code", Str(p.code)), e3);
    ConsEntry(Entry("verb", Str(p.verb)), e2);
    ConsEntry(Entry("device_id", Str(p.deviceId)), e1);
  }

  /** Writing an accepted request back as call data and validating it again
    * gives the same request. */
  lemma EvohomePacketRoundTrip(p: Packet)
    requires IsEvohomePacket(p)
    ensures ValidateEvohomePacket(EvohomePacketCall(p)) == Ok(p)
  {
    EvohomePacketCallFields(p);
  }

  /** The earlier payload check admits an odd number of hex digits, which
    * the later one refuses; an even-length run is a payload of whole bytes
    * for both. */
  lemma HexRunAndPayload(s: string)
    ensures HexRunShape(s) && |s| % 2 == 0 ==> PayloadShape(s)
    ensures PayloadShape(s) && |s| <= 48 ==> HexRunShape(s)
    ensures HexRunShape("A") && !PayloadShape("A")
  {
    assert AllInBase("A", 16) by {
      assert InBase("A"[0], 16);
    }
  }

  datatype SystemModeRequest = SystemModeRequest(mode: string, hours: Option<int>, period: Option<int>)

  /** `SET_SYSTEM_MODE_SCHEMA`: the first of three schemas that accepts the
    * call.  A mode from the library's lookup with nothing else; eco_boost
    * with a duration of 1 to 24 hours (default 1 hour); away, custom or
    * day_off with a period of 0 to 99 days (default 0).  Durations are in
    * seconds; `lookup` is the library's set of system mode names. */
  function ValidateSystemModeRequest(mode: Option<string>, hours: Option<int>, period: Option<int>, lookup: set<string>):
    (r: Result<SystemModeRequest>)
    ensures r.Ok? ==> mode == Some(r.value.mode)
    ensures r.Ok? && r.value.hours.Some? ==> r.value.mode == "eco_boost" && Hour <= r.value.hours.value <= 24 * Hour
    ensures r.Ok? && r.value.period.Some? ==>
      r.value.mode in {"away", "custom", "day_off"} && 0 <= r.value.period.value <= 99 * Day
    ensures mode.Some? && mode.value in lookup && hours.None? && period.None? ==> r == Ok(SystemModeRequest(mode.value, None, None))
    ensures mode.None? ==> r.Err?
    ensures r.Ok? <==> (mode.Some? &&
      ((mode.value in lookup && hours.None? && period.None?) ||
       (mode.value == "eco_boost" && period.None? && Hour <= hours.GetOr(Hour) <= 24 * Hour) ||
       (mode.value in {"away", "custom", "day_off"} && hours.None? && 0 <= period.GetOr(0) <= 99 * Day)))
    ensures r.Ok? && !(mode.value in lookup && hours.None? && period.None?) ==>
      if mode.value == "eco_boost" then r.value == SystemModeRequest(mode.value, Some(hours.GetOr(Hour)), None)
      else r.value == SystemModeRequest(mode.value, None, Some(period.GetOr(0)))
  {
    if mode.None? then Err(Invalid)
    else if mode.value in lookup && hours.None? && period.None? then Ok(SystemModeRequest(mode.value, None, None))
    else if mode.value == "eco_boost" && period.None? && Hour <= hours.GetOr(Hour) <= 24 * Hour then
      Ok(SystemModeRequest(mode.value, Some(hours.GetOr(Hour)), None))
    else if mode.value in {"away", "custom", "day_off"} && hours.None? && 0 <= period.GetOr(0) <= 99 * Day then
      Ok(SystemModeRequest(mode.value, None, Some(period.GetOr(0))))
    else Err(Invalid)
  }

  /** The one-hour default for eco_boost applies only when eco_boost is not
    * already accepted, bare, by the first schema. */
  lemma EcoBoostDefault(lookup: set<string>)
    ensures "eco_boost" !in lookup ==>
      ValidateSystemModeRequest(Some("eco_boost"), None, None, lookup) == Ok(SystemModeRequest("eco_boost", Some(Hour), None))
    ensures "eco_boost" in lookup ==>
      ValidateSystemModeRequest(Some("eco_boost"), None, None, lookup) == Ok(SystemModeRequest("eco_boost", None, None))
  {
  }

  datatype ZoneModeRequest = ZoneModeRequest(mode: Option<ZoneMode>, setpoint: Option<real>, until: Option<int>, duration: Option<int>)

  /** The mode of a schema that lists `allowed`: absent, or one of them. */
  function OptionalMode(mode: Option<string>, allowed: set<ZoneMode>): (r: Result<Option<ZoneMode>>)
    ensures r.Ok? ==> (r.value.None? <==> mode.None?)
    ensures r.Ok? && r.value.Some? ==> r.value.value in allowed && ZoneModeName(r.value.value) == mode.value
    ensures r.Ok? <==> mode.None? || (ParseZoneMode(mode.value).Some? && ParseZoneMode(mode.value).value in allowed)
  {
    if mode.None? then Ok(None)
    else
      var m := ParseZoneMode(mode.value);
      if m.Some? && m.value in allowed then Ok(m) else Err(Invalid)
  }

  /** `SET_ZONE_MODE_SCHEMA`: the first of three schemas that accepts the
    * call.  Follow the schedule with nothing else; a permanent or advanced
    * override with a setpoint of 5 to 30 (default 21); a temporary
    * override with that setpoint and either an until or a duration of five
    * minutes to a day (never both). */
  function ValidateZoneModeRequest(mode: Option<string>, setpoint: Option<real>, until: Option<int>, duration: Option<int>):
    (r: Result<ZoneModeRequest>)
    ensures r.Ok? && r.value.setpoint.Some? ==> 5.0 <= r.value.setpoint.value <= 30.0
    ensures r.Ok? ==> r.value.until.None? || r.value.duration.None?
    ensures r.Ok? && r.value.duration.Some? ==> 5 * Minute <= r.value.duration.value <= Day
    ensures r.Ok? && (r.value.until.Some? || r.value.duration.Some?) ==> r.value.mode in {None, Some(TemporaryOverride)}
    ensures until.Some? && duration.Some? ==> r.Err?
    ensures mode.None? && setpoint.None? && until.None? && duration.None? ==> r == Ok(ZoneModeRequest(None, None, None, None))
    ensures r.Ok? <==>
      (OptionalMode(mode, {FollowSchedule}).Ok? && setpoint.None? && until.None? && duration.None?) ||
      (OptionalMode(mode, {PermanentOverride, AdvancedOverride}).Ok? && until.None? && duration.None? &&
       5.0 <= setpoint.GetOr(21.0) <= 30.0) ||
      (OptionalMode(mode, {TemporaryOverride}).Ok? && 5.0 <= setpoint.GetOr(21.0) <= 30.0 &&
       (until.None? || duration.None?) && (duration.None? || 5 * Minute <= duration.value <= Day))
    ensures r.Ok? && setpoint.None? && until.None? && duration.None? && OptionalMode(mode, {FollowSchedule}).Ok? ==>
      r.value == ZoneModeRequest(OptionalMode(mode, {FollowSchedule}).value, None, None, None)
    ensures r.Ok? && !(setpoint.None? && until.None? && duration.None? && OptionalMode(mode, {FollowSchedule}).Ok?) ==>
      r.value.setpoint == Some(setpoint.GetOr(21.0)) && r.value.until == until && r.value.duration == duration &&
      (r.value.mode.Some? <==> mode.Some?) && (mode.Some? ==> r.value.mode == ParseZoneMode(mode.value))
  {
    var schedule := OptionalMode(mode, {FollowSchedule});
    var fixed := OptionalMode(mode, {PermanentOverride, AdvancedOverride});
    var temporary := OptionalMode(mode, {TemporaryOverride});
    var sp := setpoint.GetOr(21.0);
    if schedule.Ok? && setpoint.None? && until.None? && duration.None? then
      Ok(ZoneModeRequest(schedule.value, None, None, None))
    else if fixed.Ok? && until.None? && duration.None? && 5.0 <= sp <= 30.0 then
      Ok(ZoneModeRequest(fixed.value, Some(sp), None, None))
    else if temporary.Ok? && 5.0 <= sp <= 30.0 && (until.None? || duration.None?) &&
            (duration.None? || 5 * Minute <= duration.value <= Day) then
      Ok(ZoneModeRequest(temporary.value, Some(sp), until, duration))
    else Err(Invalid)
  }

  /** A permanent override with no setpoint gets the default of 21
    * degrees; a temporary override keeps its until. */
  lemma ZoneModeDefaults(until: int)
    ensures ValidateZoneModeRequest(Some("permanent_override"), None, None, None) ==
      Ok(ZoneModeRequest(Some(PermanentOverride), Some(21.0), None, None))
    ensures ValidateZoneModeRequest(Some("temporary_override"), Some(18.5), Some(until), None) ==
      Ok(ZoneModeRequest(Some(TemporaryOverride), Some(18.5), Some(until), None))
    ensures ValidateZoneModeRequest(Some("follow_schedule"), Some(18.5), None, None).Err?
  {
  }

  datatype DhwModeRequest = DhwModeRequest(mode: Option<ZoneMode>, active: Option<bool>, until: Option<int>, duration: Option<int>)

  /** `SET_DHW_MODE_SCHEMA`: an optional mode (schedule, permanent or
    * temporary), an optional active flag, and either an until or a
    * duration of five minutes to a day. */
  function ValidateDhwModeRequest(mode: Option<string>, active: Option<bool>, until: Option<int>, duration: Option<int>):
    (r: Result<DhwModeRequest>)
    ensures r.Ok? <==>
      OptionalMode(mode, {FollowSchedule, PermanentOverride, TemporaryOverride}).Ok? &&
      (until.None? || duration.None?) && (duration.None? || 5 * Minute <= duration.value <= Day)
    ensures r.Ok? ==> r.value.active == active && r.value.until == until && r.value.duration == duration
    ensures r.Ok? ==> r.value.mode == OptionalMode(mode, {FollowSchedule, PermanentOverride, TemporaryOverride}).value
  {
    var m := OptionalMode(mode, {FollowSchedule, PermanentOverride, TemporaryOverride});
    if m.Err? || (until.Some? && duration.Some?) || (duration.Some? && !(5 * Minute <= duration.value <= Day)) then
      Err(Invalid)
    else Ok(DhwModeRequest(m.value, active, until, duration))
  }

  /** `SET_DHW_CONFIG_SCHEMA`: setpoint 30..85 (default 50), overrun 0..10
    * (default 5), differential 0..10 (default 1, where the later
    * integration's default is 10). */
  function ValidateDhwConfig(setpoint: Option<real>, overrun: Option<int>, differential: Option<real>):
    (r: Result<DhwParams>)
    ensures r.Ok? <==>
      30.0 <= setpoint.GetOr(50.0) <= 85.0 && 0 <= overrun.GetOr(5) <= 10 && 0.0 <= differential.GetOr(1.0) <= 10.0
    ensures r.Ok? ==> r.value == DhwParams(setpoint.GetOr(50.0), overrun.GetOr(5), differential.GetOr(1.0))
  {
    var sp := Defaulted(setpoint, 50.0, 30.0, 85.0);
    var ov := IntDefaulted(overrun, 5, 0, 10);
    var df := Defaulted(differential, 1.0, 0.0, 10.0);
    if sp.Err? || ov.Err? || df.Err? then Err(Invalid) else Ok(DhwParams(sp.value, ov.value, df.value))
  }

  /** `SET_ZONE_TEMP_SCHEMA`: a required temperature of -20 to 99. */
  function ValidateZoneTemp(temperature: Option<real>): (r: Result<real>)
    ensures r.Ok? <==> temperature.Some? && -20.0 <= temperature.value <= 99.0
    ensures r.Ok? ==> r.value == temperature.value
  {
    if temperature.None? then Err(Invalid) else InRange(temperature.value, -20.0, 99.0)
  }
}
