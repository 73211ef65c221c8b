// The factory the tests build their virtual RF networks with
// (tests/virtual_rf/__init__.py): each gateway schema names, or lets the
// factory derive, the id and firmware of the gateway on its own port.  The
// port names the operating system hands out are a parameter, and the
// `ramses_rf` gateway objects started on each port are not modelled.

module VirtualRfFactory {
  import opened Outcomes
  import opened PyValues
  import Ids
  import ConfigSchemas
  import VirtualRf

  const KnownListKey: string := "known_list"
  const ClassKey: string := "class"
  /** The trait naming a gateway's firmware. */
  const FwTypeKey: string := "_type"
  /** The class of a gateway device. */
  const HgiClass: string := "HGI"
  /** The device type of a gateway: ids `18:xxxxxx`. */
  const HgiType: string := "18"
  /** The firmware member name used when a schema names none. */
  const DefaultFwName: string := "EVOFW3"
  /** The firmware member name of an HGI80. */
  const Hgi80FwName: string := "HGI_80"
  /** `MAX_PORTS` of the factory. */
  const MaxPorts := 6
  /** The log size a network is created with. */
  const LogSize := 100

  // ---------------------------------------------------------------------
  // Decimal numbers, for the derived gateway ids

  /** `str(n)` for a natural number: its decimal digits, no padding. */
  function Decimal(n: nat): (s: string)
    ensures |s| >= 1 && Ids.AllInBase(s, 10)
    ensures n < 10 <==> |s| == 1
  {
    if n < 10 then [Ids.Glyph(n)] else Decimal(n / 10) + [Ids.Glyph(n % 10)]
  }

  /** Different numbers are written differently. */
  lemma {:induction false} DecimalInjective(a: nat, b: nat)
    requires Decimal(a) == Decimal(b)
    ensures a == b
  {
    if a >= 10 && b >= 10 {
      var da, db := Decimal(a), Decimal(b);
      assert da[..|da| - 1] == Decimal(a / 10);
      assert db[..|db| - 1] == Decimal(b / 10);
      DecimalInjective(a / 10, b / 10);
      assert Ids.GlyphValue(da[|da| - 1]) == a % 10;
      assert Ids.GlyphValue(db[|db| - 1]) == b % 10;
    } else if a < 10 && b < 10 {
      assert Ids.GlyphValue(Decimal(a)[0]) == a;
      assert Ids.GlyphValue(Decimal(b)[0]) == b;
    }
  }

  /** `s * n`: `s` written `n` times. */
  function Repeat(s: string, n: nat): (r: string)
    ensures |r| == n * |s|
  {
    if n == 0 then "" else s + Repeat(s, n - 1)
  }

  lemma RepeatStartsWith(s: string, n: nat)
    requires n >= 1
    ensures Repeat(s, n)[..|s|] == s
  {
  }

  /** The id derived for the gateway on port `portIdx`: `18:` and the port
    * number written six times. */
  function PortId(portIdx: nat): (id: string)
    ensures |id| >= 3 && id[..3] == HgiType + ":"
  {
    HgiType + ":" + Repeat(Decimal(portIdx), 6)
  }

  /** Different ports derive different ids. */
  lemma PortIdInjective(i: nat, j: nat)
    requires PortId(i) == PortId(j)
    ensures i == j
  {
    var ri, rj := Repeat(Decimal(i), 6), Repeat(Decimal(j), 6);
    assert ri == PortId(i)[3..] && rj == PortId(j)[3..];
    RepeatStartsWith(Decimal(i), 6);
    RepeatStartsWith(Decimal(j), 6);
    assert |Decimal(i)| == |Decimal(j)|;
    DecimalInjective(i, j);
  }

  /** The number whose decimal digits are `n` ones. */
  function Ones(n: nat): nat
  {
    if n == 0 then 0 else 10 * Ones(n - 1) + 1
  }

  /** Six copies of one digit render the number `d * 111111`. */
  lemma {:induction false} RenderRepeatedDigit(d: nat, n: nat)
    requires d < 10
    ensures Ids.Render(d * Ones(n), n, 10) == Repeat([Ids.Glyph(d)], n)
  {
    if n > 0 {
      calc {
        d * Ones(n);
        d * (10 * Ones(n - 1) + 1);
        10 * (d * Ones(n - 1)) + d;
      }
      assert (d * Ones(n)) / 10 == d * Ones(n - 1);
      assert (d * Ones(n)) % 10 == d;
      RenderRepeatedDigit(d, n - 1);
      RepeatSnoc([Ids.Glyph(d)], n - 1);
    }
  }

  lemma {:induction false} RepeatSnoc(s: string, n: nat)
    ensures Repeat(s, n) + s == Repeat(s, n + 1)
  {
    if n > 0 {
      RepeatSnoc(s, n - 1);
      assert Repeat(s, n) + s == s + (Repeat(s, n - 1) + s);
    }
  }

  /** The ids derived for the (at most six) ports are gateway device ids:
    * type 18 and the serial `111111` times the port number. */
  lemma PortIdIsGatewayId(portIdx: nat)
    requires portIdx < MaxPorts
    ensures portIdx * Ones(6) < 1000000
    ensures PortId(portIdx) == Ids.FormatDeviceId(18, portIdx * Ones(6))
    ensures Ids.DeviceIdShape(PortId(portIdx))
  {
    assert Ones(6) == 111111;
    RenderRepeatedDigit(portIdx, 6);
    assert Ids.Render(18, 2, 10) == "18" by {
      assert Ids.Render(1, 1, 10) == "1";
    }
    Ids.DeviceIdShapeMeaning(PortId(portIdx));
  }

  // ---------------------------------------------------------------------
  // The gateway a schema asks for

  /** `v.get("class")` of a known_list entry. */
  function ClassOf(v: Value): Value
    requires v.Dict?
  {
    Lookup(v.entries, ClassKey).GetOr(Nil)
  }

  /** An entry whose class is the gateway class. */
  predicate IsHgiEntry(e: Entry)
    requires e.val.Dict?
  {
    ClassOf(e.val) == Str(HgiClass)
  }

  /** The keys of the entries classed as gateways, in order; the first
    * entry that is not a dict raises. */
  function HgiIds(es: seq<Entry>): (r: Result<seq<string>>)
    ensures r.Ok? <==> ConfigSchemas.AllDicts(es)
    ensures r.Err? ==> r.error == AttributeError
    ensures r.Ok? ==> |r.value| <= |es|
  {
    if es == [] then Ok([])
    else if !es[0].val.Dict? then Err(AttributeError)
    else
      var rest := HgiIds(es[1..]);
      assert ConfigSchemas.AllDicts(es) <==> ConfigSchemas.AllDicts(es[1..]) by {
        if ConfigSchemas.AllDicts(es[1..]) {
          forall i | 0 <= i < |es| ensures es[i].val.Dict? {
            if i > 0 { assert es[i] == es[1..][i - 1]; }
          }
        }
      }
      if rest.Err? then rest
      else if IsHgiEntry(es[0]) then Ok([es[0].key] + rest.value)
      else rest
  }

  /** The gateway ids found are exactly the keys of the gateway-classed
    * entries. */
  lemma {:induction false} HgiIdsAreHgiEntries(es: seq<Entry>)
    requires ConfigSchemas.AllDicts(es)
    ensures forall k :: k in HgiIds(es).value <==>
      (exists i :: 0 <= i < |es| && es[i].key == k && IsHgiEntry(es[i]))
  {
    if es != [] {
      HgiIdsAreHgiEntries(es[1..]);
      forall k
        ensures k in HgiIds(es).value <==> (exists i :: 0 <= i < |es| && es[i].key == k && IsHgiEntry(es[i]))
      {
        if k in HgiIds(es[1..]).value {
          var i :| 0 <= i < |es[1..]| && es[1..][i].key == k && IsHgiEntry(es[1..][i]);
          assert es[i + 1] == es[1..][i];
        }
        if exists i :: 0 <= i < |es| && es[i].key == k && IsHgiEntry(es[i]) {
          var i :| 0 <= i < |es| && es[i].key == k && IsHgiEntry(es[i]);
          if i > 0 { assert es[1..][i - 1] == es[i]; }
        }
      }
    }
  }

  /** The keys of a list of entries include every gateway id found. */
  lemma HgiIdsAreKeys(es: seq<Entry>, k: string)
    requires ConfigSchemas.AllDicts(es) && k in HgiIds(es).value
    ensures HasKey(es, k) && Lookup(es, k).value.Dict?
  {
    HgiIdsAreHgiEntries(es);
    var i :| 0 <= i < |es| && es[i].key == k && IsHgiEntry(es[i]);
    LookupAllDicts(es, k, i);
  }

  lemma {:induction false} LookupAllDicts(es: seq<Entry>, k: string, i: nat)
    requires ConfigSchemas.AllDicts(es) && i < |es| && es[i].key == k
    ensures HasKey(es, k) && Lookup(es, k).value.Dict?
  {
    assert Keys(es)[i] == k;
    if es[0].key != k {
      HasKeyCons(es);
      assert es[1..][i - 1] == es[i];
      LookupAllDicts(es[1..], k, i - 1);
    }
  }

  /** A key with the gateway type that names no class at all. */
  predicate HasUnclassedGateway(es: seq<Entry>)
    requires ConfigSchemas.AllDicts(es)
  {
    exists i :: 0 <= i < |es| && Slice(es[i].key, 0, 2) == HgiType && !Truthy(ClassOf(es[i].val))
  }

  /** `_get_hgi_id_for_schema`: the gateway id and firmware name for a
    * schema.  The one gateway-classed entry of its known_list gives both
    * (the firmware defaulting to evofw3); two of them, or a gateway-typed
    * entry with no class, raise TypeError; with none, the id derives from
    * the port.  A schema or known_list that is not a dict, or an entry of
    * the known_list that is not one, raises AttributeError. */
  function HgiIdForSchema(schema: Value, portIdx: nat): (r: Result<(string, Value)>)
    ensures !schema.Dict? ==> r == Err(AttributeError)
    ensures r.Ok? ==> (schema.Dict? && KnownList(schema).Dict? &&
      (r.value.0 == PortId(portIdx) || HasKey(KnownList(schema).entries, r.value.0)))
    ensures r.Ok? && schema.Dict? && KnownList(schema).Dict? && !HasKey(KnownList(schema).entries, r.value.0) ==>
      r.value == (PortId(portIdx), Str(DefaultFwName))
  {
    if !schema.Dict? then Err(AttributeError)
    else
      var known := Lookup(schema.entries, KnownListKey).GetOr(EmptyDict);
      if !known.Dict? then Err(AttributeError)
      else
        var ids := HgiIds(known.entries);
        if ids.Err? then Err(ids.error)
        else if |ids.value| > 1 then Err(TypeError)
        else if |ids.value| == 1 then
          HgiIdsAreKeys(known.entries, ids.value[0]);
          var traits := Lookup(known.entries, ids.value[0]).value;
          Ok((ids.value[0], Lookup(traits.entries, FwTypeKey).GetOr(Str(DefaultFwName))))
        else if HasUnclassedGateway(known.entries) then Err(TypeError)
        else Ok((PortId(portIdx), Str(DefaultFwName)))
  }

  /** The known_list a schema's gateway is looked up in. */
  function KnownList(schema: Value): Value
    requires schema.Dict?
  {
    Lookup(schema.entries, KnownListKey).GetOr(EmptyDict)
  }

  /** What `HgiIdForSchema` accepts, and what it returns: a named gateway
    * is a gateway-classed key of the known_list with that entry's
    * firmware; a derived one is the port's id with the default firmware,
    * and only when no key is gateway-classed or unclassed with the
    * gateway type. */
  lemma HgiIdForSchemaMeaning(schema: Value, portIdx: nat)
    ensures HgiIdForSchema(schema, portIdx).Ok? <==>
      schema.Dict? && KnownList(schema).Dict? && ConfigSchemas.AllDicts(KnownList(schema).entries) &&
      |HgiIds(KnownList(schema).entries).value| <= 1 &&
      (|HgiIds(KnownList(schema).entries).value| == 0 ==> !HasUnclassedGateway(KnownList(schema).entries))
    ensures !schema.Dict? || (schema.Dict? && !KnownList(schema).Dict?) ==>
      HgiIdForSchema(schema, portIdx) == Err(AttributeError)
    ensures HgiIdForSchema(schema, portIdx).Ok? ==>
      var (id, fw) := HgiIdForSchema(schema, portIdx).value;
      var es := KnownList(schema).entries;
      if HgiIds(es).value == [] then id == PortId(portIdx) && fw == Str(DefaultFwName)
      else
        (exists i :: 0 <= i < |es| && es[i].key == id && IsHgiEntry(es[i])) &&
        HasKey(es, id) && Lookup(es, id).value.Dict? &&
        fw == Lookup(Lookup(es, id).value.entries, FwTypeKey).GetOr(Str(DefaultFwName))
  {
    if schema.Dict? && KnownList(schema).Dict? && ConfigSchemas.AllDicts(KnownList(schema).entries) {
      var es := KnownList(schema).entries;
      if |HgiIds(es).value| == 1 {
        HgiIdsAreHgiEntries(es);
        assert HgiIds(es).value[0] in HgiIds(es).value;
        HgiIdsAreKeys(es, HgiIds(es).value[0]);
      }
    }
  }

  /** Two gateway-classed entries raise TypeError, whatever the port. */
  lemma TwoGatewaysRejected(schema: Value, portIdx: nat, a: nat, b: nat)
    requires schema.Dict? && KnownList(schema).Dict?
    requires ConfigSchemas.AllDicts(KnownList(schema).entries)
    requires a < b < |KnownList(schema).entries|
    requires IsHgiEntry(KnownList(schema).entries[a]) && IsHgiEntry(KnownList(schema).entries[b])
    ensures HgiIdForSchema(schema, portIdx) == Err(TypeError)
  {
    var es := KnownList(schema).entries;
    HgiIdsCountsEntries(es, a, b);
  }

  lemma {:induction false} HgiIdsCountsEntries(es: seq<Entry>, a: nat, b: nat)
    requires ConfigSchemas.AllDicts(es) && a < b < |es|
    requires IsHgiEntry(es[a]) && IsHgiEntry(es[b])
    ensures |HgiIds(es).value| >= 2
  {
    assert es[1..][b - 1] == es[b];
    if a == 0 {
      HgiIdsAreHgiEntries(es[1..]);
      assert es[b].key in HgiIds(es[1..]).value;
    } else {
      assert es[1..][a - 1] == es[a];
      HgiIdsCountsEntries(es[1..], a - 1, b - 1);
    }
  }

  /** A schema that names its gateway, class and firmware, gets exactly
    * that gateway back. */
  lemma NamedGatewayKept(id: string, fw: Value, portIdx: nat)
    ensures var traits := Dict([Entry(ClassKey, Str(HgiClass)), Entry(FwTypeKey, fw)]);
      HgiIdForSchema(Dict([Entry(KnownListKey, Dict([Entry(id, traits)]))]), portIdx) == Ok((id, fw))
  {
    var traits := Dict([Entry(ClassKey, Str(HgiClass)), Entry(FwTypeKey, fw)]);
    var es := [Entry(id, traits)];
    assert es[1..] == [];
    assert IsHgiEntry(es[0]);
    assert HgiIds(es[1..]) == Ok([]);
    assert [es[0].key] + HgiIds(es[1..]).value == [id];
    assert HgiIds(es) == Ok([id]);
    var schema := Dict([Entry(KnownListKey, Dict(es))]);
    assert KnownList(schema) == Dict(es);
    assert Lookup(es, id) == Some(traits);
    assert ClassKey != FwTypeKey;
    assert traits.entries[1..] == [Entry(FwTypeKey, fw)];
    assert Lookup(traits.entries, FwTypeKey) == Some(fw);
  }

  /** The firmware is read from the `_type` trait only: a gateway whose
    * traits spell it under another key (as `fw_version`) is attached as an
    * evofw3. */
  lemma OnlyTypeTraitNamesFirmware(id: string, key: string, fwName: string, portIdx: nat)
    requires key != FwTypeKey && key != ClassKey
    ensures var traits := Dict([Entry(ClassKey, Str(HgiClass)), Entry(key, Str(fwName))]);
      SchemaGateway(Dict([Entry(KnownListKey, Dict([Entry(id, traits)]))]), portIdx) == Ok((id, VirtualRf.Evofw3))
  {
    var traits := Dict([Entry(ClassKey, Str(HgiClass)), Entry(key, Str(fwName))]);
    var es := [Entry(id, traits)];
    assert es[1..] == [];
    assert IsHgiEntry(es[0]);
    assert HgiIds(es[1..]) == Ok([]);
    assert [es[0].key] + HgiIds(es[1..]).value == [id];
    assert HgiIds(es) == Ok([id]);
    var schema := Dict([Entry(KnownListKey, Dict(es))]);
    assert KnownList(schema) == Dict(es);
    assert Lookup(es, id) == Some(traits);
    assert ClassKey != FwTypeKey;
    assert traits.entries[1..][1..] == [];
    assert Lookup(traits.entries, FwTypeKey) == None;
    assert HgiIdForSchema(schema, portIdx) == Ok((id, Str(DefaultFwName)));
  }

  /** A schema with no known_list gets the port's derived gateway. */
  lemma EmptySchemaDerivesId(portIdx: nat)
    ensures HgiIdForSchema(EmptyDict, portIdx) == Ok((PortId(portIdx), Str(DefaultFwName)))
  {
  }

  // ---------------------------------------------------------------------
  // Firmware names

  /** The member name of a firmware type. */
  function FwName(fw: VirtualRf.FwType): string
  {
    match fw
    case Evofw3 => DefaultFwName
    case Hgi80 => Hgi80FwName
  }

  /** `HgiFwTypes.__members__[fw]`: a member's name gives that member, a
    * list or dict cannot be hashed, anything else is a missing key. */
  function FwMember(fw: Value): (r: Result<VirtualRf.FwType>)
    ensures r.Err? ==> r.error == (if fw.List? || fw.Dict? then TypeError else KeyError)
  {
    match fw
    case Str(s) =>
      if s == DefaultFwName then Ok(VirtualRf.Evofw3)
      else if s == Hgi80FwName then Ok(VirtualRf.Hgi80)
      else Err(KeyError)
    case List(_) => Err(TypeError)
    case Dict(_) => Err(TypeError)
    case _ => Err(KeyError)
  }

  /** The members and their names are the two sides of one table. */
  lemma FwMemberNames(fw: Value, t: VirtualRf.FwType)
    ensures FwMember(Str(FwName(t))) == Ok(t)
    ensures FwMember(fw) == Ok(t) <==> fw == Str(FwName(t))
  {
  }

  /** The gateway a schema puts on port `portIdx`: its id and firmware. */
  function SchemaGateway(schema: Value, portIdx: nat): (r: Result<(string, VirtualRf.FwType)>)
    ensures r.Ok? <==> HgiIdForSchema(schema, portIdx).Ok? && FwMember(HgiIdForSchema(schema, portIdx).value.1).Ok?
    ensures r.Ok? ==> (r.value.0 == HgiIdForSchema(schema, portIdx).value.0 &&
      Str(FwName(r.value.1)) == HgiIdForSchema(schema, portIdx).value.1)
  {
    match HgiIdForSchema(schema, portIdx)
    case Err(e) => Err(e)
    case Ok((id, fwName)) =>
      match FwMember(fwName)
      case Err(e) => Err(e)
      case Ok(fw) => Ok((id, fw))
  }

  /** Schemas without a known_list all get different gateways. */
  lemma DerivedGatewaysDiffer(i: nat, j: nat)
    requires i != j
    ensures SchemaGateway(EmptyDict, i).Ok? && SchemaGateway(EmptyDict, j).Ok?
    ensures SchemaGateway(EmptyDict, i).value.0 != SchemaGateway(EmptyDict, j).value.0
    ensures SchemaGateway(EmptyDict, i).value.1 == VirtualRf.Evofw3
  {
    EmptySchemaDerivesId(i);
    EmptySchemaDerivesId(j);
    if PortId(i) == PortId(j) {
      PortIdInjective(i, j);
    }
  }

  // ---------------------------------------------------------------------
  // The factory

  /** What each port gets from its schema: nothing for a `None` schema,
    * else the gateway it resolves to or the error resolving raises. */
  type Plan = seq<Option<Result<(string, VirtualRf.FwType)>>>

  function PlanOf(schemas: seq<Option<Value>>): (plan: Plan)
    ensures |plan| == |schemas|
    ensures forall i :: 0 <= i < |schemas| ==>
      plan[i] == if schemas[i].Some? then Some(SchemaGateway(schemas[i].value, i)) else None
  {
    seq(|schemas|, i requires 0 <= i < |schemas| =>
      if schemas[i].Some? then Some(SchemaGateway(schemas[i].value, i)) else None)
  }

  /** Every gateway of the plan resolves to an ASCII id, and no id is on
    * two ports. */
  ghost predicate Resolves(plan: Plan)
  {
    (forall i :: 0 <= i < |plan| && plan[i].Some? ==>
      plan[i].value.Ok? && VirtualRf.IsAscii(plan[i].value.value.0)) &&
    IdsDiffer(plan, |plan|)
  }

  /** No id among the first `k` ports' gateways is on two of them. */
  ghost predicate IdsDiffer(plan: Plan, k: nat)
    requires k <= |plan|
  {
    forall i, j :: 0 <= i < j < k && plan[i].Some? && plan[j].Some? && plan[i].value.Ok? && plan[j].value.Ok? ==>
      plan[i].value.value.0 != plan[j].value.value.0
  }

  /** The schemas the factory builds a network for: at most six, and
    * every gateway resolved. */
  ghost predicate Accepts(schemas: seq<Option<Value>>)
  {
    |schemas| <= MaxPorts && Resolves(PlanOf(schemas))
  }

  /** The table holds the gateways of the first `k` ports of the plan. */
  ghost predicate HasGateways(t: VirtualRf.GatewayTable, plan: Plan, ports: seq<VirtualRf.PortName>, k: nat)
    requires k <= |plan| <= |ports|
  {
    (forall p :: p in t ==> p in ports[..k]) &&
    forall i :: 0 <= i < k ==>
      (ports[i] in t <==> plan[i].Some?) &&
      (plan[i].Some? ==> (plan[i].value.Ok? &&
        var (id, fw) := plan[i].value.value;
        VirtualRf.IsAscii(id) && t[ports[i]] == VirtualRf.Gateway(id, fw, VirtualRf.Ascii(id))))
  }

  predicate Distinct<T(==)>(s: seq<T>)
  {
    forall i, j :: 0 <= i < j < |s| ==> s[i] != s[j]
  }

  /** A port without schema keeps the table of the first `k` ports. */
  lemma SkipPort(t: VirtualRf.GatewayTable, plan: Plan, ports: seq<VirtualRf.PortName>, k: nat)
    requires k < |plan| <= |ports| && Distinct(ports) && plan[k].None?
    requires HasGateways(t, plan, ports, k) && IdsDiffer(plan, k)
    ensures HasGateways(t, plan, ports, k + 1) && IdsDiffer(plan, k + 1)
  {
  }

  /** An id already on an earlier port means the plan does not resolve. */
  lemma TakenIdBlocks(t: VirtualRf.GatewayTable, plan: Plan, ports: seq<VirtualRf.PortName>, k: nat, id: string)
    requires k < |plan| <= |ports| && plan[k].Some? && plan[k].value.Ok? && plan[k].value.value.0 == id
    requires HasGateways(t, plan, ports, k)
    requires VirtualRf.OnAnotherPort(t, ports[k], id)
    ensures !Resolves(plan)
  {
    var p :| p in t && p != ports[k] && t[p].deviceId == id;
    var j :| 0 <= j < k && ports[..k][j] == p;
    assert plan[j].value.value.0 == id;
  }

  /** Attaching port `k`'s gateway, when its id is on no other port, grows
    * the table by that port. */
  lemma AttachPort(t: VirtualRf.GatewayTable, plan: Plan, ports: seq<VirtualRf.PortName>,
                   k: nat, id: string, fw: VirtualRf.FwType)
    requires k < |plan| <= |ports| && Distinct(ports) && plan[k] == Some(Ok((id, fw)))
    requires HasGateways(t, plan, ports, k) && IdsDiffer(plan, k)
    requires !VirtualRf.OnAnotherPort(t, ports[k], id) && VirtualRf.IsAscii(id)
    ensures HasGateways(t[ports[k] := VirtualRf.Gateway(id, fw, VirtualRf.Ascii(id))], plan, ports, k + 1)
    ensures IdsDiffer(plan, k + 1)
  {
    forall i | 0 <= i < k && plan[i].Some?
      ensures plan[i].value.value.0 != id
    {
      assert ports[i] != ports[k];
      assert ports[i] in t && t[ports[i]].deviceId == plan[i].value.value.0;
    }
    var t' := t[ports[k] := VirtualRf.Gateway(id, fw, VirtualRf.Ascii(id))];
    forall p | p in t'
      ensures p in ports[..k + 1]
    {
      if p != ports[k] {
        assert p in ports[..k];
      }
    }
  }

  /** The loop of `rf_factory` over the schemas: each schema's gateway is
    * attached to the port with the same index, or the first failure is
    * returned; a port without schema gets no gateway. */
  method AttachGateways(rf: VirtualRf.VirtualRf, schemas: seq<Option<Value>>) returns (r: Result<()>)
    requires |schemas| <= |rf.ports| && Distinct(rf.ports)
    requires rf.GatewaysValid() && rf.gateways == map[]
    modifies rf`gateways, rf`portInfo
    ensures rf.GatewaysValid()
    ensures r.Ok? <==> Resolves(PlanOf(schemas))
    ensures r.Ok? ==> HasGateways(rf.gateways, PlanOf(schemas), rf.ports, |schemas|)
  {
    ghost var plan := PlanOf(schemas);
    var k := 0;
    while k < |schemas|
      invariant 0 <= k <= |schemas|
      invariant rf.GatewaysValid()
      invariant HasGateways(rf.gateways, plan, rf.ports, k) && IdsDiffer(plan, k)
    {
      if schemas[k].None? {
        SkipPort(rf.gateways, plan, rf.ports, k);
      } else {
        var gw := SchemaGateway(schemas[k].value, k);
        assert plan[k] == Some(gw);
        if gw.Err? {
          return Err(gw.error);
        }
        var (id, fw) := gw.value;
        if VirtualRf.OnAnotherPort(rf.gateways, rf.ports[k], id) {
          TakenIdBlocks(rf.gateways, plan, rf.ports, k, id);
        } else if VirtualRf.IsAscii(id) {
          AttachPort(rf.gateways, plan, rf.ports, k, id, fw);
        }
        var attached := rf.SetGateway(rf.ports[k], id, Some(fw));
        if attached.Err? {
          return Err(attached.error);
        }
      }
      k := k + 1;
    }
    return Ok(());
  }

  /** `rf_factory` as it is written: `VirtualRf(len(schemas))` already
    * creates a port per schema, and the loop creates one more per schema,
    * so the network has twice as many ports as schemas.  The gateways sit
    * on the first half; the second half have none.  `names` are the port
    * names the system hands out, in creation order. */
  method RfFactoryAsWritten(schemas: seq<Option<Value>>, names: seq<VirtualRf.PortName>,
                            matches: (string, VirtualRf.Bytes) -> bool)
    returns (r: Result<VirtualRf.VirtualRf>)
    requires |names| == 2 * |schemas| && Distinct(names)
    ensures |schemas| > MaxPorts ==> r == Err(TypeError)
    ensures r.Ok? <==> Accepts(schemas)
    ensures r.Ok? ==> fresh(r.value) && r.value.ports == names && |r.value.ports| == 2 * |schemas|
    ensures r.Ok? ==> r.value.GatewaysValid() && r.value.LogValid() && r.value.traffic == []
    ensures r.Ok? ==> HasGateways(r.value.gateways, PlanOf(schemas), names, |schemas|)
    ensures r.Ok? ==> forall i :: |schemas| <= i < |names| ==> names[i] !in r.value.gateways
  {
    if |schemas| > MaxPorts {
      return Err(TypeError);
    }
    var rf := new VirtualRf.VirtualRf(names, LogSize, matches);
    var attached := AttachGateways(rf, schemas);
    if attached.Err? {
      return Err(attached.error);
    }
    return Ok(rf);
  }

  /** `rf_factory` with one port per schema: each schema's gateway on the
    * port with its index, a `None` schema a port without gateway. */
  method RfFactory(schemas: seq<Option<Value>>, names: seq<VirtualRf.PortName>,
                   matches: (string, VirtualRf.Bytes) -> bool)
    returns (r: Result<VirtualRf.VirtualRf>)
    requires |names| == |schemas| && Distinct(names)
    ensures |schemas| > MaxPorts ==> r == Err(TypeError)
    ensures r.Ok? <==> Accepts(schemas)
    ensures r.Ok? ==> fresh(r.value) && r.value.ports == names
    ensures r.Ok? ==> r.value.GatewaysValid() && r.value.LogValid() && r.value.traffic == []
    ensures r.Ok? ==> HasGateways(r.value.gateways, PlanOf(schemas), names, |schemas|)
  {
    if |schemas| > MaxPorts {
      return Err(TypeError);
    }
    var rf := new VirtualRf.VirtualRf(names, LogSize, matches);
    var attached := AttachGateways(rf, schemas);
    if attached.Err? {
      return Err(attached.error);
    }
    return Ok(rf);
  }
}
