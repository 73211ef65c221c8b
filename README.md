# ramses_cc, modelled in Dafny

A Dafny model of the core of `ramses_cc`, the Home Assistant integration for
RAMSES II heating and ventilation devices (evohome controllers, zones, stored
hot water, HVAC remotes) reached through an RF gateway, together with the
virtual RF network its test suite runs gateways on.

The model follows the source file by file, one module per file:

- `Outcomes`: `Option`, and `Result` with the Python exception kinds the code raises.
- `PyValues`: the JSON-like values configs and schemas are made of: dicts as insertion-ordered entry lists, truthiness, `in`, `[]`, `.get`.
- `Ids` (`custom_components/ramses_cc/schemas.py`): the regular expressions for device ids, codes and payloads, and the rendering of ids.
- `Modes` (`custom_components/ramses_cc/const.py`): the system and zone modes and the names services use for them.
- `LegacySchema` (`custom_components/ramses_cc/schema.py`): `is_subset`, `_merge`, the device-list and schema normalisation.
- `ServiceSchemas` (`custom_components/ramses_cc/schemas.py`): the service-call validators (bind, send packet, system, zone and DHW modes and parameters, faked sensors, remote commands).
- `ConfigSchemas` (`custom_components/ramses_cc/schemas.py`): `normalise_config`, `merge_schemas`, `schema_is_minimal`.
- `EvohomeSchema` (`custom_components/evohome_cc/schema.py`): `normalise_config_schema` of the older integration, and its packet, packet-log and mode schemas.
- `Climate` (`custom_components/ramses_cc/climate.py`): the controller and zone entities: modes and presets as HA shows them, and the requests they pass on.
- `WaterHeater` (`custom_components/ramses_cc/water_heater.py`): the DHW entity: operations and the requests it passes on.
- `Remote` (`custom_components/ramses_cc/remote.py`): the HVAC remote entity: its command table, learning and sending.
- `Broker` (`custom_components/ramses_cc/broker.py`): the broker: entity discovery, the device registry cache, client state, binding and packet sending.
- `VirtualRf` (`tests/virtual_rf/virtual_rf.py`): the virtual RF network: gateways on ports, frame handling before sending and after receiving, replies, the traffic log.
- `VirtualRfFactory` (`tests/virtual_rf/__init__.py`): `rf_factory` and the gateway a schema puts on a port.

Objects whose methods update their fields (the climate, water heater, remote
and broker entities, the virtual RF network) are classes whose methods state
their new state in terms of functions on values; the properties are proved
about those functions as lemmas.  Home Assistant, `ramses_rf` and the
operating system are outside the model: what the entities pass to them is an
action log, what they read from them is a parameter.

## Model

| member | source | states |
|---|---|---|
| Ids.ParseRender | custom_components/ramses_cc/schemas.py:213-215 | reading back a zero-padded rendering of a number that fits its width gives the number |
| Ids.RenderParse | custom_components/ramses_cc/schemas.py:213-215 | every digit string is the rendering of exactly one number below base to its length: rendering what was read gives the string back |
| Ids.Chomp | custom_components/ramses_cc/schemas.py:213-215 | the string that a pattern ending in `$` sees before a final newline: with the newline put back it is the input |
| Ids.DeviceIdShapeMeaning | custom_components/ramses_cc/schemas.py:213 | the device id pattern accepts exactly the renderings of a device type below 100 and a serial below 10^6 |
| Ids.DeviceIdRoundTrip | custom_components/ramses_cc/schemas.py:213 | a formatted device id is accepted and reads back as the type and serial it was made from |
| Ids.CmdCodeShapeMeaning | custom_components/ramses_cc/schemas.py:214 | the command code pattern accepts exactly the four-digit hex renderings of 16-bit numbers |
| Ids.DomIdxShapeMeaning | custom_components/ramses_cc/schemas.py:215 | the domain index pattern accepts exactly the two-digit hex renderings of bytes |
| Ids.HexBytesParse | custom_components/ramses_cc/schemas.py:238 | an even-length hex string is the hex of the bytes it spells |
| Ids.ParseHexBytes | custom_components/ramses_cc/schemas.py:238 | bytes written as hex read back as the same bytes |
| Ids.PayloadShapeMeaning | custom_components/ramses_cc/schemas.py:238 | the payload pattern accepts exactly the hex of one to 48 bytes |
| Modes.ParseSystemMode | custom_components/ramses_cc/const.py:84-94 | a string parses to a system mode only when it is that mode's value |
| Modes.ParseZoneMode | custom_components/ramses_cc/const.py:97-104 | a string parses to a zone mode only when it is that mode's value |
| Modes.SystemModeNamesRoundTrip | custom_components/ramses_cc/const.py:84-94 | every system mode is found by its own value, so the values are distinct |
| Modes.ZoneModeNamesRoundTrip | custom_components/ramses_cc/const.py:97-104 | every zone mode is found by its own value, so the values are distinct |
| LegacySchema.DictSubsetMeaning | custom_components/ramses_cc/schema.py:329-333 | whenever `_is_subset` of two dicts returns, it is true exactly when every key of the subset is in the superset with a value that is recursively a subset |
| LegacySchema.DictSubsetOnlyReadsOwnKeys | custom_components/ramses_cc/schema.py:329-333 | the superset's other keys play no part: two supersets that agree on the subset's keys give the same answer |
| LegacySchema.ListSubsetMeaning | custom_components/ramses_cc/schema.py:334-338 | whenever it returns, a non-empty list is a subset exactly when each item is a subset of some item the superset iterates to |
| LegacySchema.AllItemsCoveredMeaning | custom_components/ramses_cc/schema.py:335-338 | the `all(any(...))` loop holds exactly when every item is covered by some item of the superset |
| LegacySchema.AnyCoversMeaning | custom_components/ramses_cc/schema.py:336 | the `any(...)` loop holds exactly when some item of the superset covers the value |
| LegacySchema.Dedup | custom_components/ramses_cc/schema.py:360 | `list(set(...))` fails exactly when an element is unhashable; otherwise every element has an equal in the result, the result holds only elements of the input, and no two result elements are equal under Python's `==` |
| LegacySchema.MergeEntry | custom_components/ramses_cc/schema.py:356-362 | one item of `src` leaves a dict that holds its key and leaves every other key of `dst` as it was |
| LegacySchema.MergeLoop | custom_components/ramses_cc/schema.py:355-362 | the loop over `src` leaves every key that `src` lacks with `dst`'s value |
| LegacySchema.MergeSpec | custom_components/ramses_cc/schema.py:352-365 | `_merge` returns only a result that contains `src` (`_is_subset(src, result)`), and keys only in `dst` survive with their values |
| LegacySchema.Merge | custom_components/ramses_cc/schema.py:352-365 | the copy-then-update loop computes `MergeSpec`, so its result contains `src` |
| LegacySchema.MergeScalarOverrides | custom_components/ramses_cc/schema.py:361-362 | a scalar value of `src` replaces whatever `dst` held under its key |
| LegacySchema.MergeListUnion | custom_components/ramses_cc/schema.py:359-360 | a list value of `src` becomes the de-duplicated union with `dst`'s list under that key, and the merge succeeds only when `dst` holds a list there; the union keeps first occurrences in order, an order Python's `set` does not promise |
| LegacySchema.MergeNestedDictKept | custom_components/ramses_cc/schema.py:356-358 | a nested dict of `src` leaves `dst`'s value under that key unchanged, or `{}` when the key was missing: the recursive merge's result is dropped |
| LegacySchema.MergeEntryNestedDict | custom_components/ramses_cc/schema.py:356-358 | the same for a single item of `src` |
| LegacySchema.MergeNeedsNestedContained | custom_components/ramses_cc/schema.py:356-364 | `_merge` returns only when each nested dict of `src` was already contained in `dst`'s value under its key |
| LegacySchema.MergeNestedOverrideFails | custom_components/ramses_cc/test_schema.py:84 | the nested override the test expects ends in AssertionError |
| LegacySchema.MergeNestedUnionFails | custom_components/ramses_cc/test_schema.py:85 | the nested union the test expects ends in AssertionError |
| LegacySchema.MergeDocExampleFails | custom_components/ramses_cc/schema.py:347-350 | the docstring's deep-merge example does not return |
| LegacySchema.MergeDisjointKeys | custom_components/ramses_cc/test_schema.py:79 | `{"src": 1}` merged into `{"dst": 2}` keeps both keys |
| LegacySchema.MergeListMissingKey | custom_components/ramses_cc/schema.py:360 | a list under a key that `dst` lacks raises KeyError |
| LegacySchema.DeviceListEntries | custom_components/ramses_cc/schema.py:419-422 | the list comprehension yields exactly the ids the items name, a dict item its keys and a string item itself; in the model any other item raises TypeError, where Python also takes a non-string hashable item as a key (see Left out) |
| LegacySchema.FoldHints | custom_components/ramses_cc/schema.py:423 | the dict comprehension has the keys of both inputs, and leaves keys the entries lack as they were |
| LegacySchema.FoldHintsTruthy | custom_components/ramses_cc/schema.py:423-426 | no id is left with `None` or another falsy value as its hints |
| LegacySchema.FoldHintsValues | custom_components/ramses_cc/schema.py:426 | from a dict, each id keeps its hints, or `{}` for falsy hints |
| LegacySchema.NormaliseDeviceList | custom_components/ramses_cc/schema.py:414-426 | a dict always normalises; a list normalises exactly when every item is a string id or a dict (the model's only keys; see Left out), and then its keys are exactly the ids named; anything else raises AttributeError; every id maps to truthy hints or `{}` |
| LegacySchema.Stripped | custom_components/ramses_cc/schema.py:444-446 | the pops remove the two orphan keys and `controller`, and leave every other key |
| LegacySchema.LiftController | custom_components/ramses_cc/schema.py:439-449 | a falsy config becomes `{}`; a truthy list raises TypeError and a truthy scalar AttributeError; otherwise the result and the caller's rewritten dict are dicts (a non-string controller: see Left out) |
| LegacySchema.LiftedSchema | custom_components/ramses_cc/schema.py:447-449 | the lifted schema has exactly the keys `main_controller`, the controller id and the two orphan lists, with the controller's rest under its id |
| LegacySchema.FlatSchema | custom_components/ramses_cc/schema.py:448-449 | the flat schema adds the two orphan lists and keeps every other key |
| LegacySchema.LiftKeepsOrphans | custom_components/ramses_cc/schema.py:444-449 | both orphan lists end in the normalised schema, defaulting to `[]` |
| LegacySchema.LiftDropsController | custom_components/ramses_cc/schema.py:446-447 | the `controller` key leaves the normalised schema (unless the id is the word `controller`) and the caller's dict, which keeps every other key |
| LegacySchema.LiftWithoutController | custom_components/ramses_cc/schema.py:446-449 | without a truthy controller the schema stays flat and is the caller's dict |
| LegacySchema.LiftWithController | custom_components/ramses_cc/schema.py:446-449 | a truthy string controller is lifted, giving `{"main_controller": ctl, ctl: rest}` plus the orphan lists; any other truthy controller is refused, where Python lifts a non-string hashable one too (see Left out) |
| LegacySchema.ChooseSchema | custom_components/ramses_cc/schema.py:451-465 | no cached schema gives the config; a cached schema that contains the config after `shrink` is used unchanged; otherwise the merge, which contains the config; every result contains the config after `shrink` |
| LegacySchema.NormaliseSchema | custom_components/ramses_cc/schema.py:430-472 | `_normalise_schema` fails with the lifting's error, or chooses the schema from the lifted config and the cached one |
| LegacySchema.NormaliseSchemaIgnoresRestoreCache | custom_components/ramses_cc/schema.py:433-437 | the `restore_cache` flag does not change the result |
| LegacySchema.NormaliseSchemaUncached | custom_components/ramses_cc/schema.py:451-456 | with no cached schema the result is the normalised config |
| LegacySchema.NormaliseSchemaEmptyCases | custom_components/ramses_cc/test_schema.py:12-13 | `None` and `{}` normalise to `{}` |
| LegacySchema.NormaliseSchemaNullController | custom_components/ramses_cc/test_schema.py:14-19 | a `None` controller gives just the two empty orphan lists |
| LegacySchema.NormaliseSchemaControllerCase | custom_components/ramses_cc/test_schema.py:20-33 | a controller id maps to `{}`, not the skeleton the test expects |
| LegacySchema.CachedSchema | custom_components/ramses_cc/schema.py:404 | the stored schema is `client_state.schema`, or `{}` when the storage has no client state or the state no schema |
| LegacySchema.MoveLibrarySection | custom_components/ramses_cc/schema.py:372 | the `ramses_rf` section moves to `config` (KeyError when it is missing) and nothing else changes |
| LegacySchema.SplitSerialPort | custom_components/ramses_cc/schema.py:374-381 | a dict serial port yields its `port_name`, and its evofw flag (default `None`) and other settings go under `config`; any other serial port is itself the port |
| LegacySchema.NormaliseListAt | custom_components/ramses_cc/schema.py:383-384 | the list under the key is replaced by its normalised dict, and nothing else changes |
| LegacySchema.MovePacketLog | custom_components/ramses_cc/schema.py:386-393 | the packet log leaves the top level for `config`: absent gives `{}`, a dict moves as it is, anything else becomes `{file_name: value}` |
| LegacySchema.WidenRestoreCache | custom_components/ramses_cc/schema.py:395-399 | succeeds exactly when `restore_cache` is there and is a boolean or has a `restore_schema` item; a boolean b becomes `{restore_schema: b, restore_state: b}`, anything else is left as it was; the returned flag is what the (widened) `restore_cache` holds under `restore_schema`; no other key changes |
| LegacySchema.SplitLibraryAndPort | custom_components/ramses_cc/schema.py:372-381 | the first two statement groups (`SplitStage`): KeyError without `ramses_rf`; the port as above; `config` becomes the library section, with the evofw flag and the other serial settings of a dict serial port added; `serial_port` and `ramses_rf` are gone and keys other than the three moved are untouched |
| LegacySchema.NormaliseLists | custom_components/ramses_cc/schema.py:383-384 | both device lists are replaced by their normalised dicts (`ListsStage`), and nothing else changes |
| LegacySchema.MoveLogAndCache | custom_components/ramses_cc/schema.py:386-399 | the packet log leaves the top level for `config`; a boolean `restore_cache` is widened and any other kept; the returned flag is its `restore_schema` item (`LogAndCacheStage`); keys other than `config`, `packet_log` and `restore_cache` are untouched |
| LegacySchema.Prepare | custom_components/ramses_cc/schema.py:372-399 | everything before the schema, as the statement groups in order (`PrepareSpec`): the port, both normalised lists, the `schema` key untouched, the moved keys gone, KeyError without `ramses_rf` |
| LegacySchema.ListsLogAndCache | custom_components/ramses_cc/schema.py:383-399 | the steps after the serial port (`TailStage`): both normalised lists; `schema`, `serial_port` and `ramses_rf` untouched; the packet log moved into `config`; the flag read from the widened `restore_cache` |
| LegacySchema.SplitStageKeeps | custom_components/ramses_cc/schema.py:372-381 | the first two statement groups leave every key but `config`, `ramses_rf` and `serial_port` as it was |
| LegacySchema.SplitStagePort | custom_components/ramses_cc/schema.py:374-381 | the port is a dict serial port's `port_name`, or the serial port itself |
| LegacySchema.ListsStageKeeps | custom_components/ramses_cc/schema.py:383-384 | the device-list statements leave every key but the two lists as it was |
| LegacySchema.LogAndCacheStageKeeps | custom_components/ramses_cc/schema.py:386-399 | the packet-log and cache statements leave every key but `config`, `packet_log` and `restore_cache` as it was |
| LegacySchema.TailStageKeeps | custom_components/ramses_cc/schema.py:383-399 | the statements after the serial port leave every key they do not name as it was |
| LegacySchema.TailStageLists | custom_components/ramses_cc/schema.py:383-384 | after them both device lists are normalised |
| LegacySchema.TailStageLogAndCache | custom_components/ramses_cc/schema.py:386-399 | after them the packet log is under `config`, not at the top level, and the flag is the widened `restore_cache`'s `restore_schema` |
| LegacySchema.PrepareConfigSection | custom_components/ramses_cc/schema.py:372-393 | after the steps before the schema, `config` holds the `ramses_rf` section, with the evofw flag (default `None`) and `serial_config` of a dict serial port, and the packet log (`{}` when absent, a dict as it is, a name as `{file_name: name}`) |
| LegacySchema.PrepareKeepsOtherKeys | custom_components/ramses_cc/schema.py:368-399 | every key other than the seven those steps rewrite keeps its value |
| LegacySchema.PrepareRestoreFlag | custom_components/ramses_cc/schema.py:395-399 | the flag handed to the schema step is the rewritten `restore_cache`'s `restore_schema` |
| LegacySchema.PreparePort | custom_components/ramses_cc/schema.py:374-381 | the port returned is a dict serial port's `port_name`, or the serial port itself |
| LegacySchema.PrepareLists | custom_components/ramses_cc/schema.py:383-384 | both device lists come out normalised |
| LegacySchema.PrepareMovedKeys | custom_components/ramses_cc/schema.py:372-393 | `schema` is untouched, and `serial_port`, `ramses_rf` and `packet_log` are gone |
| LegacySchema.LibraryConfig | custom_components/ramses_cc/schema.py:407-408 | the library config drops exactly the integration's own keys |
| LegacySchema.PutBackSchema | custom_components/ramses_cc/schema.py:401-407 | the schema dict as `_normalise_schema` left it goes back under `schema` when there was one, and nothing else changes |
| LegacySchema.ResolveSchema | custom_components/ramses_cc/schema.py:401-405 | the schema step computes `NormaliseSchema` whatever the `restore_schema` flag |
| LegacySchema.HandOver | custom_components/ramses_cc/schema.py:407-410 | the library config lacks the integration's keys, holds the normalised schema dict under `schema` when there was one, and keeps every other key as it was |
| LegacySchema.SchemaAndHandOver | custom_components/ramses_cc/schema.py:401-410 | succeeds exactly when the stored schema can be read and the schema normalises against it; the schema is that result, and the library config is the hand-over of the prepared dict |
| LegacySchema.NormaliseHassConfig | custom_components/ramses_cc/schema.py:368-410 | `normalise_hass_config` raises KeyError without `ramses_rf`; otherwise returns the serial port; a library config without the integration's keys, `serial_port`, `packet_log` or `ramses_rf`, whose `config` is the library section with the serial settings and the packet log, whose lists are normalised, whose `schema` is the normalised schema dict, and whose other keys are as given; and the schema normalised against the stored one |
| ServiceSchemas.InRange | custom_components/ramses_cc/schemas.py:271 | a real passes `vol.Range` exactly when it lies between the bounds, and passes unchanged |
| ServiceSchemas.IntInRange | custom_components/ramses_cc/schemas.py:257 | an integer passes `vol.Range` exactly when it lies between the bounds, and passes unchanged |
| ServiceSchemas.Defaulted | custom_components/ramses_cc/schemas.py:356-361 | an optional real with a default is accepted exactly when the given value, or else the default, is in range, and that value is the result |
| ServiceSchemas.IntDefaulted | custom_components/ramses_cc/schemas.py:484-486 | the same for an optional integer with a default |
| ServiceSchemas.OptionalInRange | custom_components/ramses_cc/schemas.py:380-382 | an optional real without a default is accepted when absent or in range, and is kept as given |
| ServiceSchemas.OptionalIntInRange | custom_components/ramses_cc/schemas.py:338 | an optional integer without a default is accepted when absent or in range, and is kept as given |
| ServiceSchemas.Required | custom_components/ramses_cc/schemas.py:255 | a required key is accepted exactly when present, and its value is the result |
| ServiceSchemas.ValidateCo2Level | custom_components/ramses_cc/schemas.py:249-261 | `put_co2_level` accepts exactly a given level of 300 to 9999 and returns it |
| ServiceSchemas.ValidateDhwTemp | custom_components/ramses_cc/schemas.py:263-275 | `put_dhw_temp` accepts exactly a given temperature of 0 to 99 and returns it |
| ServiceSchemas.ValidateIndoorHumidity | custom_components/ramses_cc/schemas.py:277-289 | `put_indoor_humidity` accepts exactly a given humidity of 0 to 100 and returns it |
| ServiceSchemas.ValidateRoomTemp | custom_components/ramses_cc/schemas.py:291-303 | `put_room_temp` (and `fake_zone_temp`) accept exactly a given temperature of -20 to 60 and return it |
| ServiceSchemas.ValidateSetSystemMode | custom_components/ramses_cc/schemas.py:314-343 | `set_system_mode` accepts exactly a known system mode name with a duration of 1 to 24 hours or none and a period of 0 to 99 days or none; the result names the same mode and keeps both |
| ServiceSchemas.ValidateSetZoneConfig | custom_components/ramses_cc/schemas.py:345-366 | `set_zone_config` accepts exactly a max_temp of 21 to 35 and a min_temp of 5 to 21 (defaults 35 and 5); the three flags default to true |
| ServiceSchemas.ValidateSetZoneMode | custom_components/ramses_cc/schemas.py:368-395 | `set_zone_mode` accepts exactly one of the four listed zone modes, a setpoint of 5 to 35 or none, and a duration of 5 minutes to a day (one hour by default); the result keeps the mode, setpoint and until |
| ServiceSchemas.ValidateGetSystemFaults | custom_components/ramses_cc/schemas.py:404-415 | `get_system_faults` accepts exactly 1 to 64 entries, 8 by default, and returns that number |
| ServiceSchemas.ValidateSetDhwMode | custom_components/ramses_cc/schemas.py:438-464 | `set_dhw_mode` as the repeated keys of its dict literal make it: one of four zone modes, an optional active flag, a duration of 5 minutes to a day (one hour by default), and a required until |
| ServiceSchemas.ValidateSetDhwParams | custom_components/ramses_cc/schemas.py:466-491 | `set_dhw_params` accepts exactly a setpoint of 30 to 85, an overrun of 0 to 10 and a differential of 1 to 10 (defaults 50, 5 and 10) |
| ServiceSchemas.ValidateSendCommand | custom_components/ramses_cc/schemas.py:533-554 | `send_command` accepts exactly a command with 1 to 5 repeats (default 3) and a delay of 0.02 to 1.0 seconds (default 0.05) |
| ServiceSchemas.ValidateLearnCommand | custom_components/ramses_cc/schemas.py:519-531 | `learn_command` accepts exactly a command with a timeout of 30 to 300 seconds, 60 by default |
| ServiceSchemas.DefaultsAccepted | custom_components/ramses_cc/schemas.py:356-364 | every default the schemas supply is itself accepted: a call giving none of the optional keys validates to the defaults |
| ServiceSchemas.ZoneModeRevalidates | custom_components/ramses_cc/schemas.py:368-395 | an accepted zone mode call, written back with its resolved values, validates to the same call |
| ServiceSchemas.DhwModeRevalidates | custom_components/ramses_cc/schemas.py:438-464 | an accepted DHW mode call, written back with its resolved values, validates to the same call |
| ServiceSchemas.DhwParamsRevalidate | custom_components/ramses_cc/schemas.py:479-491 | accepted DHW parameters, written back in full, validate to the same parameters |
| ServiceSchemas.DhwModeNeedsUntil | custom_components/ramses_cc/schemas.py:462 | a `set_dhw_mode` call without an until is refused whatever else it holds |
| ServiceSchemas.MatchDeviceId | custom_components/ramses_cc/schemas.py:213 | a value passes the device id pattern exactly when it is a string of two digits, a colon and six digits |
| ServiceSchemas.MatchCmdCode | custom_components/ramses_cc/schemas.py:214 | a value passes the command code pattern exactly when it is a string of four upper-case hex digits |
| ServiceSchemas.MatchPayload | custom_components/ramses_cc/schemas.py:238 | a value passes the payload pattern exactly when it is a string of 1 to 48 whole upper-case hex bytes |
| ServiceSchemas.BindingsFrom | custom_components/ramses_cc/schemas.py:218 | a binding dict is accepted exactly when every key is a command code and every value is None or a domain index; the result keeps each entry's code and index in order |
| ServiceSchemas.ValidateBindings | custom_components/ramses_cc/schemas.py:223 | an offer is accepted only as a non-empty dict of bindings; an empty dict or a non-dict is refused |
| ServiceSchemas.ValidateConfirm | custom_components/ramses_cc/schemas.py:224-226 | `confirm` is empty exactly when absent or `{}`; otherwise it must be a non-empty binding dict |
| ServiceSchemas.ValidateDeviceInfo | custom_components/ramses_cc/schemas.py:227 | `device_info` is None exactly when absent or None; otherwise it is a string the command pattern accepts |
| ServiceSchemas.BindDeviceFrom | custom_components/ramses_cc/schemas.py:220-228 | an accepted binding request is a well-formed one whose every field is what its own validator returns |
| ServiceSchemas.ValidateBindDevice | custom_components/ramses_cc/schemas.py:220-230 | `bind_device` accepts only calls with known keys and a device id and offer present; each field of the result is what that key's validator gives for the call's value |
| ServiceSchemas.BindingsRoundTrip | custom_components/ramses_cc/schemas.py:218 | well-formed bindings written as a dict validate back to the same bindings |
| ServiceSchemas.BindingEntries | custom_components/ramses_cc/schemas.py:218 | a binding list written as a dict has one entry per binding, keyed by its code, in order |
| ServiceSchemas.BindDeviceCallFields | custom_components/ramses_cc/schemas.py:220-230 | a binding request written as call data holds only the schema's keys, each with the request's value |
| ServiceSchemas.BindDeviceRoundTrip | custom_components/ramses_cc/schemas.py:220-230 | every well-formed binding request, written as call data, validates back to itself |
| ServiceSchemas.EmptyOfferRefused | custom_components/ramses_cc/schemas.py:223 | a binding request whose offer is `{}` is refused |
| ServiceSchemas.ValidateFromId | custom_components/ramses_cc/schemas.py:235 | `from_id` is None exactly when absent; when given it must be a device id string, which is kept |
| ServiceSchemas.ValidateVerb | custom_components/ramses_cc/schemas.py:236 | a verb is accepted exactly when it is one of the six verb strings, and is kept |
| ServiceSchemas.SendPacketFrom | custom_components/ramses_cc/schemas.py:232-239 | the packet fields are accepted exactly as a well-formed packet request with those same fields |
| ServiceSchemas.ValidateSendPacket | custom_components/ramses_cc/schemas.py:232-240 | `send_packet` accepts only calls with known keys; each field of the result is the call's value for that key |
| ServiceSchemas.SendPacketCallFields | custom_components/ramses_cc/schemas.py:232-240 | a packet request written as call data holds only the schema's keys (from_id only when there is one), each with the request's value |
| ServiceSchemas.SendPacketRoundTrip | custom_components/ramses_cc/schemas.py:232-240 | every well-formed packet request, written as call data, validates back to itself |
| ServiceSchemas.PayloadNeeded | custom_components/ramses_cc/schemas.py:238 | a packet request without a payload is refused |
| ConfigSchemas.KeepKeys | custom_components/ramses_cc/schemas.py:159-161 | the key-filtering comprehension keeps exactly the keys on the chosen side of the filter, each with its value |
| ConfigSchemas.CommandsOf | custom_components/ramses_cc/schemas.py:153 | a known_list entry has remote commands exactly when its `commands` value is truthy, and they are that value |
| ConfigSchemas.WithoutCommands | custom_components/ramses_cc/schemas.py:151 | popping the commands removes only the `commands` key, and only from entries whose commands are truthy |
| ConfigSchemas.SplitRemotes | custom_components/ramses_cc/schemas.py:150-154 | after the comprehension every known_list entry keeps its id and loses only its truthy commands |
| ConfigSchemas.SplitRemotesKeys | custom_components/ramses_cc/schemas.py:150-154 | the remotes dict has a key exactly for the devices whose commands are truthy |
| ConfigSchemas.SplitRemotesLookup | custom_components/ramses_cc/schemas.py:150-154 | each such device's remote entry holds exactly its commands |
| ConfigSchemas.CollectRemotes | custom_components/ramses_cc/schemas.py:150-154 | the comprehension succeeds exactly when every known_list entry is a dict (else AttributeError) and then yields the remotes and stripped known_list |
| ConfigSchemas.Detached | custom_components/ramses_cc/schemas.py:146-148 | after the pops `ramses_rf` sits under `config`, neither `ramses_rf` nor `serial_port` remains, and every other key is unchanged |
| ConfigSchemas.DetachPort | custom_components/ramses_cc/schemas.py:146-148 | a missing `ramses_rf` or `serial_port` raises KeyError; otherwise the result is the port the extractor returns and the detached configuration |
| ConfigSchemas.NormaliseConfig | custom_components/ramses_cc/schemas.py:141-163 | `normalise_config` succeeds exactly when both keys are present, the port extracts and the known_list is a dict of dicts; it returns the port name, the client configuration and the broker configuration built from the split known_list |
| ConfigSchemas.KnownListIsClientKey | custom_components/ramses_cc/schemas.py:156 | the known_list is not one of the broker's keys, so it goes to the client |
| ConfigSchemas.ClientConfig | custom_components/ramses_cc/schemas.py:159-160 | the client configuration holds the port settings, the stripped known_list, `ramses_rf` as `config`, none of the broker's keys, no serial port, and every other key as given |
| ConfigSchemas.BrokerConfig | custom_components/ramses_cc/schemas.py:161-162 | the broker configuration holds the remotes, its own three keys as given, and nothing else |
| ConfigSchemas.MergeSchemas | custom_components/ramses_cc/schemas.py:166-180 | `merge_schemas` returns the cached schema when it already holds the configured one, else the merge when that holds it, else None; whatever it returns holds the configured schema |
| ConfigSchemas.FirstSensorDiffers | custom_components/ramses_cc/schemas.py:198 | the first zone's sensor check passes only when the zones are a non-empty dict whose first zone's sensor is the system's id |
| ConfigSchemas.CheckSystem | custom_components/ramses_cc/schemas.py:190-199 | the non-system keys are skipped; a system failing `SCH_MINIMUM_TCS` stops the loop with false; one that passes goes on only if its first zone's sensor is its own id |
| ConfigSchemas.SchemaIsMinimal | custom_components/ramses_cc/schemas.py:183-201 | the loop over the schema's entries returns the verdict of visiting them in order, stopping at the first that is not minimal |
| ConfigSchemas.MinimalMeaning | custom_components/ramses_cc/schemas.py:183-201 | a schema is minimal exactly when every entry passes its check; an empty schema is minimal |
| ConfigSchemas.MinimalIgnoresNonSystems | custom_components/ramses_cc/schemas.py:190-191 | removing the block_list, known_list and orphan keys does not change the verdict |
| ConfigSchemas.FailingSystemNotMinimal | custom_components/ramses_cc/schemas.py:193-196 | a system that fails `SCH_MINIMUM_TCS` makes the schema not minimal |
| EvohomeSchema.ValidatePacketLog | custom_components/evohome_cc/schema.py:58-67 | `PACKET_LOG_SCHEMA` accepts exactly a dict of only the three keys, a string file name, `rotate_bytes` absent, None or an int, and `rotate_count` absent or an int of 0 to 7; the result is the file name, the byte limit or None, and the count, 7 by default |
| EvohomeSchema.PacketLogFromName | custom_components/evohome_cc/schema.py:60-64 | a bare file name gets the defaults: no byte limit and seven backups |
| EvohomeSchema.DropScanInterval | custom_components/evohome_cc/schema.py:284-285 | a missing scan interval raises KeyError and leaves the dict as it was; otherwise the scan interval and send_packet go and every other key stays |
| EvohomeSchema.SetInConfig | custom_components/evohome_cc/schema.py:289 | writing into `config` raises KeyError when it is missing and TypeError when it is not a dict; otherwise only that key of `config` changes |
| EvohomeSchema.SerialSettings | custom_components/evohome_cc/schema.py:288-290 | the serial settings lose the port name and the evofw flag and keep every other key |
| EvohomeSchema.DetachSettings | custom_components/evohome_cc/schema.py:289-290 | a serial port dict moves its evofw flag (None by default) and remaining settings under `config`, and the top-level key goes |
| EvohomeSchema.DetachSerialPort | custom_components/evohome_cc/schema.py:287-293 | a serial port dict must name its port and gives it up; anything else is the port name itself; either way the key goes and the other keys stay |
| EvohomeSchema.MovePacketLog | custom_components/evohome_cc/schema.py:295-302 | the packet log moves under `config` (`{}` when absent, a dict as it is, a name as a full packet log dict); anything else is refused |
| EvohomeSchema.IdsToDict | custom_components/evohome_cc/schema.py:304-305 | the id dict has exactly the given ids as keys, each once, all mapping to None; it exists exactly when every id is a string, the model's only key (see Left out) |
| EvohomeSchema.IdListToDict | custom_components/evohome_cc/schema.py:304 | a missing id list raises KeyError; a list of string ids becomes its id dict and nothing else changes; a non-string id raises TypeError in the model (see Left out) |
| EvohomeSchema.IdListsToDicts | custom_components/evohome_cc/schema.py:304-305 | both id lists become id dicts, in order, and nothing else changes |
| EvohomeSchema.PacketLogAndIdLists | custom_components/evohome_cc/schema.py:295-305 | the packet log and both id lists are rewritten exactly when each is usable, touching no other key |
| EvohomeSchema.PacketLogAndIdListsContent | custom_components/evohome_cc/schema.py:295-305 | where the packet log and the id lists end up |
| EvohomeSchema.DetachAndMove | custom_components/evohome_cc/schema.py:287-305 | the serial port, the packet log and the id lists are rewritten exactly when all are usable; the port name is returned and no other key changes |
| EvohomeSchema.DetachAndMoveContent | custom_components/evohome_cc/schema.py:287-305 | where the serial settings, the packet log and the id lists end up |
| EvohomeSchema.HassConfig.NormaliseConfigSchema | custom_components/evohome_cc/schema.py:281-307 | `normalise_config_schema` rewrites the dict step by step; the first step that raises ends the call with the dict as it stands, and the result and final dict are those of `Normalise` |
| EvohomeSchema.NormaliseSucceeds | custom_components/evohome_cc/schema.py:281-307 | the call succeeds exactly when every key it reads is there with a usable shape |
| EvohomeSchema.NormaliseNeedsScanInterval | custom_components/evohome_cc/schema.py:284 | without a scan interval KeyError is raised and nothing changes |
| EvohomeSchema.NormalisePortName | custom_components/evohome_cc/schema.py:287-293 | the returned port name is the dict's `port_name`, or the value itself |
| EvohomeSchema.NormaliseDropsKeys | custom_components/evohome_cc/schema.py:284-302 | the scan interval, send_packet, serial port and packet log keys are gone afterwards |
| EvohomeSchema.NormaliseKeepsKeys | custom_components/evohome_cc/schema.py:281-307 | every key the rewrite does not touch keeps its value |
| EvohomeSchema.NormaliseIdLists | custom_components/evohome_cc/schema.py:304-305 | each id list becomes a dict with its ids as keys |
| EvohomeSchema.NormaliseConfigKey | custom_components/evohome_cc/schema.py:289-302 | afterwards `config` holds the packet log, and for a serial port dict its evofw flag and settings; every other key of it is as it was |
| EvohomeSchema.ValidateEvohomePacket | custom_components/evohome_cc/schema.py:76-83 | `SEND_PACKET_SCHEMA` accepts only calls with its four keys; each field of the result is the call's value for that key, and a well-formed packet |
| EvohomeSchema.EvohomePacketCallFields | custom_components/evohome_cc/schema.py:76-83 | a packet request written as call data holds only the four keys, each with the request's value |
| EvohomeSchema.EvohomePacketRoundTrip | custom_components/evohome_cc/schema.py:76-83 | every well-formed packet request, written as call data, validates back to itself |
| EvohomeSchema.HexRunAndPayload | custom_components/evohome_cc/schema.py:81 | this payload pattern admits an odd number of hex digits, which the later integration's refuses; even-length runs are accepted by both |
| EvohomeSchema.ValidateSystemModeRequest | custom_components/evohome_cc/schema.py:85-110 | the first of three schemas that accepts wins: accepted exactly when there is a mode and it is in the lookup alone, eco_boost with 1 to 24 hours, or away, custom or day_off with 0 to 99 days; past the first schema, eco_boost gets its hours (1 hour by default) and the others their period (0 by default) |
| EvohomeSchema.EcoBoostDefault | custom_components/evohome_cc/schema.py:85-110 | the one-hour default for eco_boost applies only when the first schema does not already accept eco_boost bare |
| EvohomeSchema.OptionalMode | custom_components/evohome_cc/schema.py:154 | an optional mode is accepted exactly when absent or the name of one of the schema's listed modes, and is that mode |
| EvohomeSchema.ValidateZoneModeRequest | custom_components/evohome_cc/schema.py:152-184 | accepted exactly when one of the three schemas accepts: follow the schedule alone; a permanent or advanced override with a setpoint of 5 to 30 (default 21); a temporary override with that setpoint and at most one of until and a duration of 5 minutes to a day; the first that accepts gives the mode, the setpoint with its default, and until and duration as given |
| EvohomeSchema.ZoneModeDefaults | custom_components/evohome_cc/schema.py:164-184 | a permanent override without a setpoint gets 21; a temporary override keeps its until; a schedule with a setpoint is refused |
| EvohomeSchema.ValidateDhwModeRequest | custom_components/evohome_cc/schema.py:217-229 | accepted exactly when the mode is absent or schedule, permanent or temporary, at most one of until and duration is given, and a duration is 5 minutes to a day; the request keeps that mode, the active flag, until and duration |
| EvohomeSchema.ValidateDhwConfig | custom_components/evohome_cc/schema.py:231-246 | accepted exactly when the setpoint is 30 to 85, the overrun 0 to 10 and the differential 0 to 10 (defaults 50, 5 and 1) |
| EvohomeSchema.ValidateZoneTemp | custom_components/evohome_cc/schema.py:186-192 | accepted exactly when a temperature of -20 to 99 is given, which is returned |
| Climate.PresetZoneInverse | custom_components/ramses_cc/climate.py:97-102 | the HA-to-zone preset table is the exact inverse of the zone-to-HA one |
| Climate.PresetTcsRoundTrip | custom_components/ramses_cc/climate.py:68-84 | every system mode has a preset that HA can also set, and each preset HA can set reads back as itself |
| Climate.ModeTcsRoundTrip | custom_components/ramses_cc/climate.py:57-66 | heat and off read back as themselves, but auto is sent as auto_with_reset and reads back as heat |
| Climate.ModeZoneRoundTrip | custom_components/ramses_cc/climate.py:86-95 | the zone table maps HA heat and auto to zone modes that read back as the same HA mode; off has no entry |
| Climate.HvacActionOf | custom_components/ramses_cc/climate.py:194-207 | `hvac_action` of a controller or zone: unknown without a system mode, off for heat_off, heating for a truthy heat demand, idle for a zero demand, otherwise unknown |
| Climate.ControllerHvacMode | custom_components/ramses_cc/climate.py:209-219 | the controller's `hvac_mode` is unknown without a system mode, off for heat_off, auto for away, heat otherwise |
| Climate.ControllerHvacModeMatchesTable | custom_components/ramses_cc/climate.py:57-61 | for each system mode in the mode table the controller reports what the table says |
| Climate.ControllerPresetMode | custom_components/ramses_cc/climate.py:221-227 | the controller's `preset_mode` is unknown without a system mode; otherwise it is a preset HA can set, and the one that sets that system mode when there is one |
| Climate.PresetTcsValues | custom_components/ramses_cc/climate.py:68-84 | the system modes HA can set are exactly those other than day_off_eco, heat_off and auto_with_reset, and each reads back as the preset that sets it |
| Climate.ControllerPresetRoundTrip | custom_components/ramses_cc/climate.py:221-248 | a preset set on the controller reads back as that preset |
| Climate.SystemModeUntil | custom_components/ramses_cc/climate.py:273-283 | the end of a system mode override: now plus the duration when there is one; for a whole number of days the first midnight after now plus the period; now plus any other period; no end without either |
| Climate.MidnightAfter | custom_components/ramses_cc/climate.py:278-281 | the midnight the whole-day rule picks falls after now plus the period and no more than a day later |
| Climate.Controller.SetSystemMode | custom_components/ramses_cc/climate.py:265-286 | `async_set_system_mode` passes the mode with the end `SystemModeUntil` gives, and changes nothing else |
| Climate.Controller.SetHvacMode | custom_components/ramses_cc/climate.py:241-243 | `set_hvac_mode` passes the table's system mode with no end |
| Climate.Controller.SetPresetMode | custom_components/ramses_cc/climate.py:246-248 | `set_preset_mode` passes the table's system mode with no end; a preset missing from the table raises KeyError and nothing is sent |
| Climate.Controller.ResetSystemMode | custom_components/ramses_cc/climate.py:258-262 | `async_reset_system_mode` passes one reset and changes nothing else |
| Climate.Controller.GetSystemFaults | custom_components/ramses_cc/climate.py:252-256 | `async_get_system_faults` asks for the given number of fault log entries |
| Climate.ZoneMinTemp | custom_components/ramses_cc/climate.py:376-381 | `min_temp` is the configured minimum, and 5 without a config |
| Climate.ZoneMaxTemp | custom_components/ramses_cc/climate.py:369-374 | `max_temp` is the configured maximum, and 35 without a config |
| Climate.ZoneHvacMode | custom_components/ramses_cc/climate.py:349-367 | a zone's `hvac_mode`: away gives auto and heat_off gives off, before anything else; otherwise unknown without a mode or setpoint; with a setpoint, off exactly for a known config and a setpoint at or below its minimum, and heat otherwise |
| Climate.ZoneOffNeedsConfig | custom_components/ramses_cc/climate.py:360-381 | without a known config a zone is never off by its setpoint, though its reported minimum is then 5 |
| Climate.ZonePresetMode | custom_components/ramses_cc/climate.py:383-400 | a zone's `preset_mode`: away and heat_off systems impose their preset; otherwise none without a zone status; a zone following its schedule shows the system's preset; any other zone mode its own preset when the table has one |
| Climate.SystemOverridesZone | custom_components/ramses_cc/climate.py:349-400 | under an away or heat_off system every zone reports the same mode and preset whatever its own status, and they agree with the controller |
| Climate.OverrideUntil | custom_components/ramses_cc/climate.py:468-469 | an explicit until is kept; only without one does a duration count from now |
| Climate.ZoneOffSendsMethod | custom_components/ramses_cc/climate.py:414-415 | as written, turning a zone off passes a bound method where a zone mode belongs |
| Climate.ZoneHvacRequestAsWritten | custom_components/ramses_cc/climate.py:407-415 | as written: auto resets the zone mode, heat sets a setpoint of 25, and off, exactly, passes the method `set_frost_mode` as the mode |
| Climate.ZoneHvacRequest | custom_components/ramses_cc/climate.py:407-415 | as intended, auto resets the zone mode, heat sets a permanent override (which reads back as heat) with a setpoint, and off puts the zone in frost mode |
| Climate.ZoneHvacRequestFixed | custom_components/ramses_cc/climate.py:407-415 | the corrected request differs from the code as written only for off, and never passes the method as a mode |
| Climate.Zone.SetZoneMode | custom_components/ramses_cc/climate.py:459-471 | `async_set_zone_mode` passes the mode and setpoint with the end `OverrideUntil` gives, and changes nothing else |
| Climate.Zone.SetHvacMode | custom_components/ramses_cc/climate.py:407-415 | `set_hvac_mode` passes the corrected request |
| Climate.Zone.SetPresetMode | custom_components/ramses_cc/climate.py:417-423 | `set_preset_mode` passes the table's zone mode, with the current target temperature only for the permanent preset; an unknown preset raises KeyError and nothing is sent |
| Climate.Zone.SetTemperature | custom_components/ramses_cc/climate.py:425-428 | `set_temperature` passes only a setpoint, with no mode and no end |
| Climate.Zone.ResetZoneMode | custom_components/ramses_cc/climate.py:447-451 | `async_reset_zone_mode` passes one reset and changes nothing else |
| WaterHeater.OperationsAreTableKeys | custom_components/ramses_cc/water_heater.py:43-48 | the operation list is exactly the mode table's keys, each once |
| WaterHeater.CurrentOperation | custom_components/ramses_cc/water_heater.py:104-116 | `current_operation` is unknown exactly when the device reports no mode; auto exactly for follow_schedule; on exactly for an active permanent override; boost exactly for any other active override; off for every inactive override |
| WaterHeater.IsAwayModeOn | custom_components/ramses_cc/water_heater.py:133-139 | `is_away_mode_on` is unknown exactly when the system mode is, and true exactly when it is away |
| WaterHeater.AwayModeMatchesController | custom_components/ramses_cc/water_heater.py:133-139 | the water heater's away mode is on exactly when the controller reports the away preset and the auto HVAC mode |
| WaterHeater.OperationRequest | custom_components/ramses_cc/water_heater.py:146-159 | `set_operation_mode` asks for the table's zone mode; active is unset exactly for auto and false exactly for off; only boost has an end, one hour from now |
| WaterHeater.OperationRoundTrip | custom_components/ramses_cc/water_heater.py:104-159 | setting any operation and reading the device back gives that operation |
| WaterHeater.WaterHeater.SetDhwMode | custom_components/ramses_cc/water_heater.py:191-203 | `async_set_dhw_mode` passes the mode and active flag with the end `OverrideUntil` gives, and changes nothing else |
| WaterHeater.WaterHeater.SetDhwParams | custom_components/ramses_cc/water_heater.py:205-218 | `async_set_dhw_params` passes the three parameters as given |
| WaterHeater.WaterHeater.SetOperationMode | custom_components/ramses_cc/water_heater.py:146-159 | `set_operation_mode` passes exactly the request `OperationRequest` gives |
| WaterHeater.WaterHeater.SetTemperature | custom_components/ramses_cc/water_heater.py:161-163 | `set_temperature` passes only the setpoint; overrun and differential are None |
| WaterHeater.WaterHeater.ResetDhwMode | custom_components/ramses_cc/water_heater.py:173-177 | `async_reset_dhw_mode` passes one mode reset |
| WaterHeater.WaterHeater.ResetDhwParams | custom_components/ramses_cc/water_heater.py:179-183 | `async_reset_dhw_params` passes one parameter reset |
| WaterHeater.WaterHeater.SetDhwBoost | custom_components/ramses_cc/water_heater.py:185-189 | `async_set_dhw_boost` passes one boost request |
| Remote.AsList | custom_components/ramses_cc/remote.py:111 | a bare name becomes a one-element list; a list of names is kept |
| Remote.OneName | custom_components/ramses_cc/remote.py:136-138 | learn and send accept exactly one name, which is the result; anything else raises TypeError |
| Remote.LearntIsHeard | custom_components/ramses_cc/remote.py:145-168 | what is learnt is either what was stored already or the packet of an event that passed the filter |
| Remote.LearntStep | custom_components/ramses_cc/remote.py:151-168 | hearing an event in time stores its packet if it passes the filter, and the wait ends once a non-empty packet is stored |
| Remote.LearntOnlyMatching | custom_components/ramses_cc/remote.py:145-149 | with no event from this remote with code 22F1, 22F3 or 22F7 heard in time, nothing is learnt |
| Remote.LearntFirst | custom_components/ramses_cc/remote.py:164-168 | in time-ordered events the first matching non-empty packet heard before the deadline is the one learnt |
| Remote.AfterLearning | custom_components/ramses_cc/remote.py:142-156 | after learning the name is in the table exactly when a packet was learnt, and holds that packet |
| Remote.AfterLearningKeeps | custom_components/ramses_cc/remote.py:142-156 | learning leaves every other entry of the table as it was |
| Remote.AfterLearningStore | custom_components/ramses_cc/remote.py:156 | storing a packet under the name replaces whatever the name held |
| Remote.AfterLearningAgain | custom_components/ramses_cc/remote.py:142-143 | deleting the name first and then learning is the same as learning |
| Remote.Repeated | custom_components/ramses_cc/remote.py:209-212 | a send is the frame `num_repeats` times with one pause between each two transmissions |
| Remote.RepeatedCounts | custom_components/ramses_cc/remote.py:209-212 | a send transmits exactly `num_repeats` times and pauses exactly `num_repeats - 1` times, starting and ending with a transmission |
| Remote.Remote.constructor | custom_components/ramses_cc/remote.py:89 | the initial table is the broker's stored table for this remote, or empty |
| Remote.Remote.DeleteCommand | custom_components/ramses_cc/remote.py:96-117 | `async_delete_command` fails its `assert not kwargs` with AssertionError, changing nothing, exactly when extra keyword arguments are given; otherwise it removes exactly the named entries, absent names are ignored and the other entries keep their values |
| Remote.Remote.LearnCommand | custom_components/ramses_cc/remote.py:119-171 | `async_learn_command` raises TypeError for anything but one name, then AssertionError for extra keyword arguments, changing nothing; otherwise the table is the old one with that name's entry replaced by what was learnt, and the broker's learn_device_id is None afterwards |
| Remote.Remote.Listen | custom_components/ramses_cc/remote.py:158-171 | the wait stores the learnt packet under the name, exactly as `Learnt` describes |
| Remote.Remote.Hear | custom_components/ramses_cc/remote.py:145-156 | the listener stores a filtered event's packet under the name |
| Remote.Remote.SendCommand | custom_components/ramses_cc/remote.py:173-214 | `async_send_command` checks one name (TypeError), no hold time (TypeError), no extra keyword arguments (AssertionError), a known name (LookupError) and a faked device (TypeError), in that order, raising before any transmission; then it transmits the stored frame `num_repeats` times with pauses between and asks for a refresh |
| Broker.NewEntities | custom_components/ramses_cc/broker.py:291 | the new entities are exactly those of the client's list whose identity (id and class) was not announced, whatever state they were announced in; none when every identity is known |
| Broker.NewEntitiesAppend | custom_components/ramses_cc/broker.py:291 | the filter distributes over concatenation, so new entities keep the client's order |
| Broker.FindNewEntities | custom_components/ramses_cc/broker.py:288-292 | `find_new_entities` returns the known list, the same entities in the same order, extended by the new entities, which are exactly the current ones with an unknown identity; every current identity is in the extended list |
| Broker.Current | custom_components/ramses_cc/broker.py:291 | an identity has a record in the client's list exactly when some listed entity has it, and the record found has it |
| Broker.CurrentOfUnique | custom_components/ramses_cc/broker.py:291 | in a list holding each entity once, an entity's record is found by its identity |
| Broker.Sync | custom_components/ramses_cc/broker.py:294-306 | the known lists hold the client's own objects, so each announced entity is read in the state the client gives it now: same length, same identities |
| Broker.ListedEntitiesKnown | custom_components/ramses_cc/broker.py:288-292 | after the diff every entity of the client's list is in the known list, in its current state |
| Broker.ChangedEntityNotNew | custom_components/ramses_cc/broker.py:291 | an announced entity whose name, product information or parents changed is not new, and the known list holds it in its new state |
| Broker.FindNewEntitiesAgain | custom_components/ramses_cc/broker.py:288-292 | for a client list holding each entity once, diffing the extended list against it again finds nothing new and changes nothing |
| Broker.EvohomeSystems | custom_components/ramses_cc/broker.py:296 | the candidate systems are exactly the client's evohome systems |
| Broker.EvohomeZones | custom_components/ramses_cc/broker.py:300 | the candidate zones are exactly the zones of evohome systems |
| Broker.EvohomeDhws | custom_components/ramses_cc/broker.py:304 | the candidate hot water entities are exactly those of evohome systems that have one |
| Broker.DiscoverAgain | custom_components/ramses_cc/broker.py:294-306 | an update against unchanged client lists, each holding an entity once, finds no new entity of any kind |
| Broker.DiscoverFindsNew | custom_components/ramses_cc/broker.py:294-306 | the new systems, zones, DHWs and devices are exactly the evohome ones (and the client's devices) whose identity is not yet known; each extended list is the known one followed by the new entities |
| Broker.AddTo | custom_components/ramses_cc/broker.py:278-286 | adding entities to a platform does nothing exactly when the list is empty |
| Broker.OfClass | custom_components/ramses_cc/broker.py:317-322 | the isinstance filter keeps exactly the entities of the class |
| Broker.Announcements | custom_components/ramses_cc/broker.py:311-326 | an update announces something exactly when it found a new entity |
| Broker.UpdateActions | custom_components/ramses_cc/broker.py:311-332 | after the diff an update saves the client state when anything is new, and only the update signal, its last action, otherwise |
| Broker.DeviceName | custom_components/ramses_cc/broker.py:234-241 | a device's name is its own when it has one; else "Controller <id>" for a system; else "<slug> <id>" when it has a slug; else the bare id; an unnamed device's name always ends in its id |
| Broker.InfoOf | custom_components/ramses_cc/broker.py:233-262 | the registry entry has the device's id and name; its model is the product description when the device reported one, else its slug; a zone hangs off its controller, any other child off its parent |
| Broker.RefreshOne | custom_components/ramses_cc/broker.py:264-271 | `_update_device` caches the entity's entry, keeps the other entries, and writes to the registry exactly when the entry differs from the cached one |
| Broker.Refreshed | custom_components/ramses_cc/broker.py:308-309 | refreshing a list of entities writes to the registry at most once per entity |
| Broker.RefreshedSnoc | custom_components/ramses_cc/broker.py:308-309 | refreshing one more entity continues from where the others left off |
| Broker.RefreshedKeeps | custom_components/ramses_cc/broker.py:264-266 | a cached entry that every later entity with its id agrees with stays |
| Broker.RefreshedCaches | custom_components/ramses_cc/broker.py:264-266 | after refreshing, each entity's entry is cached, when no two entities with one id disagree |
| Broker.RefreshedNoop | custom_components/ramses_cc/broker.py:264-265 | entities whose entries are all cached write nothing and change nothing |
| Broker.RefreshedAgain | custom_components/ramses_cc/broker.py:264-266 | refreshing the same entities again writes nothing and leaves the cache as it is |
| Broker.CachedPackets | custom_components/ramses_cc/broker.py:135-142 | `cached_packets` keeps exactly the stored packets whose timestamp lies within the last day and whose characters 41 to 45 are not 313F; a timestamp that does not parse raises ValueError |
| Broker.ShortPacketKept | custom_components/ramses_cc/broker.py:141 | a packet string too short to hold a code is always kept |
| Broker.CachedPacketsIdempotent | custom_components/ramses_cc/broker.py:135-142 | the filter applied to its own result changes nothing |
| Broker.RemotesAtSetup | custom_components/ramses_cc/broker.py:108-113 | at setup the remotes are the stored tables, overridden per device by the known_list's truthy commands |
| Broker.SavedRemotes | custom_components/ramses_cc/broker.py:191-193 | on save the remotes are the broker's tables, overridden per device by the live tables of the remote entities |
| Broker.SaveThenSetup | custom_components/ramses_cc/broker.py:108-113 | after a save and a restart a remote's live table comes back, unless the known_list has commands for it, which win |
| Broker.PacketArgs | custom_components/ramses_cc/broker.py:363-369 | a packet addressed to 18:000730, from nowhere or from 18:000730, raises AttributeError when the client has no gateway and goes to the gateway when its id is known; in every other case and for every other field nothing changes |
| Broker.PacketArgsStable | custom_components/ramses_cc/broker.py:363-369 | when it does not raise, the rewrite applied twice is the rewrite once, and an acceptable packet stays acceptable |
| Broker.Codes | custom_components/ramses_cc/broker.py:349-350 | the code list has the bindings' codes in order |
| Broker.BindArgs | custom_components/ramses_cc/broker.py:346-351 | the binding gets the device id, the offer's and the confirm's codes, and a ratify command exactly when device_info is a non-empty string |
| Broker.BindArgsAreCallKeys | custom_components/ramses_cc/broker.py:349-350 | the codes passed are the keys of the dicts the caller wrote |
| Broker.RamsesBroker.LoadRemotes | custom_components/ramses_cc/broker.py:108-113 | setup's remotes are `RemotesAtSetup` of the stored and known_list tables |
| Broker.RamsesBroker.SaveClientState | custom_components/ramses_cc/broker.py:185-200 | `async_save_client_state` saves the client's state and the remotes with the live tables winning |
| Broker.RamsesBroker.UpdateDevice | custom_components/ramses_cc/broker.py:233-271 | `_update_device` leaves the cache and registry as `RefreshOne` gives |
| Broker.RamsesBroker.UpdateDevices | custom_components/ramses_cc/broker.py:308-309 | the refresh loop leaves the cache and registry as `Refreshed` gives |
| Broker.RamsesBroker.Update | custom_components/ramses_cc/broker.py:273-332 | `async_update` reads the known entities in their current state and extends the lists by the new ones, refreshes every known entity, announces the new ones, saves the state when there are any, and signals an update |
| Broker.RamsesBroker.BindDevice | custom_components/ramses_cc/broker.py:335-353 | `async_bind_device` does nothing but log when the device cannot be faked; otherwise it starts the binding with `BindArgs` and schedules an update |
| Broker.RamsesBroker.SendPacket | custom_components/ramses_cc/broker.py:360-385 | `async_send_packet` raises AttributeError and sends nothing when the rewrite reads a missing gateway; otherwise it sends the rewritten packet and schedules an update |
| Broker.UpdateAgainQuiet | custom_components/ramses_cc/broker.py:273-332 | a second update against unchanged client lists, each holding an entity once, announces nothing, saves nothing and writes nothing to the registry when no two known entities with one id disagree |
| VirtualRf.Ascii | tests/virtual_rf/virtual_rf.py:385 | the ASCII bytes of a text have one byte per character, with the character's code |
| VirtualRf.Text | tests/virtual_rf/virtual_rf.py:288 | decoding reads one character per byte, with the byte's value |
| VirtualRf.Encode | tests/virtual_rf/virtual_rf.py:385 | `bytes(s, "ascii")` raises UnicodeEncodeError exactly for a text with a non-ASCII character |
| VirtualRf.EncodeRoundTrip | tests/virtual_rf/virtual_rf.py:385 | decoding encoded ASCII text gives the text back |
| VirtualRf.GatewayAt | tests/virtual_rf/virtual_rf.py:419 | `_gateways.get(port)` finds a gateway exactly for a port that has one |
| VirtualRf.GatewaysByIdInverse | tests/virtual_rf/virtual_rf.py:358-360 | the `gateways` property maps exactly the attached ids, each back to its own port |
| VirtualRf.OnAnotherPortById | tests/virtual_rf/virtual_rf.py:376-377 | the intended duplicate check, read through the property: the id is known and its port is another one |
| VirtualRf.DuplicateAsWrittenNeedsIdAsPortName | tests/virtual_rf/virtual_rf.py:376-377 | the duplicate check as written can only fire when the new device id is itself the name of a port with a gateway |
| VirtualRf.DuplicateAsWrittenMissesDuplicate | tests/virtual_rf/virtual_rf.py:376-377 | the check as written lets a second port take an id already attached to a first one, which the intended check refuses |
| VirtualRf.PutKeepsIdsUnique | tests/virtual_rf/virtual_rf.py:376-386 | with the intended check, attaching a gateway keeps every id on one port |
| VirtualRf.AfterRx | tests/virtual_rf/virtual_rf.py:407-426 | `_proc_after_rx` prefixes an RSSI to an ordinary frame; a trace frame is received only as the version query at an evofw3 gateway, which answers with its banner |
| VirtualRf.BeforeTx | tests/virtual_rf/virtual_rf.py:428-457 | `_proc_before_tx` keeps a trace frame off the air unless the gateway is an evofw3; passes a frame unchanged without a gateway; an HGI80 drops a frame whose addr0 is not 18:000730; a sentinel addr0 becomes the gateway's id and no other byte changes |
| VirtualRf.Hgi80SendsAsItself | tests/virtual_rf/virtual_rf.py:449-457 | whatever an HGI80 puts on the air carries its own id as addr0, with every other byte unchanged |
| VirtualRf.Evofw3SendsAll | tests/virtual_rf/virtual_rf.py:440-457 | an evofw3 gateway sends every frame, unchanged unless addr0 is the sentinel |
| VirtualRf.Split | tests/virtual_rf/virtual_rf.py:256 | `split(b"\r\n")` gives at least one piece |
| VirtualRf.JoinSplit | tests/virtual_rf/virtual_rf.py:256 | splitting loses nothing: joining the pieces gives the data back |
| VirtualRf.SplitFirstIsPrefix | tests/virtual_rf/virtual_rf.py:256 | the first piece is a prefix of the data |
| VirtualRf.SplitPiecesClean | tests/virtual_rf/virtual_rf.py:256 | no piece holds a separator |
| VirtualRf.Terminate | tests/virtual_rf/virtual_rf.py:256 | dropping the empty pieces gives no more frames than pieces |
| VirtualRf.TerminateFrames | tests/virtual_rf/virtual_rf.py:256 | every frame is a non-empty piece followed by `\r\n` |
| VirtualRf.TerminateAllFrames | tests/virtual_rf/virtual_rf.py:256 | every piece that is kept becomes a frame of at least three bytes ending in `\r\n` |
| VirtualRf.Frames | tests/virtual_rf/virtual_rf.py:255-256 | each frame of a read is a non-empty body followed by `\r\n` |
| VirtualRf.Terminated | tests/virtual_rf/virtual_rf.py:256 | each body gets its own `\r\n` |
| VirtualRf.SplitAfterBody | tests/virtual_rf/virtual_rf.py:256 | a body followed by a separator splits off as one piece |
| VirtualRf.FramesOfWholeFrames | tests/virtual_rf/virtual_rf.py:255-256 | data made of whole frames is cut back into exactly those frames |
| VirtualRf.ReadFrameIsNotVersionQuery | tests/virtual_rf/virtual_rf.py:256 | a frame cut from a read ends in `\r\n`, so it is never the bare version query and no receiver answers a trace frame read from a port |
| VirtualRf.FindReply | tests/virtual_rf/virtual_rf.py:285-290 | `_find_reply_for_cmd` finds nothing exactly when no pattern matches the frame |
| VirtualRf.FindReplyFirst | tests/virtual_rf/virtual_rf.py:287-289 | the reply found is that of the first matching pattern in insertion order |
| VirtualRf.FindReplyMatches | tests/virtual_rf/virtual_rf.py:287-289 | a reply found belongs to a pattern that matches |
| VirtualRf.PutReply | tests/virtual_rf/virtual_rf.py:283 | storing a reply under an existing pattern keeps its place and replaces the reply; a new pattern goes last |
| VirtualRf.PutReplyFound | tests/virtual_rf/virtual_rf.py:283-289 | a reply added for a pattern is found for a frame no other pattern matches |
| VirtualRf.Last | tests/virtual_rf/virtual_rf.py:167 | a `deque(maxlen=n)` holds the last `n` entries appended to it |
| VirtualRf.LastSnoc | tests/virtual_rf/virtual_rf.py:167 | appending to the bounded log is taking the last entries of the longer record |
| VirtualRf.PushEvents | tests/virtual_rf/virtual_rf.py:292-297 | a push delivers at most one entry |
| VirtualRf.BroadcastEvents | tests/virtual_rf/virtual_rf.py:264-265 | pushing a frame to a list of ports logs at most one entry per port, each a receipt on one of those ports |
| VirtualRf.CastEvents | tests/virtual_rf/virtual_rf.py:260-274 | a cast logs at most two receipts per port (the frame and its reply), all on the network's ports; with no reply registered it is the broadcast of the frame alone |
| VirtualRf.TxEvents | tests/virtual_rf/virtual_rf.py:257-258 | one frame logs at most the echo plus two receipts per port, all receipts, on the network's ports or the sender's |
| VirtualRf.FramesEvents | tests/virtual_rf/virtual_rf.py:256-258 | the frames of a read log only receipts, on the network's ports or the sender's; no frames log nothing |
| VirtualRf.BroadcastReachesAll | tests/virtual_rf/virtual_rf.py:264-265 | an ordinary frame reaches every port, the sender's included, with the RSSI prefixed |
| VirtualRf.BroadcastTraceSilent | tests/virtual_rf/virtual_rf.py:264-265 | a trace frame other than the version query reaches no port |
| VirtualRf.FramesEventsStep | tests/virtual_rf/virtual_rf.py:256-258 | the frames up to `k` are those before it, then frame `k` |
| VirtualRf.PullEvents | tests/virtual_rf/virtual_rf.py:252-258 | a read is logged as sent before any of its frames, and every entry after it is a receipt |
| VirtualRf.BeforeTxKeepsTrace | tests/virtual_rf/virtual_rf.py:441-457 | a trace frame a gateway lets through is still a trace frame, and still not the version query |
| VirtualRf.ReadTraceFrameSilent | tests/virtual_rf/virtual_rf.py:441-457 | a trace frame read from a port reaches no port, even when it is echoed and returned for casting |
| VirtualRf.InitError | tests/virtual_rf/virtual_rf.py:150-151 | the port-count guard never fires; only a negative log size fails, as the deque refuses it |
| VirtualRf.VirtualRf.constructor | tests/virtual_rf/virtual_rf.py:144-170 | a network of the given ports, none with a gateway, each presented as an evofw3, with empty replies and log |
| VirtualRf.VirtualRf.Gateways | tests/virtual_rf/virtual_rf.py:358-360 | the `gateways` property maps each attached id to its port, and nothing else |
| VirtualRf.VirtualRf.SetGateway | tests/virtual_rf/virtual_rf.py:362-388 | `set_gateway` raises LookupError for an unknown port, an id on another port (the check its docstring at line 370 documents, not the one written at 376-377) or an unknown firmware, in that order, and changes nothing then; otherwise it records the id, firmware and id bytes for the port and presents the firmware, keeping each id on one port |
| VirtualRf.VirtualRf.AddReplyForCmd | tests/virtual_rf/virtual_rf.py:275-283 | `add_reply_for_cmd` stores the reply with `\r\n` under the pattern |
| VirtualRf.VirtualRf.Record | tests/virtual_rf/virtual_rf.py:253 | recording an entry appends it to the traffic, and the log keeps the last `log_size` entries |
| VirtualRf.VirtualRf.Push | tests/virtual_rf/virtual_rf.py:292-297 | `_push_frame_to_dst_port` records what the port receives |
| VirtualRf.VirtualRf.Broadcast | tests/virtual_rf/virtual_rf.py:264-265 | the frame is pushed to every port in turn |
| VirtualRf.VirtualRf.Cast | tests/virtual_rf/virtual_rf.py:260-273 | `_cast_frame_to_all_ports` pushes the frame, then the reply registered for it if any, to every port |
| VirtualRf.VirtualRf.ProcBeforeTx | tests/virtual_rf/virtual_rf.py:428-457 | the result is `BeforeTx` for the sending port's gateway, and only a trace frame at an evofw3 gateway is echoed to its own port |
| VirtualRf.VirtualRf.PullData | tests/virtual_rf/virtual_rf.py:249-258 | `_pull_data_from_src_port` logs the read, cuts it into frames and casts each one the sending gateway lets through, in order |
| VirtualRf.VirtualRf.Transmit | tests/virtual_rf/virtual_rf.py:257-258 | one frame: the gateway's treatment, then the cast of what it lets through |
| VirtualRfFactory.Decimal | tests/virtual_rf/__init__.py:62 | `str(port_idx)` is a non-empty string of decimal digits, one digit exactly for a number below ten |
| VirtualRfFactory.DecimalInjective | tests/virtual_rf/__init__.py:62 | different numbers are written differently |
| VirtualRfFactory.PortId | tests/virtual_rf/__init__.py:62 | the derived gateway id starts with the gateway type `18:` |
| VirtualRfFactory.PortIdInjective | tests/virtual_rf/__init__.py:61-63 | different ports derive different gateway ids |
| VirtualRfFactory.PortIdIsGatewayId | tests/virtual_rf/__init__.py:79 | for each of the six ports the derived id is a well-formed device id of type 18 whose serial is the port number times 111111 |
| VirtualRfFactory.HgiIds | tests/virtual_rf/__init__.py:45 | the gateway ids are found exactly when every known_list entry is a dict (otherwise AttributeError), and there are no more of them than entries |
| VirtualRfFactory.HgiIdsAreHgiEntries | tests/virtual_rf/__init__.py:45 | an id is found exactly when it is the key of an entry whose class is HGI |
| VirtualRfFactory.HgiIdsAreKeys | tests/virtual_rf/__init__.py:50-52 | `known_list[hgi_id]` exists and is a dict for every id found |
| VirtualRfFactory.HgiIdForSchemaMeaning | tests/virtual_rf/__init__.py:33-65 | `_get_hgi_id_for_schema` succeeds exactly when the schema and its known_list are dicts of dicts with at most one HGI-classed entry and, with none, no unclassed `18:` key; a named gateway comes with its own `_type` (evofw3 by default), a derived one is the port's id |
| VirtualRfFactory.HgiIdForSchema | tests/virtual_rf/__init__.py:33-65 | a schema that is not a dict raises AttributeError; a gateway id is the port's id or a key of the known_list; an id that is no key of the known_list is the port's, with the default firmware |
| VirtualRfFactory.TwoGatewaysRejected | tests/virtual_rf/__init__.py:47-48 | two HGI-classed entries raise TypeError whatever the port |
| VirtualRfFactory.NamedGatewayKept | tests/virtual_rf/__init__.py:50-52 | a known_list naming one HGI with its firmware gives exactly that id and firmware |
| VirtualRfFactory.OnlyTypeTraitNamesFirmware | tests/virtual_rf/__init__.py:52 | the firmware is read from `_type` only: a gateway whose traits spell it under another key is attached as an evofw3 |
| VirtualRfFactory.EmptySchemaDerivesId | tests/virtual_rf/__init__.py:43 | a schema without known_list gets the port's derived id and the evofw3 firmware |
| VirtualRfFactory.FwMember | tests/virtual_rf/__init__.py:96 | `HgiFwTypes.__members__[fw]` raises TypeError for an unhashable list or dict and KeyError for any other non-member |
| VirtualRfFactory.FwMemberNames | tests/virtual_rf/const.py:67-69 | looking a firmware up by name gives the member with that name, and only that name gives it |
| VirtualRfFactory.SchemaGateway | tests/virtual_rf/__init__.py:93-96 | a schema's gateway resolves exactly when its id resolves and its firmware name is a member, and it is that id with that member |
| VirtualRfFactory.DerivedGatewaysDiffer | tests/virtual_rf/__init__.py:61-63 | schemas without a known_list on different ports all resolve, to different ids, as evofw3 gateways |
| VirtualRfFactory.TakenIdBlocks | tests/virtual_rf/virtual_rf.py:370 | with the documented duplicate check, a gateway id already attached to an earlier port means the schemas are refused |
| VirtualRfFactory.AttachPort | tests/virtual_rf/__init__.py:95-96 | attaching a port's gateway whose id is free extends the table by exactly that port and keeps the ids distinct |
| VirtualRfFactory.AttachGateways | tests/virtual_rf/__init__.py:88-96 | with the documented duplicate check of `set_gateway`, the loop succeeds exactly when every schema's gateway resolves to a free ASCII id, and then the table holds each schema's gateway on the port with its index |
| VirtualRfFactory.RfFactoryAsWritten | tests/virtual_rf/__init__.py:81-96 | the port doubling as written, over the documented duplicate check: more than six schemas raise TypeError; otherwise the network is built exactly when every gateway resolves to its own id, has twice as many ports as schemas, the gateways on the first half and none on the second |
| VirtualRfFactory.RfFactory | tests/virtual_rf/__init__.py:81-96 | more than six schemas raise TypeError; otherwise the network is built exactly when every gateway resolves to its own id, has one port per schema, and holds each schema's gateway on the port with its index |

## Left out

- The RAMSES II protocol itself (frame codec, the binding handshake, QoS and retries, `Command` construction): it lives in the `ramses_rf` and `ramses_tx` libraries, which are not part of this model. Calls into them (`fake_device`, `_initiate_binding_process`, `async_send_cmd`, `create_cmd`, the entities' setters) are recorded as actions in a log, and what the library reports (system mode, zone status, entity lists, client state) is a parameter or an opaque value.
- The address swap in `async_send_packet` (custom_components/ramses_cc/broker.py:377-382): it depends on `pkt_addrs` from the library.
- `BindingFlowFailed` and the other library exceptions are not modelled; `async_bind_device` models only the `LookupError` path of `fake_device`.
- `shrink`, `deep_merge`, `is_subset`, `extract_serial_port` and `COMMAND_REGEX` are not part of this model: they are function parameters of the members that call them, with only the properties the callers rely on.
- The voluptuous and `cv` coercions (strings to numbers, `cv.time_period` to seconds, `cv.datetime`, `cv.entity_ids`): service inputs arrive already typed, as `Option` fields; the validators check the bounds, defaults and required keys on those.
- Python's `re.match` is a parameter `matches` of the reply table, and `bytes.decode` of a frame is left out: the reply patterns are matched against the frame as given.
- Floating point: temperatures, delays and bounds are `real`; the controller's averaged `current_temperature` and `target_temperature`, and percentage scaling, are not modelled.
- Wall clock: `now` is a parameter; times are whole seconds and dates whole days, so microseconds and time zones are left out.
- Concurrency and timing: `asyncio.sleep`, the learn command's polling cadence, `Semaphore`, `call_later`, the periodic update timer; only the order and number of actions are modelled (a pause in a send is an action of its own).
- `async_fake_*_temp`, schedules, the fan, sensor and binary sensor entities, entity registration, dispatcher signals and `async_write_ha_state` are Home Assistant glue outside this model; the state of a library entity is the record the client's list gives it now, and an entity the client no longer lists keeps the state it was last listed in.
- Dict order is kept where a result depends on it (insertion-ordered entry lists); Python dict identity and aliasing are not: a remote's command table is its own field, not shared with the broker's dict.
- Storage: `Store` load and save are the broker's saved state value; `config_flow.py` and `coordinator.py` are not part of this model.
- The virtual RF network's ptys, selector polling, `start`/`stop`, `dump_frames_to_rf` and the OS check (`RuntimeError` outside POSIX) are left out; port names are a parameter, handed out by the operating system.
- `VirtualComPortInfo` keeps only the firmware type of a port, in a map: the order `comports()` lists ports in (a port whose gateway was set last comes last, tests/virtual_rf/virtual_rf.py:199-200) is not modelled; the USB attributes it copies from the tables in tests/virtual_rf/virtual_rf.py are not modelled.
- The `gateways` property (`VirtualRf.VirtualRf.Gateways`) is stated only for tables in which no id is on two ports, which `SetGateway` keeps; with duplicates Python keeps the last port, which the model does not state.
- MergeListUnion, Dedup and Merge: `list(set(...))` has no promised order (CPython's hash order gives `[1, 2, 3, 4]` for custom_components/ramses_cc/test_schema.py:83); the model keeps first occurrences in order, so only the union's contents, not its order, are as the source gives them.
- SendPacket: with no gateway, `async_send_packet` also reads `client.hgi.id` at custom_components/ramses_cc/broker.py:377 when the library's command has the sentinel as its source; that source address is computed by the library, so the model raises only at broker.py:367 and sends the packet otherwise.
- RfFactoryAsWritten, AttachGateways and TakenIdBlocks attach gateways through `SetGateway`, which carries the documented duplicate check: a repeated gateway id across schemas, which `set_gateway` as written accepts (tests/virtual_rf/virtual_rf.py:376-377), is refused; `DuplicateAsWrittenMissesDuplicate` shows the as-written check.
- `rf_factory` builds and starts a `ramses_rf` `Gateway` per schema (tests/virtual_rf/__init__.py:98-104); that is library code and is left out, as are the returned gateway list and the state of the network after a failure part way through.
- DeviceListEntries, NormaliseDeviceList, LiftController, LiftWithController, IdsToDict and IdListToDict: dict keys are strings in this model, so a device-list item, controller id or id-list entry that is a non-string hashable value (an int, say), which Python takes as a key, raises TypeError in the model instead.
- `_get_hgi_id_for_schema` only reads its schema; with Dafny's values this holds by construction and is not stated separately.
- The `ramses_rf` constants the source imports (`DEV_TYPE_MAP.HGI`, `DevType.HGI`, `SZ_*` key names) are written out as the strings they stand for.

## Findings

| source | as written | input that shows it | evidently intended | confidence | as-written member | corrected member |
|---|---|---|---|---|---|---|
| custom_components/ramses_cc/climate.py:414-415 | turning a zone off passes the bound method `self._device.set_frost_mode` as the mode instead of calling it | `set_hvac_mode("off")` on a zone | call `set_frost_mode()`, putting the zone in frost mode | high, not executed | Climate.ZoneOffSendsMethod | Climate.ZoneHvacRequestFixed |
| tests/virtual_rf/virtual_rf.py:376-377 | the duplicate check iterates `gateways` (id to port) and compares the id with `port_name` and the port with `device_id`, so it fires only when a device id is itself a port name | port `/dev/pts/1` holds `18:000001`, then `set_gateway("/dev/pts/2", "18:000001")` is accepted | refuse an id already attached to another port with LookupError | high, not executed | VirtualRf.DuplicateAsWrittenMissesDuplicate | VirtualRf.VirtualRf.SetGateway |
| tests/virtual_rf/__init__.py:86-95 | `VirtualRf(len(schemas))` creates a port per schema and the loop calls `_create_port` once more per schema, so the network has twice as many ports as schemas | `rf_factory([None])` builds a network of two ports | one port per schema, each schema's gateway on its own port | medium, not executed | VirtualRfFactory.RfFactoryAsWritten | VirtualRfFactory.RfFactory |
