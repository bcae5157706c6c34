# RPiNT in Dafny

RPiNT is a Raspberry Pi network tester. It runs as a daemon, and its workers share one Redis database:

- **LLDP worker.** It asks lldpd's `lldpcli` for the neighbour seen on `eth0`, flattens the JSON report into a 14-field record, and writes that record into the Redis hash `LLDP`. When there is no neighbour it writes a sentinel record of `"--"` values instead.
- **UPS HAT worker.** It reads the INA219 sensor. It turns the bus voltage into a charge level clamped to [0, 100] and writes three battery keys through one pipeline.
- **Display controller.** On every tick it rebuilds the list of lines to show from the `LLDP` hash and the `show_*` configuration flags. It shows a three-row window of those lines on a 128-pixel ST7735 LCD. Four buttons move the row offset and the pixel offset.
- **Legacy script.** The earlier single-file version of the daemon, `rpint.py`, has its own LLDP routine. It writes eight fields with nine separate `HSET`s. Its UPS loop clamps the charge by two conditional reassignments.

The project is organised in modules:

| module | file | what it holds |
|---|---|---|
| `Py` | `py.dfy` | `Option`, `Result` and the Python exceptions that escape; `str.strip`, `str.split` (with and without a separator), `str.join`, `str.find`, `str(int)` |
| `PyJson` | `json.dfy` | the parsed JSON document (objects keep key order); `dict.get`, `d[k]`, `len`, truth testing, `str()`; redis-py's encoding of stored values |
| `Redis` | `redis.dfy` | the store as a class with a string keyspace and a hash keyspace; `GET`, `SET`, `HGETALL`, `HSET`, pipelines |
| `Lldp` | `lldp.dfy` | `lldp/lldp.py` |
| `Power` | `power.dfy` | `power/ups_hat.py` |
| `Display` | `display.dfy` | `display/controller.py` |
| `Legacy` | `legacy.dfy` | `rpint.py` lines 22-64 and 173-185 |

Stateful code is modelled imperatively:

- `DisplayController` is a class. Its handlers change `scrollX`, `scrollIndex` and `dataLines`.
- The loops become methods with invariants: the line rebuild, the frame drawing, the widest-value scan, the mode loop, the UPS loops and the legacy `HSET` series.
- Each method is proved equal to a specification function, and the properties are proved about that function.

Some behaviours of the code are easy to miss, and the model keeps them:

- The full-duplex gigabit mode renders as `1000BASE-T//FD`. The empty half-duplex part leaves two slashes, and `strip()` removes only whitespace.
- A display line is one string, such as `"Port ID: Gi0/1"`. It is split into label and value only when it is drawn.
- A right press when the content is narrower than the display sets the pixel offset to 0. A right press also pulls an offset above the bound down to the bound.
- The row offset is not re-clamped when the line list shrinks, so the window can be empty.
- `lldp()` reads the management addresses and the advertised modes as the code is written. The corrected readings of the two findings below are proved beside them.

## Model

| member | source | states |
|---|---|---|
| Py.TrimLeftSpec | lldp/lldp.py:66 | `lstrip` removes exactly a leading run of whitespace |
| Py.TrimRightSpec | lldp/lldp.py:66 | `rstrip` removes exactly a trailing run of whitespace |
| Py.TrimLeftBeforeText | lldp/lldp.py:66 | leading whitespace is removed only before the first non-whitespace character |
| Py.StripBeforeText | lldp/lldp.py:66 | `strip()` of a text whose tail starts and ends with non-whitespace trims only the front |
| Py.Strip | lldp/lldp.py:66 | `strip()` gives a slice of the text that neither starts nor ends with whitespace, with only whitespace outside it |
| Py.JoinEnds | lldp/lldp.py:69 | a join starts with the first piece and ends with the last; one piece joins to itself |
| Py.Find | display/controller.py:43 | the result is the first occurrence of the separator; when there is none, no position holds it |
| Py.FindNone | display/controller.py:43 | `find` fails exactly when the separator does not occur |
| Py.Split | display/controller.py:98 | `split(sep)` gives the whole text when the separator is absent; otherwise two or more pieces, the first being the text before the first separator |
| Py.JoinSplit | display/controller.py:98 | joining the pieces of `split(sep)` with `sep` gives the string back |
| Py.SplitPiecesFree | display/controller.py:98 | no piece of `split(sep)` contains `sep` |
| Py.SplitSingle | display/controller.py:98 | `split(sep)` has one piece iff `sep` does not occur |
| Py.SplitInTwo | display/controller.py:98 | two pieces are the text before the first separator and the text after it |
| Py.Word | rpint.py:39 | the longest whitespace-free prefix |
| Py.Tokens | rpint.py:39 | every token of `split()` is a non-empty run of non-whitespace, and a text without whitespace is one token |
| Py.FirstToken | rpint.py:39 | `split()` is empty exactly for a blank string; otherwise its first token is the first word after the leading whitespace, and it is non-empty |
| PyJson.Lookup | lldp/lldp.py:40-75 | a found value is bound to the key by an entry with no earlier entry for that key; nothing is found iff no entry has that key |
| PyJson.AsDict | lldp/lldp.py:40-75 | `.get` exists only on a dict; anything else raises `AttributeError` |
| PyJson.GetOr | lldp/lldp.py:40-75 | `d.get(k, default)` gives the bound value, else the default |
| PyJson.Index | rpint.py:36-45 | `d[k]` gives the bound value; a missing key raises `KeyError`; a non-dict raises `TypeError` |
| PyJson.Len | lldp/lldp.py:29 | `len` is defined exactly for strings, lists and dicts and gives their size; anything else raises `TypeError` |
| PyJson.PyStr | lldp/lldp.py:84-91 | `str()` of a string is the string; `None`, booleans and integers print as Python prints them; a list prints in brackets and a dict in braces |
| PyJson.RedisEncode | lldp/lldp.py:98 | redis-py stores strings and integers and refuses every other value with `DataError` |
| Redis.WrittenKeys | power/ups_hat.py:12-16 | the keys of a batch are exactly the keys its commands name |
| Redis.ApplySetsFrame | power/ups_hat.py:12-16 | a batch adds exactly the keys it writes, leaves every other key alone, and its last command's value stands |
| Redis.ApplySetsAppend | rpint.py:46-54 | running two batches in turn is running their concatenation |
| Redis.Store.constructor | rpint.py:197-198 | a flushed database holds no key |
| Redis.Store.Get | display/controller.py:94 | `GET` gives the value of a present key, and `None` otherwise |
| Redis.Store.HGetAll | display/controller.py:73 | `HGETALL` gives the hash, or an empty mapping when it is absent |
| Redis.Store.Set | rpint.py:185 | `SET` replaces one string key and nothing else |
| Redis.Store.HSet | lldp/lldp.py:98 | `HSET key mapping` adds or replaces the given fields and keeps the hash's other fields |
| Redis.Store.HSetField | rpint.py:46 | `HSET key field value` changes one field of one hash |
| Redis.Store.Execute | power/ups_hat.py:12-16 | a pipeline applies its queued `SET`s in order, in one step, and touches no hash |
| Lldp.HsetInitValues | lldp/lldp.py:6-22 | exactly the 14 record fields, each mapped to `"--"` |
| Lldp.AsDictionary | lldp/lldp.py:77-92 | the returned dict has exactly the 14 field names |
| Lldp.SelectChassis | lldp/lldp.py:41-43 | if some chassis value is a dict, the choice is the first key and its value; otherwise there is no key and the data is the chassis itself; a non-dict chassis raises |
| Lldp.ChassisId | lldp/lldp.py:45-48 | under key `id`, the id is `value` or `"N/A"`; otherwise it is `id.value` or `"N/A"`, and a missing or non-dict `id` raises |
| Lldp.ManagementIpAsWritten | lldp/lldp.py:51 | absent addresses give `"N/A"`; a list of strings is joined with `", "`; a lone string is joined character by character; the join raises `TypeError` exactly when the value cannot be iterated as strings |
| Lldp.ManagementIp | lldp/lldp.py:51 | the corrected join: absent addresses give `"N/A"` and a lone address string is kept whole |
| Lldp.JoinCharsLength | lldp/lldp.py:51 | joining the characters of a string with `", "` gives length 3n-2 |
| Lldp.LoneAddressGarbled | lldp/lldp.py:51 | as written, a lone address string of two or more characters is never stored as itself |
| Lldp.ManagementIpIntended | lldp/lldp.py:51 | the corrected join keeps a lone address, joins a list with `", "`, and otherwise agrees with the code as written |
| Lldp.ModeSuffix | lldp/lldp.py:64-66 | the suffix starts with `/` and ends with `/` or `D` |
| Lldp.ModeText | lldp/lldp.py:63-66 | a mode that is not a dict raises `AttributeError`; any dict gives a text |
| Lldp.ModeTextIsStripped | lldp/lldp.py:66 | the mode text is exactly the stripped f-string `type/HD/FD` |
| Lldp.ModeTexts | lldp/lldp.py:61-66 | one text per entry, in order; the list raises iff some entry is not a dict |
| Lldp.AvailableModesAsWritten | lldp/lldp.py:59-69 | a list renders as its mode texts joined with `","`, or raises `AttributeError` for a non-dict entry; a string passes through; any other value, a bare mode object included, gives `""` |
| Lldp.AvailableModes | lldp/lldp.py:59-69 | the corrected rendering treats a bare mode object as a one-element list and agrees with the code as written on every other value |
| Lldp.ModeTextsAgree | lldp/lldp.py:62-66 | texts that match the entries one by one are the mode list |
| Lldp.AvailableModesOfEntries | lldp/lldp.py:59-69 | a list, or a single bare mode, renders as its mode texts joined with `","`, or raises for a non-dict entry |
| Lldp.CollectModeTexts | lldp/lldp.py:60-66 | the append loop computes the mode texts, or stops with the error of a non-dict entry |
| Lldp.CollectAvailableModes | lldp/lldp.py:59-69 | the `isinstance` branches, the loop and the join compute `AvailableModesAsWritten` |
| Lldp.ModeTextShape | lldp/lldp.py:63-66 | a type without leading whitespace renders as `type/HD/FD` with absent halves empty |
| Lldp.SingleModeList | lldp/lldp.py:61-69 | a one-element list renders as that mode's text |
| Lldp.GigabitFullDuplexText | lldp/lldp.py:63-66 | a `1000BASE-T` mode with FD and without HD renders as `1000BASE-T//FD` |
| Lldp.GigabitFullDuplexMode | lldp/lldp.py:59-69 | `[{"type":"1000BASE-T","hd":false,"fd":true}]` renders as `"1000BASE-T//FD"` |
| Lldp.SingleModeDropped | lldp/lldp.py:59-69 | as written, a single mode given as a bare object renders as `""`; the corrected rendering keeps it |
| Lldp.Eth0 | lldp/lldp.py:40 | succeeds iff the report, and every `lldp` and `interface` value present on the way, is a dict; otherwise `AttributeError`; on success, the entry at `lldp.interface.eth0`, or `{}` when a key on the way is missing |
| Lldp.PortPart | lldp/lldp.py:53-69 | each port field is the value at its path under `eth0`, or `"N/A"` when a key is missing; the modes are `AvailableModesAsWritten` of the advertised value; a missing port gives `"N/A"` everywhere and no modes; succeeds iff the port entry and its `id` and `auto-negotiation` values, where present, are dicts and the advertised modes render |
| Lldp.VlanId | lldp/lldp.py:70 | the value at `vlan.vlan-id`, or `"N/A"` when a key is missing; the read raises iff the VLAN entry is not a dict |
| Lldp.PowerPart | lldp/lldp.py:71-72 | succeeds iff the port entry and its `power` value, where present, are dicts, and raises `AttributeError` otherwise; both flags are the values at `port.power.*`, or `"N/A"` when a key is missing |
| Lldp.MedPart | lldp/lldp.py:73-75 | succeeds iff the `lldp-med` entry and its `capability` value, where present, are dicts, and raises `AttributeError` otherwise; device type and capability are the values at their `lldp-med` paths, or `"N/A"` when a key is missing |
| Lldp.Extract | lldp/lldp.py:40-92 | a record is produced iff `eth0` is reached and is a dict, the chassis data, id and management address can be read, and the port, VLAN, power and LLDP-MED reads succeed; every field of the record is the value at its path under `eth0`, or `"N/A"` when a key is missing, with `str()` applied to the five flags; the chassis fields come from the chosen chassis entry; the management address is the join as written |
| Lldp.Lldp | lldp/lldp.py:24-93 | `None` iff the command fails, the output is not JSON, or `lldp` has length 0; a record is `Extract` of the report and has the sentinel's 14 keys; a missing `lldp` key raises `KeyError`, a value without a length raises `TypeError`, and otherwise the errors of `Extract` escape |
| Lldp.ChassisOnlyReport | lldp/lldp.py:37-93 | a report listing one interface whose `eth0` holds only `{"chassis": {"id": {"value": id}}}` yields a record: that id, `"N/A"` for the management address and every other field, and no modes |
| Lldp.MissingSectionsReadNA | lldp/lldp.py:53-75 | a neighbour whose `eth0` entry lacks `port`, `vlan` or `lldp-med` gets `"N/A"` in every field read from that section, and no modes |
| Lldp.EncodeRecord | lldp/lldp.py:98 | the write succeeds iff every value can be encoded, and then stores each field's text; otherwise it raises `DataError` |
| Lldp.RecordStorable | lldp/lldp.py:77-98 | a record can be stored iff its seven unconverted values are strings or integers |
| Lldp.SentinelReplacesRecord | lldp/lldp.py:95-98 | the sentinel written over a hash of record fields leaves only the sentinel |
| Lldp.SavedHash | lldp/lldp.py:95-98 | the new `LLDP` hash: the 14 fields hold `"--"` for no record, or the record's text; other fields stay; an unencodable value raises `DataError` |
| Lldp.SaveLldpToRedis | lldp/lldp.py:95-98 | the method writes exactly `SavedHash` into `LLDP`, changes nothing on error, and never touches string keys |
| Power.ChargeLevel | power/ups_hat.py:6-11 | the charge is in [0, 100]; 4.2 V or more gives 100; 3.0 V or less gives 0 |
| Power.ChargeBetweenThresholds | power/ups_hat.py:11 | between the thresholds the charge is `(v - 3.0) / 1.2 * 100` |
| Power.HalfCharge | power/ups_hat.py:11 | 3.6 V gives 50 |
| Power.ChargeMonotone | power/ups_hat.py:11 | a higher voltage never gives a lower charge |
| Power.BatteryBatch | power/ups_hat.py:12-15 | one pipeline writes exactly the three battery keys |
| Power.BatchWritesBatteryKeys | power/ups_hat.py:12-16 | one iteration adds exactly the battery keys, keeps every other key, and stores the rounded charge |
| Power.Iterations | power/ups_hat.py:8 | the loop runs up to the first sample with the stop event set, and no further |
| Power.RunBatchesFrame | power/ups_hat.py:8-16 | any number of iterations touches only the three battery keys, and the last reading's charge stands |
| Power.UpsHat | power/ups_hat.py:3-17 | the worker runs `Iterations` turns, each applying one pipeline, and leaves hashes alone |
| Power.IterationsStop | power/ups_hat.py:8 | the loop's exit is the first sample with the stop event set |
| Display.DisplayWidth | display/controller.py:54-56 | the configured width when set, 128 otherwise |
| Display.ScrollLeft | display/controller.py:23-24 | the offset drops by 20 and never goes below 0; it becomes 0 iff it was at most 20 |
| Display.ScrollRight | display/controller.py:26-28 | the offset rises by 20, never past the bound, and an offset past the bound is pulled back to it |
| Display.ScrollUp | display/controller.py:30-32 | a no-op when at most three lines exist; otherwise one row back, never below 0 |
| Display.ScrollDown | display/controller.py:34-36 | a no-op when at most three lines exist; otherwise one row on, and an offset at or past `len - 3` becomes `len - 3` |
| Display.ScrollKeepsRange | display/controller.py:30-36 | both row moves keep an in-range offset in range |
| Display.DownsSaturate | display/controller.py:34-36 | n downs from an in-range offset give `min(len - 3, offset + n)` |
| Display.UpsSaturate | display/controller.py:30-32 | n ups give `max(0, offset - n)` |
| Display.TenLineExample | display/controller.py:30-36 | with 10 lines, 20 downs from 0 give 7, and ups from 7 end at 0 |
| Display.Line | display/controller.py:75-87 | `label: value` with the stored value, or `label: -` when the field is missing |
| Display.Enabled | display/controller.py:74-87 | the enabled entries of the if-chain, strictly increasing; an entry is enabled iff its flag is set |
| Display.LinesOfStep | display/controller.py:74-87 | one more entry of the chain appends its line exactly when its flag is set |
| Display.DisplayLines | display/controller.py:73-87 | at most 13 lines |
| Display.EnabledCount | display/controller.py:74-87 | no more entries are enabled than exist |
| Display.DisplayLinesFollowChain | display/controller.py:74-87 | the k-th line is the line of the k-th enabled entry, and an entry has a line iff its flag is set |
| Display.OnlyPortIdExample | display/controller.py:76 | with only `show_port_id` set and `port_id` "Gi0/1", the lines are exactly `["Port ID: Gi0/1"]` |
| Display.EnabledOnly | display/controller.py:74-87 | with exactly one flag set, only that entry is enabled |
| Display.Window | display/controller.py:88 | the Python slice: `min(n, len - start)` lines, none when the start is past the end, line k being `lines[start + k]` |
| Display.WindowFull | display/controller.py:88 | a window that fits is the three lines from the start |
| Display.MeasuredValue | display/controller.py:42-45 | the whole line when there is no `": "` separator, and never longer than the line |
| Display.MeasuredAfterFirstSeparator | display/controller.py:42-45 | with a separator, the measured value is the text after its first occurrence, and the text before it, the separator and that value rebuild the line |
| Display.RenderAndMeasure | display/controller.py:97-100 | without `": "` the render is `(line, "")` and the whole line is measured; with one separator label and value are separator-free, rebuild the line, and the measured value is the drawn value; with two or more the render falls back to `(line, "")` while the measured value still holds a separator |
| Display.MaxValueWidth | display/controller.py:38-49 | the widest value is at least every line's value width and is attained by some line; no lines give 0 |
| Display.MaxScrollX | display/controller.py:56 | the bound is 0 iff the widest value plus 10 fits the display, else the overhang plus 10 |
| Display.LineCommands | display/controller.py:96-104 | two commands per visible line |
| Display.LineCommandsLayout | display/controller.py:101-104 | row i puts its label in lime at `(1 - scroll_x, 25 + 2 (font_size + 1) i)` and its value in cyan one line spacing lower |
| Display.Frame | display/controller.py:89-104 | the battery command comes first when the UPS HAT is in use, then two commands per line |
| Display.BatteryLineFixed | display/controller.py:93-95 | a yellow command at y = 0 is drawn iff `use_ups_hat` is set, whatever the scroll |
| Display.Turns | display/controller.py:72 | the loop runs up to the first check that finds the stop event set |
| Display.TurnsStop | display/controller.py:72 | the loop's exit is the first check that finds the stop event set |
| Display.DisplayController.constructor | display/controller.py:8-21 | a controller starts at offsets 0 with no lines |
| Display.DisplayController.UpdateScrollXLeft | display/controller.py:23-24 | the handler applies `ScrollLeft` to the pixel offset |
| Display.DisplayController.UpdateScrollXRight | display/controller.py:26-28 | the handler applies `ScrollRight` with the bound recomputed from the current lines |
| Display.DisplayController.UpdateScrollYUp | display/controller.py:30-32 | the handler applies `ScrollUp` to the row offset |
| Display.DisplayController.UpdateScrollYDown | display/controller.py:34-36 | the handler applies `ScrollDown` to the row offset |
| Display.DisplayController.GetMaxContentWidth | display/controller.py:38-49 | the running maximum equals `MaxValueWidth` |
| Display.DisplayController.UpdateMaxScrollX | display/controller.py:51-56 | the result is `MaxScrollX` of the widest value and the display width |
| Display.DisplayController.RebuildLines | display/controller.py:73-87 | the append chain leaves `DisplayLines` of the `LLDP` hash |
| Display.DisplayController.DrawFrame | display/controller.py:89-104 | the draw loop produces `Frame` of the visible lines at the current offset |
| Display.DisplayController.RenderTick | display/controller.py:73-104 | one tick rebuilds the lines and draws the frame of the window at the current row |
| Display.DisplayController.SerialDisplays | display/controller.py:58-105 | nothing for another display type; otherwise one frame per turn until the stop event is seen |
| Legacy.ChassisKey | rpint.py:38 | the first key of a chassis dict; an empty dict raises `IndexError`; a key drawn from a non-dict fails the next lookup with `TypeError` |
| Legacy.SplitText | rpint.py:39 | `split()` works on strings only and gives their tokens |
| Legacy.NeighbourCount | rpint.py:36 | `len(doc["lldp"])`: a missing key raises `KeyError` and a value without a length raises `TypeError` |
| Legacy.Eth0 | rpint.py:38-45 | the value at `lldp.interface.eth0` when every key exists, and otherwise the error of the first failing subscript |
| Legacy.ReadChassis | rpint.py:38-40 | succeeds iff `chassis` exists and has a first key, and under that key `descr` is a string and `id.value` exists; the chassis key is the first key of `chassis`; the description words are `split()` of `chassis[key].descr`; the MAC is `chassis[key].id.value`; a missing `chassis` raises its error |
| Legacy.ReadPort | rpint.py:41-42 | succeeds iff `port.id.value` and `port.auto-negotiation.current` exist and the latter is a string; gives the port id and the words of the mode |
| Legacy.ReadVlan | rpint.py:43 | exactly the subscript path `vlan.vlan-id`, with its error |
| Legacy.ReadPower | rpint.py:44-45 | succeeds iff both `port.power` flags exist, and gives them |
| Legacy.ReadNeighbour | rpint.py:38-45 | succeeds iff the `eth0` entry and each of the four reads succeed; every value is the one its read gives; a missing `lldp` key raises first |
| Legacy.FirstWord | rpint.py:47 | `words[0]` raises `IndexError` iff there is no word |
| Legacy.NeighbourValues | rpint.py:46-54 | the values written in order: the chassis key; the first word of the description; the MAC and port as redis-py encodes them; the first word of the mode; the encoded VLAN; `str()` of `power_supported`; `str()` of `power_enabled` twice |
| Legacy.FirstFailure | rpint.py:46-54 | the position of the first write whose value raises |
| Legacy.FirstFailureAt | rpint.py:46-54 | the writes stop exactly at the first value that raises |
| Legacy.Perform | rpint.py:46-64 | the writes are done in order up to the first value that raises; the routine succeeds iff no value raises |
| Legacy.LegacyRun | rpint.py:35-64 | text that is not JSON writes nothing; the writes follow the field order; success writes all nine |
| Legacy.RunWithoutNeighbour | rpint.py:55-64 | without a neighbour the routine writes the placeholder series |
| Legacy.RunWithNeighbour | rpint.py:37-54 | with a readable neighbour the routine writes its values |
| Legacy.NeighbourValueErrors | rpint.py:46-54 | the first write cannot fail; later ones fail only with `IndexError` or `DataError` |
| Legacy.ValuesSucceed | rpint.py:46-54 | the nine writes of a neighbour succeed iff both split texts have a word and the MAC, port and VLAN values are strings or integers |
| Legacy.StoredValues | rpint.py:46-54 | after a successful series each field holds the value of its last write, for any field order whose first seven fields are not written again |
| Legacy.EmptyDescriptionStops | rpint.py:46-47 | an empty description stops the series after the `chassis` write with `IndexError` |
| Legacy.PartialWriteCause | rpint.py:38-54 | a partial write was cut short by an empty split text or by a value redis-py refuses |
| Legacy.LegacyLldp | rpint.py:22-64 | the routine raises or writes exactly the writes of `LegacyRun` into `LLDP`, and no string key |
| Legacy.PerformSteps | rpint.py:46-64 | the `HSET` series writes exactly `Perform`'s writes and ends with its outcome |
| Legacy.RepeatedWriteIdempotent | rpint.py:53-54 | writing `power_enabled` twice with the same value is writing it once |
| Legacy.UniformWrites | rpint.py:56-64 | a series that writes one value leaves that value in every field it writes |
| Legacy.LastWrite | rpint.py:46-54 | a field not rewritten later keeps the value written |
| Legacy.WritesFollowOrder | rpint.py:46-54 | the writes name exactly the fields of the order |
| Legacy.AllStepsWritten | rpint.py:46-54 | when no value raises, every field is written in order |
| Legacy.NoNeighbourPlaceholders | rpint.py:55-64 | without a neighbour the eight fields hold `--` and the other fields of the hash are unchanged |
| Legacy.PlaceholderWrites | rpint.py:56-64 | the placeholder series sets every field of its order to `--` and nothing else |
| Legacy.NeighbourSucceeds | rpint.py:39-54 | the routine succeeds iff both split texts have a word and the MAC, port and VLAN values are strings or integers |
| Legacy.NeighbourStored | rpint.py:38-54 | after success the hash holds all eight values read: the chassis key, the first words of the description and of the mode, the encoded MAC, port and VLAN, and `str()` of both power flags |
| Legacy.UndecodableWritesNothing | rpint.py:35 | text that is not JSON raises before any write |
| Legacy.EmptyDescriptionPartialWrite | rpint.py:39-47 | an empty description fails with `IndexError` after writing only `chassis` |
| Legacy.StopsAtSecond | rpint.py:46-47 | a second value that raises leaves only the first write |
| Legacy.LegacyChargeLevel | rpint.py:182-184 | the two reassignments give exactly `Power.ChargeLevel`, within [0, 100] |
| Legacy.LegacyUpsHat | rpint.py:177-185 | only `battery_power` changes, and it holds the rounded charge of the last reading |

## Left out

- Running `lldpcli`, `json.loads` and the `journal` messages are left out. The outcome of the command and the parse is an input: `RunOutcome`, or `LegacyInput` for the legacy script.
- The Redis client, the connection and `flushdb` are left out. The store is the `Redis.Store` class.
- Threads, the daemon flag and `sleep` are left out. The stop event is a sequence of observed checks, so that "no turn starts once it is set" can be stated. The display loop has no sleep in the model.
- The legacy `ups_hat()` loop has no exit. It is modelled over the voltages of the turns that ran. The current and shunt readings it discards are not modelled.
- Fonts, SPI, the ST7735 device, the INA219 sensor and the buttons are left out. The font's width is a given `string -> nat`, and the buttons are calls of the four handlers. A frame is the sequence of its `draw.text` calls.
- Configuration loading is left out. `Config` holds the flags, `font_size`, the display type and the optional width. The other display settings only configure hardware.
- `Power.ChargeLevel`: floats and `round()` are left out. The charge uses exact reals, so its thresholds are exact, while in IEEE-754 `4.2 - 3.0` is not exactly `1.2`. The rounded text is a given function.
- `PyJson.PyStr`: `str()` of a list or dict quotes strings with `'` but does not escape them. JSON numbers are integers; floats are not modelled.
- `Legacy.ChassisKey`: for a chassis given as a list, the model raises `TypeError` for a non-empty list. Python would index the list with its first element, which can succeed for an integer.
- `Legacy.LegacyLldp`: lines 46-64 are straight-line `HSET` calls. They are modelled as one loop over (field, value) steps with the same order and the same stopping point.
- `Redis.Store.HSet`: redis-py refuses an empty mapping. That cannot happen here, because both the sentinel and a record have 14 fields. A hash key already holding a string (`WRONGTYPE`) is not modelled.
- `Display.DisplayController.UpdateScrollXRight`: the buttons' callbacks run on other threads, and interleaving with the render loop is not modelled.

## Findings

Both come from the shape of the report. The code runs `lldpcli show neighbors details -f json` (lldp/lldp.py:25). lldpd's `json` output format writes a value that occurs once as the bare value, not as a one-element list; its `json0` format is the one that always writes lists. So a neighbour that advertises one management address reports `"mgmt-ip": "10.0.0.1"`, and one advertised mode reports `"advertised": {...}`. This comes from lldpd, not from the code modelled here, and the model takes both shapes as possible inputs.

| source | as written | input that shows it | evidently intended | confidence | as-written member | corrected member |
|---|---|---|---|---|---|---|
| lldp/lldp.py:51 | `", ".join(...)` iterates whatever value `mgmt-ip` holds, so a lone address string is joined character by character | chassis `{"mgmt-ip": "10.0.0.1"}` stores `"1, 0, ., 0, ., 0, ., 1"` | a lone address is stored as itself | not executed | Lldp.LoneAddressGarbled | Lldp.ManagementIpIntended |
| lldp/lldp.py:61 | only a list or a string is rendered, so a single advertised mode given as an object is dropped | `"advertised": {"type": "1000BASE-T", "fd": true}` stores `""` | the single mode is rendered like a one-element list, `"1000BASE-T//FD"` | not executed | Lldp.SingleModeDropped | Lldp.AvailableModes |
