# dellhw_trapper, modelled in Dafny

dellhw_trapper turns the text that Dell's `omreport` tool prints into
metrics. It has three stages:

1. Every collector runs `omreport <domain…> -fmt ssv`. It splits each output
   line on `;`, cleans every field, and hands the fields to a row callback.
   The callback appends data points (metric name, value, tags) to a
   `MultiDataPoint`.
2. `MetricStorage.collect` runs the enabled collectors named in the
   comma-separated `-collect` flag. It stores each collector's points under
   the collector's name.
3. For Zabbix, each metric is flattened into an item cache keyed
   `hw.<name with '_' as '.'>.<label values>`. The cache is then sent, either
   as a discovery document or as the plain key/value map.

The model:

- The omreport tool is a value of type `Tool`: a map from an argument vector
  to the lines the tool prints. The model is therefore pure apart from the
  state that the source itself updates.
- `MultiDataPoint`, `MetricStorage` and the Zabbix cache are classes with
  the source's fields.
- Every row callback is a method. Each one is proved against a row function
  (`ComponentRow`, `StatusRow`, `PowerRow`, `UnitRow`, `FanRow`, `TempRow`,
  `VoltRow`). `readOmreport` is a loop proved against `Emit`/`Collected`,
  which are the concatenation of the rows.
- Go's string library (Split, Join, Fields, TrimSpace, Replace, HasSuffix,
  Index) and strconv (Atoi with the int64 range, ParseFloat as an exact
  decimal) are written out in `gostrings.dfy`.

Files:

- `gostrings.dfy`: module GoStrings.
- `util.dfy`: module Util, for util.go.
- `metrics.dfy`: module Metrics, for the data types, Add, extract and severity of main.go.
- `omreport.dfy`: module Omreport.
- `collect.dfy`: module Collection, for the registry and collect of main.go.
- `zabbix.dfy`: module Zabbix.

Where the code and its comments disagree, the model follows the code:

- `severity`'s doc comment states the opposite of what it returns. The model
  returns 0 for "Ok" and "Non-Critical", as the code does.
- Storage, power-supply and per-unit rows report the raw status text, not a
  severity.
- A controller row asks for the pdisk report of its raw id (`0:1`). It does
  not use the `_`-converted id that tags its own point. Pdisk points carry
  only their own `id` tag.
- An enabled collector name with no registered collector is a call through
  a nil function in Go, which panics. The pass ends there with `Panicked`;
  it is not skipped.
- Label values are appended to a Zabbix key in map-iteration order, which
  Go leaves unspecified. `AddToZabbix` returns that order as a ghost value
  and proves that it enumerates every label exactly once.

## Model

| member | source | states |
|---|---|---|
| Util.CleanIsClean | util.go:10-15 | clean's output has no whitespace but single inner spaces: none leading, trailing or doubled |
| Util.CleanIdempotent | util.go:11-15 | cleaning an already cleaned string changes nothing |
| Util.CleanFixedPoint | util.go:11-15 | every string without stray whitespace is returned unchanged |
| Util.CleanPair | util.go:11-12 | cleaning two arguments is cleaning them joined by one space |
| Util.FieldsOfJoin | util.go:13-14 | splitting space-joined words into fields gives back exactly those words, which is the round trip clean relies on |
| Util.JoinWordsClean | util.go:14 | words joined by single spaces form a clean string that starts with its first word |
| Util.Replace | util.go:22-40 | the loop's result is the sanitised string. The error ("clean result is empty") occurs exactly when that string is empty |
| Util.ReplaceName | util.go:17-20 | replace is Replace with "_", with the error dropped, so an empty result stays empty |
| Util.SanitizedChars | util.go:25-35 | every character of the result is allowed or comes from the replacement |
| Util.SanitizedNameAllowed | util.go:17-20 | every character of replace's result is a letter, digit, '-', '_', '.' or '/' |
| Util.SanitizedIdentity | util.go:27-29 | a string made only of allowed characters is returned unchanged |
| Util.SanitizedAllowedPrefix | util.go:27-29 | an allowed prefix is copied through and resets the replaced flag |
| Util.SanitizedJoin | util.go:25-35 | allowed words separated by single spaces come out joined by the replacement |
| Util.SanitizedRun | util.go:30-33 | a run of disallowed characters becomes one replacement, or nothing when a replacement was just written |
| Util.SanitizedRunTail | util.go:30-33 | once a replacement has been written, further disallowed characters add nothing |
| Util.SanitizedNameIdempotent | util.go:17-20 | replace applied twice is replace applied once |
| Util.SanitizedKeepsAllowed | util.go:25-35 | with an empty replacement the result is exactly the input's allowed characters in order; with a replacement free of allowed characters, the result's allowed characters are exactly the input's |
| Util.SanitizedKeepsOrder | util.go:25-35 | for every replacement, replace's "_" included, the input's allowed characters appear in the result in their original order |
| Util.SanitizedLength | util.go:25-35 | with a replacement of at most one character, the result is no longer than the input |
| Util.SanitizedEmpty | util.go:36-38 | with a non-empty replacement, the empty-result error happens exactly for the empty input |
| Util.SanitizedNameExample | util.go:17-20 | replace("CPU 1") is "CPU_1" |
| Metrics.MultiDataPoint.constructor | main.go:63 | a new point list is empty |
| Metrics.AddMeta | main.go:82-85 | changes no state: no modifies clause, no results |
| Metrics.MultiDataPoint.Add | main.go:71-80 | Add appends exactly one point with the given name, value and tags and a zero timestamp; earlier points are unchanged |
| Metrics.Severity | main.go:98-103 | the result is 0 or 1, and it is 0 exactly for "Ok" and "Non-Critical" |
| Metrics.Extract | main.go:89-95 | a missing suffix gives the "suffix not found" error, and success implies the suffix is present |
| Metrics.ExtractStripsSuffix | main.go:93-94 | with the suffix present, the result is ParseFloat of the trimmed text before it, both in success and failure |
| Metrics.ExtractExamples | main.go:87-95 | extract("42 W", "W") is 42 and extract("42", "W") fails for the missing suffix |
| GoStrings.ParseFloatDigits | main.go:94 | a run of decimal digits parses to its value with exponent 0 |
| GoStrings.SplitCount | omreport.go:16 | splitting on ';' gives one more piece than the line has semicolons |
| GoStrings.SplitPiecesFree | omreport.go:16 | no field handed to a callback contains ';' |
| GoStrings.SplitJoin | omreport.go:16 | joining the pieces with ';' gives back the line |
| Omreport.SplitClean | omreport.go:16-19 | each field is the clean form of the matching ';' piece, and there are Count(';')+1 fields |
| Omreport.SplitFieldsClean | omreport.go:16-19 | every field handed to a callback is clean |
| Omreport.ReadOmreport | omreport.go:13-23 | a run appends to md exactly the rows of every line the tool prints for the domain's arguments plus "-fmt ssv", in order |
| Omreport.Callback | omreport.go:31-328 | each domain's callback appends exactly its row function's points |
| Omreport.EmitAppend | omreport.go:15-21 | the points of two runs of lines are the points of each, concatenated, so every line contributes independently |
| Omreport.DummyReport | omreport.go:25-29 | dummy_report yields one point hw.dummy tagged test=dummy |
| Omreport.DummyPoints | omreport.go:25-29 | the dummy point list has one hw.dummy point with tag test=dummy |
| Omreport.ComponentRow | omreport.go:33-38 | a chassis/system row gives a point exactly when it has two fields and is not the SEVERITY header. The value is 0 or 1, and 0 exactly for a healthy status. The only tag is component, which is the name with every space turned into '_' |
| Omreport.ComponentCallback | omreport.go:33-38 | the chassis/system callback appends exactly ComponentRow's points |
| Omreport.StorageId | omreport.go:61 | the id has the raw field's length, with every ':' turned into '_' and no ':' left |
| Omreport.StatusRow | omreport.go:57-62 | a row gives a point exactly when it has at least three fields and is not the header. The point carries the raw status and the single tag id = StorageId(fields[0]), the first field with every ':' as '_' |
| Omreport.StatusCallback | omreport.go:57-62 | the enclosure/vdisk/ps/battery/pdisk callback appends exactly StatusRow's points |
| Omreport.ControllerCallback | omreport.go:147-178 | a controller row appends the pdisk report of its id, then its own status point |
| Omreport.StoragePDiskReport | omreport.go:184-234 | the pdisk report appends the rows of `storage pdisk controller=<id>` to the caller's list |
| Omreport.ControllerRowOrder | omreport.go:151-154 | an accepted controller row's points are all pdisk points for the raw id, followed by the controller's point with the converted id |
| Omreport.PowerRow | omreport.go:109-128 | only a "Current" row with two fields or a six-field system board row emits, and only the four power metrics appear |
| Omreport.PowerCallback | omreport.go:109-128 | the pwrmonitoring callback appends exactly PowerRow's points, with the corrected current guard |
| Omreport.CurrentRow | omreport.go:110-117 | a current row emits exactly when its reading has two words. The value is the first word, tagged with the label before "Current" with its spaces removed |
| Omreport.CurrentRowAsWritten | omreport.go:110-117 | with the `&&` guard as written, the row indexes out of range exactly when the reading has no words |
| Omreport.CurrentGuardNeverFires | omreport.go:113 | the written guard never returns early, because a field containing "Current" always splits in two |
| Omreport.CurrentRowEmptyReading | omreport.go:110-117 | the row "PS1 Current 1;" makes the written code index an empty slice; the corrected guard drops it |
| Omreport.ThresholdRow | omreport.go:118-127 | the board row emits its reading, warn and fail levels, in that order, exactly when all three readings have two words |
| Omreport.NameTag | omreport.go:245 | the per-unit tag set is the single name tag replace(fields[2]), made of allowed characters |
| Omreport.UnitRow | omreport.go:238-247 | a processor (8 fields) or memory (5 fields) row emits exactly when the count matches and the index is a number. It emits its status tagged with the name |
| Omreport.ProcessorCallback | omreport.go:238-247 | the processors callback appends exactly UnitRow's points for 8 fields |
| Omreport.MemoryCallback | omreport.go:276-286 | the memory callback appends exactly UnitRow's points for 5 fields |
| Omreport.FanSpeed | omreport.go:263-266 | a speed is read exactly for a two-word reading ending in RPM whose first word is an int64 |
| Omreport.FanSpeedOf | omreport.go:263-266 | the reading "<n> RPM" gives Atoi(n) |
| Omreport.FanRow | omreport.go:254-269 | an accepted fan row gives its status point and, exactly when the speed parses, a second point with that speed, both tagged with the name |
| Omreport.FanCallback | omreport.go:254-269 | the fans callback appends exactly FanRow's points |
| Omreport.FanRowWithSpeed | omreport.go:254-269 | an accepted row with reading "<n> RPM" and numeric n gives the status and speed points |
| Omreport.FanRowExample | omreport.go:252-272 | the row 1;Ok;FAN 1 RPM;2400 RPM gives status Ok and speed 2400, tagged name=FAN_1_RPM |
| Omreport.FanNameExample | omreport.go:261 | the fan name "FAN 1 RPM" is tagged as "FAN_1_RPM" |
| Omreport.Temperature | omreport.go:301-304 | a temperature is read exactly from a two-word reading ending in C whose first word ParseFloat accepts, and it is that word's value |
| Omreport.TempRow | omreport.go:292-307 | an accepted temps row gives its status point and, exactly when the reading parses, the temperature point |
| Omreport.TempCallback | omreport.go:292-307 | the temps callback appends exactly TempRow's points |
| Omreport.VoltRow | omreport.go:314-325 | an accepted volts row gives its status point and, exactly when extract(…, "V") succeeds, the voltage point of a reading ending in V |
| Omreport.VoltCallback | omreport.go:314-325 | the volts callback appends exactly VoltRow's points |
| Omreport.RowWellFormed | omreport.go:31-328 | every point of every row has a metric of its domain, a zero timestamp, a ':'-free id and a name of allowed characters |
| Omreport.TaggedWellFormed | omreport.go:245 | a point tagged with a row's name tag is well formed |
| Omreport.PowerRowWellFormed | omreport.go:109-128 | pwrmonitoring rows emit only power metrics |
| Omreport.FanRowWellFormed | omreport.go:254-269 | fan points are well formed |
| Omreport.TempRowWellFormed | omreport.go:292-307 | temps points are well formed |
| Omreport.VoltRowWellFormed | omreport.go:314-325 | volts points are well formed |
| Omreport.EmitWellFormed | omreport.go:15-21 | every point of a run of lines is well formed, whatever the lines |
| Omreport.CollectedWellFormed | omreport.go:13-23 | every point of a whole report is well formed for its domain, whatever the tool prints |
| Omreport.Collect | omreport.go:31-41 | a collector returns a fresh list holding exactly the points of its readOmreport run |
| Collection.Registry | main.go:127-142 | the registry has exactly the fourteen collector names, and each runs its own domain's report or the dummy report |
| Collection.DefaultEnabledLiteral | main.go:42 | the default -collect value is the literal "dummy,chassis,memory,processors" |
| Collection.DefaultEnabledNames | main.go:42 | the default -collect value splits into dummy, chassis, memory and processors |
| Collection.DefaultEnabledRegistered | main.go:42 | all four default collectors are registered, so a default pass runs to completion |
| Collection.MetricStorage.constructor | main.go:50-54 | a new storage has no collections |
| Collection.MetricStorage.CollectPass | main.go:107-117 | the registered names before the first unknown one are run in order, each storing its output under its name. The pass panics at that first unknown name, or completes |
| Collection.PassResult | main.go:107-117 | after a complete pass, each listed name holds its collector's points, unlisted names keep theirs, and nothing is removed |
| Collection.RegisteredPrefix | main.go:107-110 | the count of leading names that have a collector: all before it are registered, and the one at it is not |
| Collection.RegisteredPrefixAt | main.go:107-110 | the first unregistered position is the registered prefix |
| Collection.OverwriteStep | main.go:115 | one more name writes its collector's output over the map built so far |
| Collection.OverwriteLastWins | main.go:115 | a name listed twice keeps the output of its last occurrence |
| Collection.OverwriteOthers | main.go:115 | a name not listed keeps its entry, or its absence |
| Collection.OverwriteKeys | main.go:115 | the keys afterwards are the old keys plus the listed names |
| Collection.OverwriteByKey | main.go:107-117 | when each output depends only on its name, every listed name holds that output |
| Zabbix.NewDiscoveryItem | zabbix.go:19-24 | the item carries the given name |
| Zabbix.KeyPrefixShape | zabbix.go:29 | the key starts "hw.", has the name's length plus three, and has every '_' of the name as '.'. With no labels the key is that prefix alone |
| Zabbix.ItemKeyFields | zabbix.go:29-32 | splitting a key on '.' gives "hw", the parts of the converted name, and then each dot-free label value in the order they were visited |
| Zabbix.EnumerationSize | zabbix.go:30 | visiting each key of a map once takes exactly as many steps as it has keys |
| Zabbix.Cache.AddToZabbix | zabbix.go:26-34 | the cache gets the value under the key built from the name and every label value in visit order. Each label is visited once, and every other key is unchanged |
| Zabbix.Cache.SendToZabbix | zabbix.go:36-75 | Discovery mode creates one distinct item per cached key and sends the marshalled document under dellhw.components.discovery. If marshalling fails, nothing is sent and the outcome is "2"/2. Otherwise the cache itself is sent. A failed send gives "4"/4, a successful one "0"/0 |

## Left out

- Running the `omreport` process (util.ReadCommand, the executable path) is not modelled. Its output is the `Tool` parameter.
- The HTTP server, the flags, the goroutine, the 60-second sleep loop and the mutexes are not modelled. `CollectPass` is one pass of the loop, run without concurrency.
- prometheus.go and storage.go are not part of this model. Neither are `main` and the test file's variant of the callbacks.
- `AddMeta` has an empty body in the source and is modelled as a method that changes nothing. The metadata structures (`HWControllerMeta`, `HWDiskMeta`, `HWPowerSupply`) and the extra fields they read are modelled only as far as the row tests they affect; their contents are dropped.
- Logging (`log.Println`, `log.Debug`) is not modelled.
- The rate, unit and description passed to `Add` are not kept, because `Add` ignores them.
- `Collection.MetricStorage.CollectPass`: collections hold the point lists by value, not through `*MultiDataPoint`. Each run allocates a fresh list, so the two cannot alias.
- A collector's error result is not modelled, because every collector returns nil. The only effect of an error would be a log line.
- The Zabbix network send, the address resolution, `zabbixFromHost` and `MakeDataItems` are not modelled. The sender is a function parameter and the payload is the map it receives.
- `os.Exit` is modelled as the printed text and exit status it would produce.
- `json.Marshal` is a function parameter of `SendToZabbix`. Its output format is not modelled.
- Metrics.Extract: a failed parse carries only the reason "invalid syntax", not Go's full message that also quotes the input; no caller reads the message.
- GoStrings.ParseFloat: only sign, digits, an optional fraction and an optional exponent are accepted. The value is exact, so float64 rounding and the range error are not modelled. Hex floats, "inf", "nan" and underscores are not accepted. The model assumes that the temperature and voltage readings omreport prints are plain decimals; for any other reading its result may differ from Go's.
- GoStrings.IsLetter and GoStrings.IsDigit: only ASCII letters and digits are recognised, not all of Unicode's. Characters are Unicode scalar values, and UTF-8 decoding of invalid bytes is not modelled.
- Util.Replace: the emptiness test counts characters, not UTF-8 bytes. The two agree on whether the result is empty.
- The order Go's map iteration visits labels and cache keys in is unspecified. The model lets it be any order (a nondeterministic choice) and states the results for all of them.

## Findings

| source | as written | input that shows it | evidently intended | confidence | as-written member | corrected member |
|---|---|---|---|---|---|---|
| omreport.go:113 | `if len(iFields) < 2 && len(vFields) < 2 { return }` guards the current row with `&&`. Since a field containing "Current" always splits in two, the guard never returns. `vFields[0]` is then read even when the reading is empty | the pwrmonitoring row `PS1 Current 1;` (fields "PS1 Current 1" and "") indexes an empty slice and panics | a logical or: drop the row unless both splits have two parts | not executed | Omreport.CurrentRowAsWritten, Omreport.CurrentRowEmptyReading | Omreport.CurrentRow |
