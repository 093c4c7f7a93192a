/** omreport.go: reading the omreport tool's ';'-separated output and the row
    callback of every collector. */
module Omreport {
  import opened GoStrings
  import opened Util
  import opened Metrics

  /** What the omreport tool prints, line by line, for each argument vector;
      an argument vector it has no entry for prints nothing. */
  type Tool = map<seq<string>, seq<string>>

  function Lines(tool: Tool, argv: seq<string>): seq<string> {
    if argv in tool then tool[argv] else []
  }

  /** readOmreport always asks for the semicolon-separated format. */
  const FormatArgs: seq<string> := ["-fmt", "ssv"]

  /** The hardware domains, one per row callback. */
  datatype Domain =
    | Chassis | System | StorageEnclosure | StorageVDisk | PowerSupplies
    | PowerMonitoring | StorageBattery | StorageController
    | StoragePDisk(controller: string)
    | Processors | Fans | Memory | Temps | Volts

  /** The arguments each collector hands to readOmreport. */
  function ArgsOf(d: Domain): seq<string> {
    match d
    case Chassis => ["chassis"]
    case System => ["system"]
    case StorageEnclosure => ["storage", "enclosure"]
    case StorageVDisk => ["storage", "vdisk"]
    case PowerSupplies => ["chassis", "pwrsupplies"]
    case PowerMonitoring => ["chassis", "pwrmonitoring"]
    case StorageBattery => ["storage", "battery"]
    case StorageController => ["storage", "controller"]
    case StoragePDisk(id) => ["storage", "pdisk", "controller=" + id]
    case Processors => ["chassis", "processors"]
    case Fans => ["chassis", "fans"]
    case Memory => ["chassis", "memory"]
    case Temps => ["chassis", "temps"]
    case Volts => ["chassis", "volts"]
  }

  /** Only the controller callback starts another readOmreport. */
  function Level(d: Domain): nat {
    if d.StorageController? then 1 else 0
  }

  // ---- the split-and-clean step -------------------------------------------

  /** The fields a line is handed to its callback as. */
  function SplitFields(line: string): seq<string> {
    var parts := Split(line, ';');
    seq(|parts|, i requires 0 <= i < |parts| => Clean([parts[i]]))
  }

  /** readOmreport's per-line step: split on ';', then clean every piece in
      place. */
  method SplitClean(line: string) returns (fields: seq<string>)
    ensures |fields| == Count(line, ';') + 1 && |fields| == |Split(line, ';')|
    ensures forall i :: 0 <= i < |fields| ==> fields[i] == Clean([Split(line, ';')[i]])
    ensures fields == SplitFields(line)
  {
    var parts := Split(line, ';');
    SplitCount(line, ';');
    var sp := new string[|parts|](i requires 0 <= i < |parts| => parts[i]);
    var i := 0;
    while i < sp.Length
      invariant 0 <= i <= sp.Length
      invariant forall k :: 0 <= k < i ==> sp[k] == Clean([parts[k]])
      invariant forall k :: i <= k < sp.Length ==> sp[k] == parts[k]
    {
      sp[i] := Clean([sp[i]]);
      i := i + 1;
    }
    fields := sp[..];
  }

  /** Every field handed to a callback is clean. */
  lemma SplitFieldsClean(line: string)
    ensures forall i :: 0 <= i < |SplitFields(line)| ==> IsClean(SplitFields(line)[i])
  {
    var parts := Split(line, ';');
    forall i | 0 <= i < |parts| ensures IsClean(SplitFields(line)[i]) {
      CleanIsClean([parts[i]]);
    }
  }

  // ---- row callbacks as functions ---------------------------------------

  /** chassis and system: a two-field row "status;component". */
  function ComponentRow(metric: string, fields: seq<string>): (r: seq<DataPoint>)
    ensures r != [] <==> |fields| == 2 && fields[0] != "SEVERITY"
    ensures r != [] ==> |r| == 1 && r[0].metric == metric && r[0].timestamp == 0
    ensures r != [] ==> r[0].value.IntValue? && (r[0].value.i == 0 <==> fields[0] == "Ok" || fields[0] == "Non-Critical")
    ensures r != [] ==> r[0].value.i in {0, 1}
    ensures r != [] ==> r[0].tags.Keys == {"component"}
    ensures r != [] ==> var c := r[0].tags["component"];
      |c| == |fields[1]| && ' ' !in c
      && forall i :: 0 <= i < |c| ==> c[i] == if fields[1][i] == ' ' then '_' else fields[1][i]
  {
    if |fields| != 2 || fields[0] == "SEVERITY" then []
    else [DataPoint(metric, 0, IntValue(Severity(fields[0])), map["component" := ReplaceChar(fields[1], ' ', "_")])]
  }

  /** The id of a storage or power-supply row: the first field with ':'
      turned into '_'. */
  function StorageId(raw: string): (id: string)
    ensures |id| == |raw| && ':' !in id
    ensures forall i :: 0 <= i < |raw| ==> id[i] == if raw[i] == ':' then '_' else raw[i]
  {
    ReplaceChar(raw, ':', "_")
  }

  predicate StatusAccepted(header: string, fields: seq<string>) {
    |fields| >= 3 && fields[0] != header
  }

  /** enclosure, vdisk, battery, pdisk (header "ID") and power supplies
      (header "Index"): one point with the raw status and the derived id. */
  function StatusRow(metric: string, header: string, fields: seq<string>): (r: seq<DataPoint>)
    ensures r != [] <==> StatusAccepted(header, fields)
    ensures r != [] ==> |r| == 1 && r[0].metric == metric && r[0].timestamp == 0 && r[0].value == Text(fields[1])
    ensures r != [] ==> r[0].tags == map["id" := StorageId(fields[0])]
    ensures r != [] ==> r[0].tags.Keys == {"id"} && ':' !in r[0].tags["id"] && |r[0].tags["id"]| == |fields[0]|
  {
    if !StatusAccepted(header, fields) then []
    else [DataPoint(metric, 0, Text(fields[1]), map["id" := StorageId(fields[0])])]
  }

  const PowerConsumption := "System Board Pwr Consumption"
  const PowerSystemLevel := "System Board System Level"

  /** A current row of pwrmonitoring, with the guard the code evidently
      means: both a "Current" split and a two-token reading are needed. */
  function CurrentRow(fields: seq<string>): (r: seq<DataPoint>)
    requires |fields| == 2 && Contains(fields[0], "Current")
    ensures r != [] <==> |Fields(fields[1])| >= 2
    ensures r != [] ==> (|r| == 1 && r[0].metric == "hw.chassis.current.reading"
      && r[0].value == Text(Fields(fields[1])[0])
      && r[0].tags == map["id" := ReplaceChar(fields[0][..Index(fields[0], "Current")], ' ', "")])
    ensures r != [] ==> ' ' !in r[0].tags["id"]
  {
    var iFields := SplitOn(fields[0], "Current");
    var vFields := Fields(fields[1]);
    if |iFields| < 2 || |vFields| < 2 then []
    else [DataPoint("hw.chassis.current.reading", 0, Text(vFields[0]), map["id" := ReplaceChar(iFields[0], ' ', "")])]
  }

  /** The outcome of the current branch as written: a Go panic is possible. */
  datatype RowOutcome = Emitted(points: seq<DataPoint>) | IndexOutOfRange

  /** The current branch as written at omreport.go:110-117: its guard joins
      the two length tests with `&&`. */
  function CurrentRowAsWritten(fields: seq<string>): (r: RowOutcome)
    requires |fields| == 2 && Contains(fields[0], "Current")
    ensures r == IndexOutOfRange <==> Fields(fields[1]) == []
  {
    var iFields := SplitOn(fields[0], "Current");
    var vFields := Fields(fields[1]);
    if |iFields| < 2 && |vFields| < 2 then Emitted([])
    else if |vFields| == 0 then IndexOutOfRange
    else Emitted([DataPoint("hw.chassis.current.reading", 0, Text(vFields[0]), map["id" := ReplaceChar(iFields[0], ' ', "")])])
  }

  /** The written guard can never return: a field containing "Current"
      always splits into at least two pieces. */
  lemma CurrentGuardNeverFires(fields: seq<string>)
    requires |fields| == 2 && Contains(fields[0], "Current")
    ensures CurrentRowAsWritten(fields) != Emitted([])
  {
  }

  /** A row whose reading is empty makes the written code index an empty
      slice, where the corrected guard drops the row. */
  lemma CurrentRowEmptyReading()
    ensures CurrentRowAsWritten(["PS1 Current 1", ""]) == IndexOutOfRange
    ensures CurrentRow(["PS1 Current 1", ""]) == []
  {
    assert Index("PS1 Current 1", "Current") == 4 by {
      assert OccursAt("PS1 Current 1", "Current", 4);
      forall j | 0 <= j < 4 ensures !OccursAt("PS1 Current 1", "Current", j) {
        assert "PS1 Current 1"[j] != 'C';
      }
      assert Index("PS1 Current 1", "Current") <= 4;
    }
  }

  /** The three threshold readings of the system board power row. */
  function ThresholdRow(fields: seq<string>): (r: seq<DataPoint>)
    requires |fields| == 6
    ensures r == [] || |r| == 3
    ensures r != [] <==> |Fields(fields[3])| >= 2 && |Fields(fields[4])| >= 2 && |Fields(fields[5])| >= 2
    ensures r != [] ==>
      && r[0] == DataPoint("hw.chassis.power.reading", 0, Text(Fields(fields[3])[0]), map[])
      && r[1] == DataPoint("hw.chassis.power.warn_level", 0, Text(Fields(fields[4])[0]), map[])
      && r[2] == DataPoint("hw.chassis.power.fail_level", 0, Text(Fields(fields[5])[0]), map[])
  {
    var v, w, f := Fields(fields[3]), Fields(fields[4]), Fields(fields[5]);
    if |v| < 2 || |w| < 2 || |f| < 2 then []
    else [DataPoint("hw.chassis.power.reading", 0, Text(v[0]), map[]),
          DataPoint("hw.chassis.power.warn_level", 0, Text(w[0]), map[]),
          DataPoint("hw.chassis.power.fail_level", 0, Text(f[0]), map[])]
  }

  /** pwrmonitoring: a current row or a system board power row. */
  function PowerRow(fields: seq<string>): (r: seq<DataPoint>)
    ensures r != [] ==> (|fields| == 2 && Contains(fields[0], "Current")) || (|fields| == 6 && (fields[2] == PowerConsumption || fields[2] == PowerSystemLevel))
    ensures forall p :: p in r ==> p.metric in {"hw.chassis.current.reading", "hw.chassis.power.reading", "hw.chassis.power.warn_level", "hw.chassis.power.fail_level"}
  {
    if |fields| == 2 && Contains(fields[0], "Current") then CurrentRow(fields)
    else if |fields| == 6 && (fields[2] == PowerConsumption || fields[2] == PowerSystemLevel) then ThresholdRow(fields)
    else []
  }

  /** The rows of per-unit domains: an exact field count and a numeric index. */
  predicate UnitAccepted(count: nat, fields: seq<string>) {
    |fields| == count && count >= 1 && Atoi(fields[0]).Some?
  }

  /** The tag of a per-unit row: its sanitised name field. */
  function NameTag(fields: seq<string>): (ts: TagSet)
    requires |fields| >= 3
    ensures ts.Keys == {"name"} && ts["name"] == SanitizedName(fields[2])
    ensures forall i :: 0 <= i < |ts["name"]| ==> Allowed(ts["name"][i])
  {
    SanitizedNameAllowed(fields[2]);
    map["name" := SanitizedName(fields[2])]
  }

  /** processors (8 fields) and memory (5 fields): one status point. */
  function UnitRow(metric: string, count: nat, fields: seq<string>): (r: seq<DataPoint>)
    requires count >= 3
    ensures r != [] <==> UnitAccepted(count, fields)
    ensures r != [] ==> r == [DataPoint(metric, 0, Text(fields[1]), NameTag(fields))]
  {
    if !UnitAccepted(count, fields) then []
    else [DataPoint(metric, 0, Text(fields[1]), NameTag(fields))]
  }

  /** The fan speed in a "2400 RPM" reading. */
  function FanSpeed(reading: string): (r: Option<int>)
    ensures r.Some? <==> |Fields(reading)| == 2 && Fields(reading)[1] == "RPM" && Atoi(Fields(reading)[0]).Some?
    ensures r.Some? ==> r == Atoi(Fields(reading)[0])
  {
    var fs := Fields(reading);
    if |fs| == 2 && fs[1] == "RPM" then Atoi(fs[0]) else None
  }

  /** fans: the status point, then the speed when the reading has one. */
  function FanRow(fields: seq<string>): (r: seq<DataPoint>)
    ensures r != [] <==> UnitAccepted(8, fields)
    ensures r != [] ==> 1 <= |r| <= 2 && r[0] == DataPoint("hw.chassis.fan", 0, Text(fields[1]), NameTag(fields))
    ensures r != [] ==> (|r| == 2 <==> FanSpeed(fields[3]).Some?)
    ensures |r| == 2 ==> r[1] == DataPoint("hw.chassis.fan.reading", 0, IntValue(FanSpeed(fields[3]).value), NameTag(fields))
  {
    if !UnitAccepted(8, fields) then []
    else
      var ts := NameTag(fields);
      [DataPoint("hw.chassis.fan", 0, Text(fields[1]), ts)]
      + match FanSpeed(fields[3])
        case Some(i) => [DataPoint("hw.chassis.fan.reading", 0, IntValue(i), ts)]
        case None => []
  }

  /** The temperature in a "37.0 C" reading. */
  function Temperature(reading: string): (r: Option<Decimal>)
    ensures r.Some? ==> |Fields(reading)| == 2 && Fields(reading)[1] == "C" && r == ParseFloat(Fields(reading)[0])
    ensures |Fields(reading)| == 2 && Fields(reading)[1] == "C" ==> r == ParseFloat(Fields(reading)[0])
  {
    var fs := Fields(reading);
    if |fs| == 2 && fs[1] == "C" then ParseFloat(fs[0]) else None
  }

  /** temps: the status point, then the reading when it parses. */
  function TempRow(fields: seq<string>): (r: seq<DataPoint>)
    ensures r != [] <==> UnitAccepted(8, fields)
    ensures r != [] ==> 1 <= |r| <= 2 && r[0] == DataPoint("hw.chassis.temps", 0, Text(fields[1]), NameTag(fields))
    ensures r != [] ==> (|r| == 2 <==> Temperature(fields[3]).Some?)
    ensures |r| == 2 ==> r[1] == DataPoint("hw.chassis.temps.reading", 0, Number(Temperature(fields[3]).value), NameTag(fields))
  {
    if !UnitAccepted(8, fields) then []
    else
      var ts := NameTag(fields);
      [DataPoint("hw.chassis.temps", 0, Text(fields[1]), ts)]
      + match Temperature(fields[3])
        case Some(t) => [DataPoint("hw.chassis.temps.reading", 0, Number(t), ts)]
        case None => []
  }

  /** volts: the status point, then the extracted voltage when it parses. */
  function VoltRow(fields: seq<string>): (r: seq<DataPoint>)
    ensures r != [] <==> UnitAccepted(8, fields)
    ensures r != [] ==> 1 <= |r| <= 2 && r[0] == DataPoint("hw.chassis.volts", 0, Text(fields[1]), NameTag(fields))
    ensures r != [] ==> (|r| == 2 <==> Extract(fields[3], "V").Ok?)
    ensures |r| == 2 ==> (HasSuffix(fields[3], "V")
      && r[1] == DataPoint("hw.chassis.volts.reading", 0, Number(Extract(fields[3], "V").value), NameTag(fields)))
  {
    if !UnitAccepted(8, fields) then []
    else
      var ts := NameTag(fields);
      [DataPoint("hw.chassis.volts", 0, Text(fields[1]), ts)]
      + match Extract(fields[3], "V")
        case Ok(v) => [DataPoint("hw.chassis.volts.reading", 0, Number(v), ts)]
        case Err(_) => []
  }

  /** The points one row of domain `d` appends; a controller row first runs
      the pdisk report for its raw id. */
  function Row(tool: Tool, d: Domain, fields: seq<string>): seq<DataPoint>
    decreases Level(d), 0
  {
    match d
    case Chassis => ComponentRow("hw.chassis", fields)
    case System => ComponentRow("hw.system", fields)
    case StorageEnclosure => StatusRow("hw.storage.enclosure", "ID", fields)
    case StorageVDisk => StatusRow("hw.storage.vdisk", "ID", fields)
    case PowerSupplies => StatusRow("hw.ps", "Index", fields)
    case PowerMonitoring => PowerRow(fields)
    case StorageBattery => StatusRow("hw.storage.battery", "ID", fields)
    case StorageController =>
      if !StatusAccepted("ID", fields) then []
      else Collected(tool, StoragePDisk(fields[0])) + StatusRow("hw.storage.controller", "ID", fields)
    case StoragePDisk(_) => StatusRow("hw.storage.pdisk", "ID", fields)
    case Processors => UnitRow("hw.chassis.processor", 8, fields)
    case Fans => FanRow(fields)
    case Memory => UnitRow("hw.chassis.memory", 5, fields)
    case Temps => TempRow(fields)
    case Volts => VoltRow(fields)
  }

  /** The points that the callback of `d` appends for `lines`, in order. */
  function Emit(tool: Tool, d: Domain, lines: seq<string>): seq<DataPoint>
    decreases Level(d), 1, |lines|
  {
    if lines == [] then []
    else Emit(tool, d, lines[..|lines| - 1]) + Row(tool, d, SplitFields(lines[|lines| - 1]))
  }

  /** The points one readOmreport run for `d` appends. */
  function Collected(tool: Tool, d: Domain): seq<DataPoint>
    decreases Level(d), 2
  {
    Emit(tool, d, Lines(tool, ArgsOf(d) + FormatArgs))
  }

  // ---- properties of whole reports ---------------------------------------

  /** The metric names domain `d` may emit. */
  function MetricsOf(d: Domain): set<string> {
    match d
    case Chassis => {"hw.chassis"}
    case System => {"hw.system"}
    case StorageEnclosure => {"hw.storage.enclosure"}
    case StorageVDisk => {"hw.storage.vdisk"}
    case PowerSupplies => {"hw.ps"}
    case PowerMonitoring => {"hw.chassis.current.reading", "hw.chassis.power.reading", "hw.chassis.power.warn_level", "hw.chassis.power.fail_level"}
    case StorageBattery => {"hw.storage.battery"}
    case StorageController => {"hw.storage.controller", "hw.storage.pdisk"}
    case StoragePDisk(_) => {"hw.storage.pdisk"}
    case Processors => {"hw.chassis.processor"}
    case Fans => {"hw.chassis.fan", "hw.chassis.fan.reading"}
    case Memory => {"hw.chassis.memory"}
    case Temps => {"hw.chassis.temps", "hw.chassis.temps.reading"}
    case Volts => {"hw.chassis.volts", "hw.chassis.volts.reading"}
  }

  /** What every point of domain `d` looks like: a metric of the domain, a
      zero timestamp, an id tag without ':' and a name tag of allowed
      characters. */
  predicate WellFormed(d: Domain, p: DataPoint) {
    && p.metric in MetricsOf(d)
    && p.timestamp == 0
    && ("id" in p.tags && !d.PowerMonitoring? ==> ':' !in p.tags["id"])
    && ("name" in p.tags ==> forall i :: 0 <= i < |p.tags["name"]| ==> Allowed(p.tags["name"][i]))
  }

  lemma {:induction false} RowWellFormed(tool: Tool, d: Domain, fields: seq<string>)
    ensures forall p :: p in Row(tool, d, fields) ==> WellFormed(d, p)
    decreases Level(d), 0
  {
    match d
    case StorageController =>
      if StatusAccepted("ID", fields) {
        var pd := StoragePDisk(fields[0]);
        CollectedWellFormed(tool, pd);
        assert Row(tool, d, fields) == Collected(tool, pd) + StatusRow("hw.storage.controller", "ID", fields);
        forall p | p in Row(tool, d, fields) ensures WellFormed(d, p) {
          if p in Collected(tool, pd) { assert WellFormed(pd, p); }
        }
      }
    case PowerMonitoring => PowerRowWellFormed(fields);
    case Fans => FanRowWellFormed(fields);
    case Temps => TempRowWellFormed(fields);
    case Volts => VoltRowWellFormed(fields);
    case _ =>
  }

  /** A point with a metric of the domain and the name tag of its row. */
  lemma TaggedWellFormed(d: Domain, metric: string, v: Value, fields: seq<string>)
    requires metric in MetricsOf(d) && |fields| >= 3
    ensures WellFormed(d, DataPoint(metric, 0, v, NameTag(fields)))
  {
  }

  lemma PowerRowWellFormed(fields: seq<string>)
    ensures forall p :: p in PowerRow(fields) ==> WellFormed(PowerMonitoring, p)
  {
  }

  lemma FanRowWellFormed(fields: seq<string>)
    ensures forall p :: p in FanRow(fields) ==> WellFormed(Fans, p)
  {
    var r := FanRow(fields);
    if r != [] {
      TaggedWellFormed(Fans, "hw.chassis.fan", r[0].value, fields);
      if |r| == 2 {
        TaggedWellFormed(Fans, "hw.chassis.fan.reading", r[1].value, fields);
      }
      assert forall p :: p in r ==> p == r[0] || p == r[|r| - 1];
    }
  }

  lemma TempRowWellFormed(fields: seq<string>)
    ensures forall p :: p in TempRow(fields) ==> WellFormed(Temps, p)
  {
    var r := TempRow(fields);
    if r != [] {
      TaggedWellFormed(Temps, "hw.chassis.temps", r[0].value, fields);
      if |r| == 2 {
        TaggedWellFormed(Temps, "hw.chassis.temps.reading", r[1].value, fields);
      }
      assert forall p :: p in r ==> p == r[0] || p == r[|r| - 1];
    }
  }

  lemma VoltRowWellFormed(fields: seq<string>)
    ensures forall p :: p in VoltRow(fields) ==> WellFormed(Volts, p)
  {
    var r := VoltRow(fields);
    if r != [] {
      TaggedWellFormed(Volts, "hw.chassis.volts", r[0].value, fields);
      if |r| == 2 {
        TaggedWellFormed(Volts, "hw.chassis.volts.reading", r[1].value, fields);
      }
      assert forall p :: p in r ==> p == r[0] || p == r[|r| - 1];
    }
  }

  lemma {:induction false} EmitWellFormed(tool: Tool, d: Domain, lines: seq<string>)
    ensures forall p :: p in Emit(tool, d, lines) ==> WellFormed(d, p)
    decreases Level(d), 1, |lines|
  {
    if lines != [] {
      EmitWellFormed(tool, d, lines[..|lines| - 1]);
      RowWellFormed(tool, d, SplitFields(lines[|lines| - 1]));
    }
  }

  /** Every point a report produces is well formed for its domain, whatever
      the tool prints. */
  lemma {:induction false} CollectedWellFormed(tool: Tool, d: Domain)
    ensures forall p :: p in Collected(tool, d) ==> WellFormed(d, p)
    decreases Level(d), 2
  {
    EmitWellFormed(tool, d, Lines(tool, ArgsOf(d) + FormatArgs));
  }

  /** An accepted controller row appends all points of its pdisk report,
      which asks for the raw, unconverted id, and then its own status. */
  lemma ControllerRowOrder(tool: Tool, fields: seq<string>)
    requires StatusAccepted("ID", fields)
    ensures var r := Row(tool, StorageController, fields);
      && |r| >= 1
      && r[..|r| - 1] == Collected(tool, StoragePDisk(fields[0]))
      && r[|r| - 1] == DataPoint("hw.storage.controller", 0, Text(fields[1]), map["id" := StorageId(fields[0])])
      && forall i :: 0 <= i < |r| - 1 ==> r[i].metric == "hw.storage.pdisk"
  {
    var pd := StoragePDisk(fields[0]);
    assert ArgsOf(pd) == ["storage", "pdisk", "controller=" + fields[0]];
    CollectedWellFormed(tool, pd);
    var r := Row(tool, StorageController, fields);
    assert r == Collected(tool, pd) + StatusRow("hw.storage.controller", "ID", fields);
    forall i | 0 <= i < |r| - 1 ensures r[i].metric == "hw.storage.pdisk" {
      assert r[i] in Collected(tool, pd);
    }
  }

  /** Rows of a domain that does not nest contribute independently: a report
      over two runs of lines is the two reports, one after the other. */
  lemma {:induction false} EmitAppend(tool: Tool, d: Domain, a: seq<string>, b: seq<string>)
    ensures Emit(tool, d, a + b) == Emit(tool, d, a) + Emit(tool, d, b)
    decreases |b|
  {
    if b == [] {
      assert a + b == a;
    } else {
      var b' := b[..|b| - 1];
      var row := Row(tool, d, SplitFields(b[|b| - 1]));
      assert (a + b)[..|a + b| - 1] == a + b';
      assert (a + b)[|a + b| - 1] == b[|b| - 1];
      assert Emit(tool, d, a + b) == Emit(tool, d, a + b') + row;
      EmitAppend(tool, d, a, b');
      AppendAssoc(Emit(tool, d, a), Emit(tool, d, b'), row);
    }
  }

  /** A reading "<n> RPM" with a one-word count gives Atoi's value of n. */
  lemma FanSpeedOf(n: string)
    requires n != [] && SpaceFree(n)
    ensures FanSpeed(n + " RPM") == Atoi(n)
  {
    var ws := [n, "RPM"];
    assert ws[1..] == ["RPM"];
    assert n + " RPM" == Join(ws, " ");
    FieldsOfJoin(ws);
  }

  /** An accepted fan row whose reading is "<n> RPM" gives its status point
      and, when n is a number, a speed point, both with the row's name tag. */
  lemma FanRowWithSpeed(fields: seq<string>, n: string)
    requires UnitAccepted(8, fields) && fields[3] == n + " RPM"
    requires n != [] && SpaceFree(n) && Atoi(n).Some?
    ensures FanRow(fields) ==
      [DataPoint("hw.chassis.fan", 0, Text(fields[1]), NameTag(fields)),
       DataPoint("hw.chassis.fan.reading", 0, IntValue(Atoi(n).value), NameTag(fields))]
  {
    FanSpeedOf(n);
  }

  /** The fan row 1;Ok;FAN 1 RPM;2400 RPM;;;; is accepted, reports status Ok
      and speed 2400, and is tagged name=FAN_1_RPM. */
  lemma FanRowExample()
    ensures var fields := ["1", "Ok", "FAN 1 RPM", "2400 RPM", "", "", "", ""];
      && FanRow(fields) ==
        [DataPoint("hw.chassis.fan", 0, Text("Ok"), NameTag(fields)),
         DataPoint("hw.chassis.fan.reading", 0, IntValue(2400), NameTag(fields))]
      && NameTag(fields)["name"] == "FAN_1_RPM"
  {
    var fields := ["1", "Ok", "FAN 1 RPM", "2400 RPM", "", "", "", ""];
    AtoiExamples();
    assert UnitAccepted(8, fields);
    assert fields[3] == "2400" + " RPM";
    FanRowWithSpeed(fields, "2400");
    FanNameExample();
  }

  lemma AtoiExamples()
    ensures Atoi("1") == Some(1) && Atoi("2400") == Some(2400)
  {
    assert "1"[..0] == "";
    assert "2400"[..3] == "240" && "240"[..2] == "24" && "24"[..1] == "2" && "2"[..0] == "";
  }

  lemma FanNameExample()
    ensures SanitizedName("FAN 1 RPM") == "FAN_1_RPM"
  {
    var ws := ["FAN", "1", "RPM"];
    assert Join(ws, " ") == "FAN 1 RPM";
    SanitizedJoin(ws, "_");
    assert Join(ws, "_") == "FAN_1_RPM";
  }

  lemma EmitStep(tool: Tool, d: Domain, lines: seq<string>, i: nat)
    requires i < |lines|
    ensures Emit(tool, d, lines[..i + 1]) == Emit(tool, d, lines[..i]) + Row(tool, d, SplitFields(lines[i]))
  {
    assert lines[..i + 1][..i] == lines[..i] && lines[..i + 1][i] == lines[i];
  }

  lemma AppendAssoc<T>(a: seq<T>, b: seq<T>, c: seq<T>)
    ensures (a + b) + c == a + (b + c)
  {
  }

  /** readOmreport: run the tool for `d` and feed every split, cleaned line to
      the callback of `d`, which appends to `md`. */
  method ReadOmreport(tool: Tool, d: Domain, md: MultiDataPoint)
    modifies md
    ensures md.points == old(md.points) + Collected(tool, d)
    decreases Level(d), 2
  {
    var lines := Lines(tool, ArgsOf(d) + FormatArgs);
    var i := 0;
    while i < |lines|
      invariant 0 <= i <= |lines|
      invariant md.points == old(md.points) + Emit(tool, d, lines[..i])
    {
      var fields := SplitClean(lines[i]);
      Callback(tool, d, fields, md);
      EmitStep(tool, d, lines, i);
      AppendAssoc(old(md.points), Emit(tool, d, lines[..i]), Row(tool, d, fields));
      i := i + 1;
    }
    assert lines[..|lines|] == lines;
  }

  method Callback(tool: Tool, d: Domain, fields: seq<string>, md: MultiDataPoint)
    modifies md
    ensures md.points == old(md.points) + Row(tool, d, fields)
    decreases Level(d), 1
  {
    match d
    case Chassis => ComponentCallback("hw.chassis", DescChassis, fields, md);
    case System => ComponentCallback("hw.system", DescSystem, fields, md);
    case StorageEnclosure => StatusCallback("hw.storage.enclosure", "ID", DescStorageEnc, fields, md);
    case StorageVDisk => StatusCallback("hw.storage.vdisk", "ID", DescVDisk, fields, md);
    case PowerSupplies => StatusCallback("hw.ps", "Index", DescPowerSupply, fields, md);
    case PowerMonitoring => PowerCallback(fields, md);
    case StorageBattery => StatusCallback("hw.storage.battery", "ID", DescStorageBattery, fields, md);
    case StorageController => ControllerCallback(tool, fields, md);
    case StoragePDisk(_) => StatusCallback("hw.storage.pdisk", "ID", DescPDisk, fields, md);
    case Processors => ProcessorCallback(fields, md);
    case Fans => FanCallback(fields, md);
    case Memory => MemoryCallback(fields, md);
    case Temps => TempCallback(fields, md);
    case Volts => VoltCallback(fields, md);
  }

  /** c_omreport_chassis and c_omreport_system. */
  method ComponentCallback(metric: string, desc: string, fields: seq<string>, md: MultiDataPoint)
    modifies md
    ensures md.points == old(md.points) + ComponentRow(metric, fields)
  {
    if |fields| != 2 || fields[0] == "SEVERITY" {
      return;
    }
    var component := ReplaceChar(fields[1], ' ', "_");
    md.Add(metric, IntValue(Severity(fields[0])), map["component" := component], Gauge, OkUnit, desc);
  }

  /** enclosure, vdisk, power supplies, battery and pdisk; the hardware
      metadata of power supplies and pdisks goes to AddMeta and is dropped. */
  method StatusCallback(metric: string, header: string, desc: string, fields: seq<string>, md: MultiDataPoint)
    modifies md
    ensures md.points == old(md.points) + StatusRow(metric, header, fields)
  {
    if |fields| < 3 || fields[0] == header {
      return;
    }
    var id := ReplaceChar(fields[0], ':', "_");
    md.Add(metric, Text(fields[1]), map["id" := id], Gauge, OkUnit, desc);
  }

  /** c_omreport_storage_controller: the pdisk report of the controller goes
      into the same `md` before the controller's own point. */
  method ControllerCallback(tool: Tool, fields: seq<string>, md: MultiDataPoint)
    modifies md
    ensures md.points == old(md.points) + Row(tool, StorageController, fields)
    decreases 1, 0
  {
    if |fields| < 3 || fields[0] == "ID" {
      return;
    }
    StoragePDiskReport(tool, fields[0], md);
    var id := ReplaceChar(fields[0], ':', "_");
    md.Add("hw.storage.controller", Text(fields[1]), map["id" := id], Gauge, OkUnit, DescStorageCtl);
  }

  /** c_omreport_storage_pdisk, appending to its caller's `md`. */
  method StoragePDiskReport(tool: Tool, id: string, md: MultiDataPoint)
    modifies md
    ensures md.points == old(md.points) + Collected(tool, StoragePDisk(id))
    decreases 0, 3
  {
    ReadOmreport(tool, StoragePDisk(id), md);
  }

  /** c_omreport_ps_amps_sysboard_pwr, with the corrected current guard. */
  method PowerCallback(fields: seq<string>, md: MultiDataPoint)
    modifies md
    ensures md.points == old(md.points) + PowerRow(fields)
  {
    if |fields| == 2 && Contains(fields[0], "Current") {
      var iFields := SplitOn(fields[0], "Current");
      var vFields := Fields(fields[1]);
      if |iFields| < 2 || |vFields| < 2 {
        return;
      }
      var id := ReplaceChar(iFields[0], ' ', "");
      md.Add("hw.chassis.current.reading", Text(vFields[0]), map["id" := id], Gauge, Amps, DescCurrent);
    } else if |fields| == 6 && (fields[2] == PowerConsumption || fields[2] == PowerSystemLevel) {
      var vFields := Fields(fields[3]);
      var warnFields := Fields(fields[4]);
      var failFields := Fields(fields[5]);
      if |vFields| < 2 || |warnFields| < 2 || |failFields| < 2 {
        return;
      }
      md.Add("hw.chassis.power.reading", Text(vFields[0]), map[], Gauge, Watt, DescPower);
      md.Add("hw.chassis.power.warn_level", Text(warnFields[0]), map[], Gauge, Watt, DescPowerThreshold);
      md.Add("hw.chassis.power.fail_level", Text(failFields[0]), map[], Gauge, Watt, DescPowerThreshold);
    }
  }

  method ProcessorCallback(fields: seq<string>, md: MultiDataPoint)
    modifies md
    ensures md.points == old(md.points) + UnitRow("hw.chassis.processor", 8, fields)
  {
    if |fields| != 8 {
      return;
    }
    if Atoi(fields[0]).None? {
      return;
    }
    var name := ReplaceName(fields[2]);
    var ts := map["name" := name];
    md.Add("hw.chassis.processor", Text(fields[1]), ts, Gauge, OkUnit, DescCpu);
    AddMeta("", ts, "processor", Clean([fields[3], fields[4]]), true);
  }

  method FanCallback(fields: seq<string>, md: MultiDataPoint)
    modifies md
    ensures md.points == old(md.points) + FanRow(fields)
  {
    if |fields| != 8 {
      return;
    }
    if Atoi(fields[0]).None? {
      return;
    }
    var name := ReplaceName(fields[2]);
    var ts := map["name" := name];
    md.Add("hw.chassis.fan", Text(fields[1]), ts, Gauge, OkUnit, DescFan);
    var fs := Fields(fields[3]);
    if |fs| == 2 && fs[1] == "RPM" {
      var i := Atoi(fs[0]);
      if i.Some? {
        md.Add("hw.chassis.fan.reading", IntValue(i.value), ts, Gauge, Rpm, DescFanSpeed);
      }
    }
  }

  method MemoryCallback(fields: seq<string>, md: MultiDataPoint)
    modifies md
    ensures md.points == old(md.points) + UnitRow("hw.chassis.memory", 5, fields)
  {
    if |fields| != 5 {
      return;
    }
    if Atoi(fields[0]).None? {
      return;
    }
    var name := ReplaceName(fields[2]);
    var ts := map["name" := name];
    md.Add("hw.chassis.memory", Text(fields[1]), ts, Gauge, OkUnit, DescMemory);
    AddMeta("", ts, "memory", Clean([fields[4]]), true);
  }

  method TempCallback(fields: seq<string>, md: MultiDataPoint)
    modifies md
    ensures md.points == old(md.points) + TempRow(fields)
  {
    if |fields| != 8 {
      return;
    }
    if Atoi(fields[0]).None? {
      return;
    }
    var name := ReplaceName(fields[2]);
    var ts := map["name" := name];
    md.Add("hw.chassis.temps", Text(fields[1]), ts, Gauge, OkUnit, DescTemp);
    var fs := Fields(fields[3]);
    if |fs| == 2 && fs[1] == "C" {
      var t := ParseFloat(fs[0]);
      if t.Some? {
        md.Add("hw.chassis.temps.reading", Number(t.value), ts, Gauge, Celsius, DescTempReadings);
      }
    }
  }

  method VoltCallback(fields: seq<string>, md: MultiDataPoint)
    modifies md
    ensures md.points == old(md.points) + VoltRow(fields)
  {
    if |fields| != 8 {
      return;
    }
    if Atoi(fields[0]).None? {
      return;
    }
    var name := ReplaceName(fields[2]);
    var ts := map["name" := name];
    md.Add("hw.chassis.volts", Text(fields[1]), ts, Gauge, OkUnit, DescVolt);
    var v := Extract(fields[3], "V");
    if v.Ok? {
      md.Add("hw.chassis.volts.reading", Number(v.value), ts, Gauge, Volt, DescVoltReadings);
    }
  }

  // ---- the collectors ------------------------------------------------------

  /** A c_omreport_* collector: a fresh point list filled by one
      readOmreport run (the error it returns is always nil). */
  method Collect(tool: Tool, d: Domain) returns (points: seq<DataPoint>)
    ensures points == Collected(tool, d)
  {
    var md := new MultiDataPoint();
    ReadOmreport(tool, d, md);
    points := md.points;
  }

  /** dummy_report: one fixed point. */
  method DummyReport() returns (points: seq<DataPoint>)
    ensures points == DummyPoints()
  {
    var md := new MultiDataPoint();
    md.Add("hw.dummy", Text("0"), map["test" := "dummy"], Gauge, OkUnit, "Dummy description");
    points := md.points;
  }

  function DummyPoints(): (r: seq<DataPoint>)
    ensures |r| == 1 && r[0].metric == "hw.dummy" && r[0].tags == map["test" := "dummy"]
  {
    [DataPoint("hw.dummy", 0, Text("0"), map["test" := "dummy"])]
  }
}
