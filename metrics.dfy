/** main.go: data points, the in-place Add, and the scalar helpers the row
    parsers use. */
module Metrics {
  import opened GoStrings

  /** The dynamic value a DataPoint carries: a Go int, a raw string, or a
      parsed float64 (kept as an exact decimal). */
  datatype Value = IntValue(i: int) | Text(s: string) | Number(d: Decimal)

  /** TagSet; a nil TagSet is the empty map. */
  type TagSet = map<string, string>

  datatype DataPoint = DataPoint(metric: string, timestamp: int, value: Value, tags: TagSet)

  /** The metadata arguments Add receives and drops. */
  datatype RateType = Gauge
  datatype Unit = OkUnit | Amps | Watt | Rpm | Celsius | Volt

  const DescChassis := "Overall status of chassis components."
  const DescSystem := "Overall status of system components."
  const DescStorageEnc := "Overall status of storage enclosures."
  const DescVDisk := "Overall status of virtual disks."
  const DescPowerSupply := "Overall status of power supplies."
  const DescCurrent := "Amps used per power supply."
  const DescPower := "System board power usage."
  const DescPowerThreshold := "The warning and failure levels set on the device for system board power usage."
  const DescStorageBattery := "Status of storage controller backup batteries."
  const DescStorageCtl := "Overall status of storage controllers."
  const DescPDisk := "Overall status of physical disks."
  const DescCpu := "Overall status of CPUs."
  const DescFan := "Overall status of system fans."
  const DescFanSpeed := "System fan speed."
  const DescMemory := "System RAM DIMM status."
  const DescTemp := "Overall status of system temperature readings."
  const DescTempReadings := "System temperature readings."
  const DescVolt := "Overall status of power supply volt readings."
  const DescVoltReadings := "Volts used per power supply."

  /** MultiDataPoint, a slice that Add appends to through a pointer. */
  class MultiDataPoint {
    var points: seq<DataPoint>

    constructor ()
      ensures points == []
    {
      points := [];
    }

    /** Add appends one point with the given name, value and tags and a zero
        timestamp; rate, unit and description are dropped. */
    method Add(name: string, value: Value, tags: TagSet, rate: RateType, unit: Unit, desc: string)
      modifies this
      ensures points == old(points) + [DataPoint(name, 0, value, tags)]
    {
      points := points + [DataPoint(name, 0, value, tags)];
    }
  }

  /** AddMeta is kept for future use and does nothing; with no modifies
      clause and no results it cannot affect any state. */
  method AddMeta(metric: string, tags: TagSet, name: string, value: string, setHost: bool)
  {
  }

  /** severity collapses a status to 0 (healthy) or 1. */
  function Severity(s: string): (r: int)
    ensures r == 0 || r == 1
    ensures r == 0 <==> s == "Ok" || s == "Non-Critical"
  {
    if s != "Ok" && s != "Non-Critical" then 1 else 0
  }

  const SuffixNotFound := "extract: suffix not found"
  /** The reason of a failed parse; Go's message also quotes the input. */
  const ParseFailed := "invalid syntax"

  /** extract: the number in `s` before `suffix`, spaces around it allowed. */
  function Extract(s: string, suffix: string): (r: Result<Decimal>)
    ensures !HasSuffix(s, suffix) ==> r == Err(SuffixNotFound)
    ensures r.Ok? ==> HasSuffix(s, suffix)
  {
    if !HasSuffix(s, suffix) then Err(SuffixNotFound)
    else
      match ParseFloat(TrimSpace(s[..|s| - |suffix|]))
      case Some(d) => Ok(d)
      case None => Err(ParseFailed)
  }

  /** With the suffix present, extract strips exactly the suffix and parses
      the trimmed rest. */
  lemma ExtractStripsSuffix(prefix: string, suffix: string)
    ensures Extract(prefix + suffix, suffix).Ok? <==> ParseFloat(TrimSpace(prefix)).Some?
    ensures Extract(prefix + suffix, suffix).Ok? ==> Extract(prefix + suffix, suffix).value == ParseFloat(TrimSpace(prefix)).value
  {
    var s := prefix + suffix;
    assert s[|s| - |suffix|..] == suffix;
    assert s[..|s| - |suffix|] == prefix;
  }

  /** extract("42 W", "W") is 42, and extract("42", "W") fails. */
  lemma ExtractExamples()
    ensures Extract("42 W", "W") == Ok(Decimal(42, 0))
    ensures Extract("42", "W") == Err(SuffixNotFound)
  {
    assert "42 W"[3..] == "W" && "42 W"[..3] == "42 ";
    assert TrimSpace("42 ") == "42" by {
      assert "42 "[..2] == "42";
    }
    assert DigitsValue("42") == 42 by {
      assert "42"[..1] == "4";
      assert "4"[..0] == "";
    }
    ParseFloatDigits("42");
  }
}
