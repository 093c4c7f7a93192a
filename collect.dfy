/** main.go: the collector registry and one pass of MetricStorage.collect. */
module Collection {
  import opened GoStrings
  import opened Metrics
  import opened Omreport

  /** Collector: a function producing the points of one run. The error
      result of every collector is nil, so it is not modelled. */
  datatype Collector = Collector(f: () -> seq<DataPoint>)

  /** What each registered name runs: the dummy report or one omreport
      domain. */
  datatype Source = DummySource | Report(domain: Domain)

  const Sources: map<string, Source> := map[
    "dummy" := DummySource,
    "chassis" := Report(Chassis),
    "fans" := Report(Fans),
    "memory" := Report(Memory),
    "processors" := Report(Processors),
    "ps" := Report(PowerSupplies),
    "ps_amps_sysboard_pwr" := Report(PowerMonitoring),
    "storage_battery" := Report(StorageBattery),
    "storage_controller" := Report(StorageController),
    "storage_enclosure" := Report(StorageEnclosure),
    "storage_vdisk" := Report(StorageVDisk),
    "system" := Report(System),
    "temps" := Report(Temps),
    "volts" := Report(Volts)
  ]

  /** The points a source yields over the given omreport. */
  function Run(tool: Tool, src: Source): seq<DataPoint> {
    match src
    case DummySource => DummyPoints()
    case Report(d) => Collected(tool, d)
  }

  /** The collectors main registers, by name, over the given omreport:
      exactly the names of Sources, each running its own source. */
  function Registry(tool: Tool): (r: map<string, Collector>)
    ensures r.Keys == Sources.Keys
    ensures forall name :: name in Sources ==> r[name].f() == Run(tool, Sources[name])
  {
    map name | name in Sources :: var src := Sources[name]; Collector(() => Run(tool, src))
  }

  /** The default value of the -collect flag. */
  const DefaultEnabled := Join(DefaultCollectors, ",")
  const DefaultCollectors := ["dummy", "chassis", "memory", "processors"]

  /** The default list is the flag's literal default. */
  lemma DefaultEnabledLiteral()
    ensures DefaultEnabled == "dummy,chassis,memory,processors"
  {
    var c := DefaultCollectors;
    assert c[1..] == ["chassis", "memory", "processors"];
    assert c[1..][1..] == ["memory", "processors"];
    assert c[1..][1..][1..] == ["processors"];
  }

  /** Writing vals[i] under keys[i], for i in order. */
  function Overwrite<V>(m: map<string, V>, keys: seq<string>, vals: seq<V>): map<string, V>
    requires |keys| == |vals|
  {
    if keys == [] then m
    else Overwrite(m, keys[..|keys| - 1], vals[..|vals| - 1])[keys[|keys| - 1] := vals[|vals| - 1]]
  }

  /** Last write wins: a key keeps the value of its last occurrence. */
  lemma {:induction false} OverwriteLastWins<V>(m: map<string, V>, keys: seq<string>, vals: seq<V>, i: nat)
    requires |keys| == |vals| && i < |keys|
    requires forall j :: i < j < |keys| ==> keys[j] != keys[i]
    ensures keys[i] in Overwrite(m, keys, vals) && Overwrite(m, keys, vals)[keys[i]] == vals[i]
  {
    var n := |keys| - 1;
    if i < n {
      OverwriteLastWins(m, keys[..n], vals[..n], i);
    }
  }

  /** A key that is not written keeps its entry, or its absence. */
  lemma {:induction false} OverwriteOthers<V>(m: map<string, V>, keys: seq<string>, vals: seq<V>, k: string)
    requires |keys| == |vals|
    requires forall j :: 0 <= j < |keys| ==> keys[j] != k
    ensures k in Overwrite(m, keys, vals) <==> k in m
    ensures k in m ==> Overwrite(m, keys, vals)[k] == m[k]
  {
    if keys != [] {
      var n := |keys| - 1;
      OverwriteOthers(m, keys[..n], vals[..n], k);
    }
  }

  /** Nothing is deleted: the keys are the old keys and the written ones. */
  lemma {:induction false} OverwriteKeys<V>(m: map<string, V>, keys: seq<string>, vals: seq<V>)
    requires |keys| == |vals|
    ensures Overwrite(m, keys, vals).Keys == m.Keys + set i | 0 <= i < |keys| :: keys[i]
  {
    if keys != [] {
      var n := |keys| - 1;
      OverwriteKeys(m, keys[..n], vals[..n]);
      forall i | 0 <= i < |keys|
        ensures keys[i] in (set j | 0 <= j < n :: keys[..n][j]) + {keys[n]}
      {
        if i < n { assert keys[..n][i] == keys[i]; }
      }
    }
  }

  /** When every value written is a function of its key, every written key
      ends up holding that function's value. */
  lemma {:induction false} OverwriteByKey<V>(m: map<string, V>, keys: seq<string>, vals: seq<V>, f: string -> V)
    requires |keys| == |vals|
    requires forall i :: 0 <= i < |keys| ==> vals[i] == f(keys[i])
    ensures forall i :: 0 <= i < |keys| ==> keys[i] in Overwrite(m, keys, vals) && Overwrite(m, keys, vals)[keys[i]] == f(keys[i])
  {
    if keys != [] {
      var n := |keys| - 1;
      OverwriteByKey(m, keys[..n], vals[..n], f);
      forall i | 0 <= i < |keys|
        ensures keys[i] in Overwrite(m, keys, vals) && Overwrite(m, keys, vals)[keys[i]] == f(keys[i])
      {
        if i < n && keys[i] != keys[n] { assert keys[..n][i] == keys[i]; }
      }
    }
  }

  /** The number of leading names that have a collector. */
  function RegisteredPrefix(collectors: map<string, Collector>, names: seq<string>): (k: nat)
    ensures k <= |names|
    ensures forall i :: 0 <= i < k ==> names[i] in collectors
    ensures k < |names| ==> names[k] !in collectors
  {
    if names == [] || names[0] !in collectors then 0 else 1 + RegisteredPrefix(collectors, names[1..])
  }

  lemma {:induction false} RegisteredPrefixAt(collectors: map<string, Collector>, names: seq<string>, k: nat)
    requires k <= |names|
    requires forall i :: 0 <= i < k ==> names[i] in collectors
    requires k < |names| ==> names[k] !in collectors
    ensures RegisteredPrefix(collectors, names) == k
  {
    if k > 0 {
      RegisteredPrefixAt(collectors, names[1..], k - 1);
    }
  }

  /** What a run of the named collector returns; a missing name has none. */
  function OutputOf(collectors: map<string, Collector>, name: string): seq<DataPoint> {
    if name in collectors then collectors[name].f() else []
  }

  /** The results the collectors of `names` return, in order. */
  function Outputs(collectors: map<string, Collector>, names: seq<string>): (r: seq<seq<DataPoint>>)
    ensures |r| == |names|
    ensures forall i :: 0 <= i < |names| ==> r[i] == OutputOf(collectors, names[i])
  {
    seq(|names|, i requires 0 <= i < |names| => OutputOf(collectors, names[i]))
  }

  /** Running one more name writes its collector's output last. */
  lemma OverwriteStep(m: map<string, seq<DataPoint>>, collectors: map<string, Collector>, names: seq<string>, i: nat)
    requires i < |names|
    ensures Overwrite(m, names[..i + 1], Outputs(collectors, names[..i + 1]))
      == Overwrite(m, names[..i], Outputs(collectors, names[..i]))[names[i] := OutputOf(collectors, names[i])]
  {
    assert names[..i + 1][..i] == names[..i];
    assert Outputs(collectors, names[..i + 1])[..i] == Outputs(collectors, names[..i]);
  }

  /** How a pass ends: all names run, or a Go panic on the call through the
      nil function of a name with no collector. */
  datatype PassOutcome = Completed | Panicked(name: string)

  /** MetricStorage: the collections map, name to the points of its last run. */
  class MetricStorage {
    var collections: map<string, seq<DataPoint>>

    /** NewMetricStorage */
    constructor ()
      ensures collections == map[]
    {
      collections := map[];
    }

    /** One pass of collect over the comma-separated enabled list: each
        listed collector runs in order and its points replace the entry
        under its name. */
    method CollectPass(collectors: map<string, Collector>, enabled: string) returns (outcome: PassOutcome)
      modifies this
      ensures var names := Split(enabled, ',');
        var k := RegisteredPrefix(collectors, names);
        && collections == Overwrite(old(collections), names[..k], Outputs(collectors, names[..k]))
        && outcome == if k < |names| then Panicked(names[k]) else Completed
    {
      var names := Split(enabled, ',');
      var i := 0;
      while i < |names|
        invariant 0 <= i <= |names|
        invariant forall j :: 0 <= j < i ==> names[j] in collectors
        invariant collections == Overwrite(old(collections), names[..i], Outputs(collectors, names[..i]))
      {
        var name := names[i];
        if name !in collectors {
          RegisteredPrefixAt(collectors, names, i);
          return Panicked(name);
        }
        var md := collectors[name].f();
        OverwriteStep(old(collections), collectors, names, i);
        collections := collections[name := md];
        i := i + 1;
      }
      RegisteredPrefixAt(collectors, names, |names|);
      assert names[..|names|] == names;
      return Completed;
    }
  }

  /** After a pass that completes, every listed name holds its own
      collector's points, names not listed keep what they had, and no key is
      removed. */
  lemma PassResult(collectors: map<string, Collector>, m: map<string, seq<DataPoint>>, enabled: string)
    requires forall i :: 0 <= i < |Split(enabled, ',')| ==> Split(enabled, ',')[i] in collectors
    ensures var names := Split(enabled, ',');
      var r := Overwrite(m, names, Outputs(collectors, names));
      && (forall i :: 0 <= i < |names| ==> names[i] in r && r[names[i]] == collectors[names[i]].f())
      && (forall k :: k in m && k !in names ==> k in r && r[k] == m[k])
      && m.Keys <= r.Keys
  {
    var names := Split(enabled, ',');
    var vals := Outputs(collectors, names);
    OverwriteByKey(m, names, vals, name => OutputOf(collectors, name));
    OverwriteKeys(m, names, vals);
    forall k | k in m && k !in names
      ensures k in Overwrite(m, names, vals) && Overwrite(m, names, vals)[k] == m[k]
    {
      OverwriteOthers(m, names, vals, k);
    }
  }

  /** The default -collect list names four collectors. */
  lemma DefaultEnabledNames()
    ensures Split(DefaultEnabled, ',') == DefaultCollectors
  {
    JoinSplit(DefaultCollectors, ',');
  }

  /** All four default names are registered, so a pass over the default
      list with the registry runs every one of them. */
  lemma DefaultEnabledRegistered(tool: Tool)
    ensures RegisteredPrefix(Registry(tool), Split(DefaultEnabled, ',')) == 4
  {
    DefaultEnabledNames();
    RegisteredPrefixAt(Registry(tool), DefaultCollectors, 4);
  }
}
