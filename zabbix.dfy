/** zabbix.go: the item cache, its keys, and the discovery or update send. */
module Zabbix {
  import opened GoStrings

  /** A low-level discovery entry, marshalled as #DELLHWCOMPONENTNAME. */
  datatype DiscoveryItem = DiscoveryItem(name: string)

  /** newZabbixDiscoveryItem: an entry carrying the given name. */
  function NewDiscoveryItem(name: string): (item: DiscoveryItem)
    ensures item.name == name
  {
    DiscoveryItem(name)
  }

  /** The document json.Marshal receives in discovery mode. */
  type DiscoveryData = map<string, seq<DiscoveryItem>>

  const DiscoveryKey := "dellhw.components.discovery"
  const DataKey := "data"

  /** "hw." followed by the metric name with every '_' turned into '.'. */
  function KeyPrefix(name: string): string {
    "hw." + ReplaceChar(name, '_', ".")
  }

  /** "." + v for every label value, in the order visited. */
  function TagSuffix(values: seq<string>): string {
    if values == [] then ""
    else TagSuffix(values[..|values| - 1]) + "." + values[|values| - 1]
  }

  /** The cache key addToZabbix builds from a name and its label values. */
  function ItemKey(name: string, values: seq<string>): string {
    KeyPrefix(name) + TagSuffix(values)
  }

  /** The key keeps the name's length and drops its underscores; with no
      labels it is the prefix alone. */
  lemma KeyPrefixShape(name: string)
    ensures ItemKey(name, []) == KeyPrefix(name)
    ensures |KeyPrefix(name)| == 3 + |name|
    ensures KeyPrefix(name)[..3] == "hw."
    ensures '_' !in KeyPrefix(name)
    ensures forall i :: 0 <= i < |name| ==> KeyPrefix(name)[3 + i] == (if name[i] == '_' then '.' else name[i])
  {
  }

  predicate DotFree(values: seq<string>) {
    forall i :: 0 <= i < |values| ==> '.' !in values[i]
  }

  /** Splitting a key on '.' yields "hw", the dot-separated parts of the
      name, and then each label value, so dot-free values can be read back
      from the end of the key. */
  lemma {:induction false} ItemKeyFields(name: string, values: seq<string>)
    requires DotFree(values)
    ensures Split(ItemKey(name, values), '.') == ["hw"] + Split(ReplaceChar(name, '_', "."), '.') + values
  {
    var r := ReplaceChar(name, '_', ".");
    if values == [] {
      assert ItemKey(name, values) == "hw" + ['.'] + r;
      SplitConcat("hw", r, '.');
      SplitNoSep("hw", '.');
    } else {
      var n := |values| - 1;
      var init := values[..n];
      assert DotFree(init) by {
        forall i | 0 <= i < |init| ensures '.' !in init[i] { assert init[i] == values[i]; }
      }
      ItemKeyFields(name, init);
      assert ItemKey(name, values) == ItemKey(name, init) + ['.'] + values[n];
      SplitConcat(ItemKey(name, init), values[n], '.');
      assert '.' !in values[n];
      SplitNoSep(values[n], '.');
      assert values == init + [values[n]];
    }
  }

  /** `ks` lists every key of `keys` exactly once. */
  predicate Enumerates(ks: seq<string>, keys: set<string>) {
    && (forall i :: 0 <= i < |ks| ==> ks[i] in keys)
    && (forall k :: k in keys ==> k in ks)
    && (forall i, j :: 0 <= i < j < |ks| ==> ks[i] != ks[j])
  }

  /** The values of `m` at `ks`, in that order. */
  function ValuesAt(m: map<string, string>, ks: seq<string>): (vs: seq<string>)
    requires forall i :: 0 <= i < |ks| ==> ks[i] in m
    ensures |vs| == |ks|
    ensures forall i :: 0 <= i < |ks| ==> vs[i] == m[ks[i]]
  {
    seq(|ks|, i requires 0 <= i < |ks| => m[ks[i]])
  }

  /** An enumeration of a set has as many entries as the set. */
  lemma {:induction false} EnumerationSize(ks: seq<string>, keys: set<string>)
    requires Enumerates(ks, keys)
    ensures |ks| == |keys|
  {
    if ks != [] {
      var n := |ks| - 1;
      var init := ks[..n];
      assert Enumerates(init, keys - {ks[n]}) by {
        forall k | k in keys - {ks[n]} ensures k in init {
          var i :| 0 <= i < |ks| && ks[i] == k;
          assert i != n;
        }
      }
      EnumerationSize(init, keys - {ks[n]});
    } else {
      assert keys == {} by {
        forall k | k in keys ensures false { }
      }
    }
  }

  /** The outcome sendToZabbix prints and exits with. */
  datatype Exit = Exit(printed: string, status: int)

  const MarshalFailed := Exit("2", 2)
  const SendFailed := Exit("4", 4)
  const Sent := Exit("0", 0)

  /** The cache of Zabbix items, key to value. */
  class Cache {
    var metrics: map<string, string>

    constructor ()
      ensures metrics == map[]
    {
      metrics := map[];
    }

    /** addToZabbix: store `value` under the key for `name` and the values
        of `labels`, taken in the (unspecified) order `order` of map
        iteration. */
    method AddToZabbix(name: string, value: string, labels: map<string, string>) returns (ghost order: seq<string>)
      modifies this
      ensures Enumerates(order, labels.Keys)
      ensures metrics == old(metrics)[ItemKey(name, ValuesAt(labels, order)) := value]
    {
      var key := "hw." + ReplaceChar(name, '_', ".");
      var left := labels.Keys;
      order := [];
      while left != {}
        invariant left <= labels.Keys
        invariant forall i :: 0 <= i < |order| ==> order[i] in labels && order[i] !in left
        invariant forall k :: k in labels.Keys - left ==> k in order
        invariant forall i, j :: 0 <= i < j < |order| ==> order[i] != order[j]
        invariant key == ItemKey(name, ValuesAt(labels, order))
        decreases left
      {
        var k :| k in left;
        assert ValuesAt(labels, order + [k])[..|order|] == ValuesAt(labels, order);
        key := key + "." + labels[k];
        order := order + [k];
        left := left - {k};
      }
      metrics := metrics[key := value];
    }

    /** sendToZabbix: in discovery mode, one entry per cached key, marshalled
        and sent under the discovery key; otherwise the cache itself. The
        marshaller and the sender are parameters: None or false is a failure. */
    method SendToZabbix(discovery: bool, marshal: DiscoveryData -> Option<string>, send: map<string, string> -> bool)
      returns (items: seq<DiscoveryItem>, payload: Option<map<string, string>>, exit: Exit)
      ensures discovery ==> |items| == |metrics|
      ensures discovery ==> forall i :: 0 <= i < |items| ==> items[i].name in metrics
      ensures discovery ==> forall k :: k in metrics ==> DiscoveryItem(k) in items
      ensures forall i, j :: 0 <= i < j < |items| ==> items[i] != items[j]
      ensures discovery && marshal(map[DataKey := items]).None? ==> payload.None? && exit == MarshalFailed
      ensures discovery && marshal(map[DataKey := items]).Some? ==>
        payload == Some(map[DiscoveryKey := marshal(map[DataKey := items]).value])
      ensures !discovery ==> items == [] && payload == Some(metrics)
      ensures payload.Some? ==> exit == if send(payload.value) then Sent else SendFailed
    {
      items := [];
      if discovery {
        var left := metrics.Keys;
        ghost var names: seq<string> := [];
        while left != {}
          invariant left <= metrics.Keys
          invariant |names| == |items| && forall i :: 0 <= i < |items| ==> items[i] == DiscoveryItem(names[i])
          invariant forall i :: 0 <= i < |names| ==> names[i] in metrics && names[i] !in left
          invariant forall k :: k in metrics.Keys - left ==> k in names
          invariant forall i, j :: 0 <= i < j < |names| ==> names[i] != names[j]
          decreases left
        {
          var k :| k in left;
          items := items + [NewDiscoveryItem(k)];
          names := names + [k];
          left := left - {k};
        }
        EnumerationSize(names, metrics.Keys);
        forall k | k in metrics ensures DiscoveryItem(k) in items {
          var i :| 0 <= i < |names| && names[i] == k;
          assert items[i] == DiscoveryItem(k);
        }
        var json := marshal(map[DataKey := items]);
        if json.None? {
          payload := None;
          exit := MarshalFailed;
          return;
        }
        payload := Some(map[DiscoveryKey := json.value]);
      } else {
        payload := Some(metrics);
      }
      var ok := send(payload.value);
      exit := if ok then Sent else SendFailed;
    }
  }
}
