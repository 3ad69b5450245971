/** `_merge_config` and the keyword injection of `load_model`: keyword
    arguments are merged into a model config dict before the model is built. */
module ModelConfigs {
  import opened Wrappers
  import opened Errors

  /** A JSON-like config value. */
  datatype ConfigValue =
    | CDict(entries: map<string, ConfigValue>)
    | CText(text: string)
    | CNumber(n: int)
    | CBool(b: bool)
    | CList(items: seq<ConfigValue>)
    | CNull

  /** The dict after a merge, which happens in place: when an entry raises,
      the entries merged before it stay merged. */
  datatype Merged = Merged(config: map<string, ConfigValue>, error: Option<Error>)

  /** Keyword arguments: each name at most once. */
  predicate DistinctNames(kwargs: seq<(string, ConfigValue)>)
  {
    forall i, j :: 0 <= i < j < |kwargs| ==> kwargs[i].0 != kwargs[j].0
  }

  predicate Named(kwargs: seq<(string, ConfigValue)>, k: string)
  {
    exists i :: 0 <= i < |kwargs| && kwargs[i].0 == k
  }

  /** The value one keyword leaves under its name: an existing dict is
      updated with the incoming dict (incoming entries win), anything else is
      replaced. Updating a dict from a non-dict raises. */
  function MergeEntry(d: map<string, ConfigValue>, k: string, v: ConfigValue): (r: Result<ConfigValue, Error>)
    ensures r.Failure? <==> k in d && d[k].CDict? && !v.CDict?
    ensures r.Success? && k in d && d[k].CDict? ==>
      r.value.CDict? && r.value.entries.Keys == d[k].entries.Keys + v.entries.Keys &&
      (forall e :: e in v.entries ==> r.value.entries[e] == v.entries[e]) &&
      (forall e :: e in d[k].entries && e !in v.entries ==> r.value.entries[e] == d[k].entries[e])
    ensures r.Success? && !(k in d && d[k].CDict?) ==> r.value == v
  {
    if k in d && d[k].CDict? then
      if v.CDict? then Success(CDict(d[k].entries + v.entries))
      else Failure(TypeError("cannot update a dict from a value that is not a mapping"))
    else Success(v)
  }

  /** `_merge_config(d, kwargs)`, keywords in order. */
  function MergeConfig(d: map<string, ConfigValue>, kwargs: seq<(string, ConfigValue)>): (r: Merged)
    decreases |kwargs|
  {
    if kwargs == [] then Merged(d, None)
    else
      match MergeEntry(d, kwargs[0].0, kwargs[0].1)
      case Failure(e) => Merged(d, Some(e))
      case Success(x) => MergeConfig(d[kwargs[0].0 := x], kwargs[1..])
  }

  /** Names that are not keywords keep their entry, or their absence, also
      when the merge raises. */
  lemma {:induction false} MergeKeepsOthers(d: map<string, ConfigValue>, kwargs: seq<(string, ConfigValue)>, k: string)
    requires !Named(kwargs, k)
    ensures k in MergeConfig(d, kwargs).config <==> k in d
    ensures k in d ==> MergeConfig(d, kwargs).config[k] == d[k]
    decreases |kwargs|
  {
    if kwargs != [] && MergeEntry(d, kwargs[0].0, kwargs[0].1).Success? {
      var x := MergeEntry(d, kwargs[0].0, kwargs[0].1).value;
      assert forall i :: 0 <= i < |kwargs[1..]| ==> kwargs[1..][i] == kwargs[i + 1];
      assert kwargs[0].0 != k by {
        assert kwargs[0].0 == k ==> Named(kwargs, k);
      }
      MergeKeepsOthers(d[kwargs[0].0 := x], kwargs[1..], k);
    }
  }

  lemma DistinctTail(kwargs: seq<(string, ConfigValue)>)
    requires kwargs != [] && DistinctNames(kwargs)
    ensures DistinctNames(kwargs[1..])
    ensures !Named(kwargs[1..], kwargs[0].0)
  {
    assert forall i :: 0 <= i < |kwargs[1..]| ==> kwargs[1..][i] == kwargs[i + 1];
  }

  /** With distinct names, later keywords see the original entries, since
      earlier keywords touch other names. */
  lemma TailSeesOriginal(d: map<string, ConfigValue>, kwargs: seq<(string, ConfigValue)>, x: ConfigValue)
    requires kwargs != [] && DistinctNames(kwargs)
    ensures forall i :: 0 <= i < |kwargs[1..]| ==>
      MergeEntry(d[kwargs[0].0 := x], kwargs[1..][i].0, kwargs[1..][i].1) == MergeEntry(d, kwargs[1..][i].0, kwargs[1..][i].1)
  {
    forall i | 0 <= i < |kwargs[1..]|
      ensures MergeEntry(d[kwargs[0].0 := x], kwargs[1..][i].0, kwargs[1..][i].1) == MergeEntry(d, kwargs[1..][i].0, kwargs[1..][i].1)
    {
      assert kwargs[1..][i] == kwargs[i + 1];
    }
  }

  /** With distinct names, the merge succeeds exactly when no keyword tries
      to update a dict from a non-dict. */
  lemma {:induction false} MergeSucceeds(d: map<string, ConfigValue>, kwargs: seq<(string, ConfigValue)>)
    requires DistinctNames(kwargs)
    ensures MergeConfig(d, kwargs).error.None? <==>
      forall i :: 0 <= i < |kwargs| ==> MergeEntry(d, kwargs[i].0, kwargs[i].1).Success?
    decreases |kwargs|
  {
    if kwargs != [] && MergeEntry(d, kwargs[0].0, kwargs[0].1).Success? {
      var x := MergeEntry(d, kwargs[0].0, kwargs[0].1).value;
      DistinctTail(kwargs);
      TailSeesOriginal(d, kwargs, x);
      MergeSucceeds(d[kwargs[0].0 := x], kwargs[1..]);
      assert forall i :: 1 <= i < |kwargs| ==> kwargs[i] == kwargs[1..][i - 1];
    }
  }

  /** After a successful merge with distinct names, each name holds what its
      keyword makes of the original entry. */
  lemma {:induction false} MergeEntries(d: map<string, ConfigValue>, kwargs: seq<(string, ConfigValue)>)
    requires DistinctNames(kwargs)
    requires MergeConfig(d, kwargs).error.None?
    ensures forall i :: 0 <= i < |kwargs| ==>
      && MergeEntry(d, kwargs[i].0, kwargs[i].1).Success?
      && kwargs[i].0 in MergeConfig(d, kwargs).config
      && MergeConfig(d, kwargs).config[kwargs[i].0] == MergeEntry(d, kwargs[i].0, kwargs[i].1).value
    decreases |kwargs|
  {
    if kwargs != [] {
      var k := kwargs[0].0;
      var x := MergeEntry(d, k, kwargs[0].1).value;
      var d1 := d[k := x];
      DistinctTail(kwargs);
      TailSeesOriginal(d, kwargs, x);
      MergeEntries(d1, kwargs[1..]);
      MergeKeepsOthers(d1, kwargs[1..], k);
      assert forall i :: 1 <= i < |kwargs| ==> kwargs[i] == kwargs[1..][i - 1];
    }
  }

  /** Merging the same keywords again changes nothing once a merge succeeded. */
  lemma {:induction false} MergeIdempotent(d: map<string, ConfigValue>, kwargs: seq<(string, ConfigValue)>)
    requires DistinctNames(kwargs)
    requires MergeConfig(d, kwargs).error.None?
    ensures MergeConfig(MergeConfig(d, kwargs).config, kwargs) == MergeConfig(d, kwargs)
    decreases |kwargs|
  {
    if kwargs != [] {
      var k := kwargs[0].0;
      var v := kwargs[0].1;
      var x := MergeEntry(d, k, v).value;
      var d1 := d[k := x];
      var r := MergeConfig(d1, kwargs[1..]);
      DistinctTail(kwargs);
      MergeKeepsOthers(d1, kwargs[1..], k);
      MergeIdempotent(d1, kwargs[1..]);
      assert r.config[k] == x;
      assert MergeEntry(r.config, k, v) == Success(x) by {
        if x.CDict? {
          assert v.CDict?;
          assert x.entries + v.entries == x.entries;
        }
      }
      assert r.config[k := x] == r.config;
    }
  }

  /** The fully-qualified class name of `fiftyone.core.eta_utils.ETAModel`. */
  const EtaModelType := "fiftyone.core.eta_utils.ETAModel"

  /** `_merge_config(parent[key], kwargs)`: a missing key raises `KeyError`,
      a value that is not a dict cannot be merged into. */
  function MergeInto(parent: map<string, ConfigValue>, key: string, kwargs: seq<(string, ConfigValue)>): (r: Merged)
    ensures key !in parent ==> r == Merged(parent, Some(KeyError(key)))
    ensures forall k :: k != key ==> (k in r.config <==> k in parent) && (k in parent ==> r.config[k] == parent[k])
    ensures key in parent && parent[key].CDict? ==>
      var m := MergeConfig(parent[key].entries, kwargs);
      r.error == m.error && key in r.config && r.config[key] == CDict(m.config)
  {
    if key !in parent then Merged(parent, Some(KeyError(key)))
    else if !parent[key].CDict? then Merged(parent, Some(TypeError("the config value is not a dict")))
    else
      var m := MergeConfig(parent[key].entries, kwargs);
      Merged(parent[key := CDict(m.config)], m.error)
  }

  /** The keyword injection of `load_model`: nothing happens without keywords;
      an `ETAModel` config takes them in its nested `config.config`, any other
      model in its `config`. Entries outside `config` never change. */
  function InjectKwargs(modelConfig: map<string, ConfigValue>, kwargs: seq<(string, ConfigValue)>): (r: Merged)
    ensures kwargs == [] ==> r == Merged(modelConfig, None)
    ensures forall k :: k != "config" ==> (k in r.config <==> k in modelConfig) && (k in modelConfig ==> r.config[k] == modelConfig[k])
    ensures kwargs != [] && "type" in modelConfig && modelConfig["type"] != CText(EtaModelType) ==>
      r == MergeInto(modelConfig, "config", kwargs)
  {
    if kwargs == [] then Merged(modelConfig, None)
    else if "type" !in modelConfig then Merged(modelConfig, Some(KeyError("type")))
    else if modelConfig["type"] == CText(EtaModelType) then
      if "config" !in modelConfig then Merged(modelConfig, Some(KeyError("config")))
      else if !modelConfig["config"].CDict? then Merged(modelConfig, Some(TypeError("the config value is not a dict")))
      else
        var inner := MergeInto(modelConfig["config"].entries, "config", kwargs);
        Merged(modelConfig["config" := CDict(inner.config)], inner.error)
    else MergeInto(modelConfig, "config", kwargs)
  }
}
