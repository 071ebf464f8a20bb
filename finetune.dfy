/**
 * The finetune pipeline: a configuration `{ filter: { mutator: argument } }`,
 * walked in key order, becomes a trace of mutator calls on the image layer,
 * and its filter names become the layer's filter list, each looked up in the
 * built-in registry first and in the custom registry second.
 */
module Finetune {
  import opened Wrappers
  import opened Scene

  /** One `mutator: argument` entry of a filter's settings. */
  datatype Setting = Setting(name: string, arg: Value)

  /** One `filter: { ...settings }` entry of the configuration. */
  datatype Entry = Entry(filter: string, settings: seq<Setting>)

  /** The configuration, in the key order of the host's object (the order filters are applied in). */
  type Config = seq<Entry>

  /** The filter names, in application order. */
  function Keys(config: Config): seq<string> {
    seq(|config|, i requires 0 <= i < |config| => config[i].filter)
  }

  /** The calls one filter's settings make on the layer, in key order. */
  function SettingCalls(settings: seq<Setting>): seq<Call> {
    seq(|settings|, i requires 0 <= i < |settings| => Call(settings[i].name, settings[i].arg))
  }

  /** Every mutator call of the configuration: filter by filter, setting by setting. */
  function Calls(config: Config): seq<Call> {
    if config == [] then [] else SettingCalls(config[0].settings) + Calls(config[1..])
  }

  /** The trace of a configuration is the trace of its first part followed by that of the rest. */
  lemma {:induction false} CallsAppend(a: Config, b: Config)
    ensures Calls(a + b) == Calls(a) + Calls(b)
  {
    if a == [] {
      assert a + b == b;
    } else {
      assert (a + b)[1..] == a[1..] + b;
      CallsAppend(a[1..], b);
    }
  }

  /** The trace of the first `i + 1` filters extends that of the first `i` by filter `i`'s calls. */
  lemma CallsSnoc(config: Config, i: nat)
    requires i < |config|
    ensures Calls(config[..i + 1]) == Calls(config[..i]) + SettingCalls(config[i].settings)
  {
    assert config[..i + 1] == config[..i] + [config[i]];
    CallsAppend(config[..i], [config[i]]);
    assert Calls([config[i]]) == SettingCalls(config[i].settings) + Calls([]);
  }

  /** Every call of the trace names a method the layer answers to. */
  predicate AllKnown(cs: seq<Call>, api: set<string>) {
    forall i :: 0 <= i < |cs| ==> cs[i].name in api
  }

  /**
   * The calls that run before the first one whose name the layer does not
   * answer to (that call throws and ends the walk).
   */
  function KnownPrefix(cs: seq<Call>, api: set<string>): (p: seq<Call>)
    ensures p <= cs
    ensures AllKnown(p, api)
    ensures |p| < |cs| ==> cs[|p|].name !in api
  {
    if cs == [] then []
    else if cs[0].name in api then [cs[0]] + KnownPrefix(cs[1..], api)
    else []
  }

  /** The walk runs to the end exactly when every name is known, and stops at the first unknown one. */
  lemma KnownPrefixAt(cs: seq<Call>, api: set<string>, k: nat)
    requires k <= |cs| && AllKnown(cs[..k], api)
    requires k < |cs| ==> cs[k].name !in api
    ensures KnownPrefix(cs, api) == cs[..k]
  {
    assert forall i :: 0 <= i < k ==> cs[..k][i] == cs[i];
  }

  /** One filter's calls, split around its setting `j`. */
  lemma SettingCallsSplit(settings: seq<Setting>, j: nat)
    requires j < |settings|
    ensures SettingCalls(settings)
      == SettingCalls(settings[..j]) + [Call(settings[j].name, settings[j].arg)] + SettingCalls(settings[j + 1..])
  {
  }

  /** The trace of the whole configuration, split around filter `i`. */
  lemma CallsAround(config: Config, i: nat)
    requires i < |config|
    ensures Calls(config) == Calls(config[..i]) + SettingCalls(config[i].settings) + Calls(config[i + 1..])
  {
    assert config == config[..i + 1] + config[i + 1..];
    CallsAppend(config[..i + 1], config[i + 1..]);
    CallsSnoc(config, i);
  }

  /** Regrouping a five-part concatenation around its middle part. */
  lemma Regroup<T>(a: seq<T>, b: seq<T>, c: seq<T>, d: seq<T>, e: seq<T>)
    ensures (a + ((b + c) + d)) + e == (a + b) + (c + d + e)
  {
  }

  /** The call at position `j` of filter `i`, seen inside the trace of the whole configuration. */
  lemma CallAt(config: Config, i: nat, j: nat)
    requires i < |config| && j < |config[i].settings|
    ensures var done := Calls(config[..i]) + SettingCalls(config[i].settings[..j]);
      var s := config[i].settings[j];
      |done| < |Calls(config)| &&
      Calls(config)[..|done|] == done &&
      Calls(config)[|done|] == Call(s.name, s.arg)
  {
    var settings := config[i].settings;
    var c := [Call(settings[j].name, settings[j].arg)];
    var done := Calls(config[..i]) + SettingCalls(settings[..j]);
    var back := c + SettingCalls(settings[j + 1..]) + Calls(config[i + 1..]);
    CallsAround(config, i);
    SettingCallsSplit(settings, j);
    Regroup(Calls(config[..i]), SettingCalls(settings[..j]), c, SettingCalls(settings[j + 1..]), Calls(config[i + 1..]));
    assert Calls(config) == done + back;
    assert (done + back)[..|done|] == done;
    assert (done + back)[|done|] == back[0];
  }

  /** The name of the call that throws, or `None` when the whole trace runs. */
  function FirstUnknown(cs: seq<Call>, api: set<string>): (r: Option<string>)
    ensures r.None? <==> AllKnown(cs, api)
  {
    var p := KnownPrefix(cs, api);
    if |p| < |cs| then Some(cs[|p|].name) else None
  }

  /**
   * One more filter whose calls all ran keeps the walk going: after a trace
   * `before`, the first `i` filters' calls and then all of filter `i`'s calls
   * are the first `i + 1` filters' calls.
   */
  lemma Advance(config: Config, api: set<string>, i: nat, j: nat, before: seq<Call>)
    requires i < |config| && j == |config[i].settings|
    requires AllKnown(Calls(config[..i]), api) && AllKnown(SettingCalls(config[i].settings[..j]), api)
    ensures (before + Calls(config[..i])) + SettingCalls(config[i].settings[..j]) == before + Calls(config[..i + 1])
    ensures AllKnown(Calls(config[..i + 1]), api)
  {
    assert config[i].settings[..j] == config[i].settings;
    CallsSnoc(config, i);
  }

  /**
   * Where the walk stops: when filter `i`'s setting `j` is the first call whose
   * name the layer lacks, the calls that ran (after a trace `before`) are
   * everything before it.
   */
  lemma StopsAt(config: Config, api: set<string>, i: nat, j: nat, before: seq<Call>)
    requires i < |config| && j < |config[i].settings|
    requires AllKnown(Calls(config[..i]), api) && AllKnown(SettingCalls(config[i].settings[..j]), api)
    requires config[i].settings[j].name !in api
    ensures (before + Calls(config[..i])) + SettingCalls(config[i].settings[..j]) == before + KnownPrefix(Calls(config), api)
    ensures FirstUnknown(Calls(config), api) == Some(config[i].settings[j].name)
  {
    var done := Calls(config[..i]) + SettingCalls(config[i].settings[..j]);
    CallAt(config, i, j);
    assert AllKnown(done, api);
    KnownPrefixAt(Calls(config), api, |done|);
  }

  /** When every call is known, the walk runs the whole trace. */
  lemma RunsAll(config: Config, api: set<string>)
    requires AllKnown(Calls(config), api)
    ensures KnownPrefix(Calls(config), api) == Calls(config)
    ensures FirstUnknown(Calls(config), api) == None
  {
    var cs := Calls(config);
    assert cs[..|cs|] == cs;
    KnownPrefixAt(cs, api, |cs|);
  }

  /** `Konva.Filters[name] ?? CustomKonvaFilters[name]`: undefined when neither registry has it. */
  function Resolve(name: string, builtin: map<string, FilterFn>, custom: map<string, FilterFn>): Option<FilterFn> {
    if name in builtin then Some(builtin[name])
    else if name in custom then Some(custom[name])
    else None
  }

  /**
   * The filter list: one entry per name, in the same order; the built-in
   * registry wins over the custom one, and a name neither resolves stays in
   * place as an undefined entry.
   */
  function ResolveFilters(names: seq<string>, builtin: map<string, FilterFn>, custom: map<string, FilterFn>): (fs: seq<Option<FilterFn>>)
    ensures |fs| == |names|
    ensures forall i :: 0 <= i < |names| && names[i] in builtin ==> fs[i] == Some(builtin[names[i]])
    ensures forall i :: 0 <= i < |names| && names[i] !in builtin && names[i] in custom ==>
      fs[i] == Some(custom[names[i]])
    ensures forall i :: 0 <= i < |names| && names[i] !in builtin && names[i] !in custom ==> fs[i] == None
  {
    if names == [] then []
    else [Resolve(names[0], builtin, custom)] + ResolveFilters(names[1..], builtin, custom)
  }

  /** Brighten then Contrast: two calls in that order, and the filter list [Brighten, Contrast]. */
  lemma BrightenContrastExample(brighten: FilterFn, contrast: FilterFn, custom: map<string, FilterFn>)
    ensures var config := [Entry("Brighten", [Setting("brightness", Num(0.3))]),
                           Entry("Contrast", [Setting("contrast", Num(0.1))])];
      Calls(config) == [Call("brightness", Num(0.3)), Call("contrast", Num(0.1))] &&
      ResolveFilters(Keys(config), map["Brighten" := brighten, "Contrast" := contrast], custom)
        == [Some(brighten), Some(contrast)]
  {
    var config := [Entry("Brighten", [Setting("brightness", Num(0.3))]),
                   Entry("Contrast", [Setting("contrast", Num(0.1))])];
    assert Keys(config) == ["Brighten", "Contrast"];
    assert config[1..][1..] == [];
  }
}
