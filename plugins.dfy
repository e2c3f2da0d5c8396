/**
 * Explicit plugins (plugins.py): each plugin is applied to the same registry
 * in list order, through `register` when it has one, else by calling it; a
 * plugin with neither raises TypeError and stops the application.
 */
module Plugins {
  import opened Wrappers
  import opened Registry

  /**
   * A plugin object, described by its entry points and what each one does to
   * the registry: the tools it registers, in order. `register` is present when
   * the object has a `register` attribute (the runtime-checkable protocol
   * test); `call` when the object is callable.
   */
  datatype Plugin<!V> = Plugin(register: Option<seq<Tool<V>>>, call: Option<seq<Tool<V>>>)

  datatype PluginError = TypeError(message: string)

  const UnusablePlugin: string := "Plugin must implement register(registry) or be callable."

  /** The registrations a plugin performs: `register` takes precedence over a call. */
  function Effect<V>(p: Plugin<V>): (e: Option<seq<Tool<V>>>)
    ensures p.register.Some? ==> e == p.register
    ensures p.register.None? ==> e == p.call
    ensures e.None? <==> p.register.None? && p.call.None?
  {
    if p.register.Some? then p.register else p.call
  }

  /** The tool map after registering `ts` one after another. */
  function RegisterAll<V>(tools: map<string, Tool<V>>, ts: seq<Tool<V>>): map<string, Tool<V>>
    decreases |ts|
  {
    if ts == [] then tools
    else
      var last := ts[|ts| - 1];
      RegisterAll(tools, ts[..|ts| - 1])[last.name := last]
  }

  /** The last of `ts` named `name`. */
  function LastNamed<V>(ts: seq<Tool<V>>, name: string): (r: Option<Tool<V>>)
    ensures r.None? ==> forall i :: 0 <= i < |ts| ==> ts[i].name != name
    ensures r.Some? ==> exists i :: 0 <= i < |ts| && ts[i] == r.value && r.value.name == name &&
                                    forall j :: i < j < |ts| ==> ts[j].name != name
    decreases |ts|
  {
    if ts == [] then None
    else if ts[|ts| - 1].name == name then Some(ts[|ts| - 1])
    else LastNamed(ts[..|ts| - 1], name)
  }

  /** Last write wins: a name maps to the last tool registered under it, or keeps its old entry. */
  lemma {:induction false} RegisterAllLookup<V>(tools: map<string, Tool<V>>, ts: seq<Tool<V>>, name: string)
    ensures var m := RegisterAll(tools, ts);
      match LastNamed(ts, name)
      case Some(t) => name in m && m[name] == t
      case None => (name in m <==> name in tools) && (name in tools ==> m[name] == tools[name])
    decreases |ts|
  {
    if ts != [] {
      RegisterAllLookup(tools, ts[..|ts| - 1], name);
    }
  }

  datatype Applied<!V> = Applied(tools: map<string, Tool<V>>, error: Option<PluginError>)

  /** `apply_plugins` on a tool map. */
  function ApplySpec<V>(tools: map<string, Tool<V>>, plugins: seq<Plugin<V>>): Applied<V>
    decreases |plugins|
  {
    if plugins == [] then Applied(tools, None)
    else
      match Effect(plugins[0])
      case None => Applied(tools, Some(TypeError(UnusablePlugin)))
      case Some(ts) => ApplySpec(RegisterAll(tools, ts), plugins[1..])
  }

  /**
   * Applying a concatenation applies the first part, then, unless it failed,
   * the second part to the registry the first part left.
   */
  lemma {:induction false} ApplyAppend<V>(tools: map<string, Tool<V>>, a: seq<Plugin<V>>, b: seq<Plugin<V>>)
    ensures ApplySpec(tools, a + b) ==
      var ra := ApplySpec(tools, a);
      if ra.error.Some? then ra else ApplySpec(ra.tools, b)
    decreases |a|
  {
    if a == [] {
      assert a + b == b;
    } else {
      assert (a + b)[0] == a[0];
      assert (a + b)[1..] == a[1..] + b;
      if Effect(a[0]).Some? {
        ApplyAppend(RegisterAll(tools, Effect(a[0]).value), a[1..], b);
      }
    }
  }

  /**
   * The first unusable plugin raises TypeError; the plugins before it have
   * been applied and none after it is; with no unusable plugin, every plugin
   * is applied and nothing is raised.
   */
  lemma {:induction false} ApplyStopsAtUnusable<V>(tools: map<string, Tool<V>>, plugins: seq<Plugin<V>>, k: nat)
    requires k <= |plugins|
    requires forall i :: 0 <= i < k ==> Effect(plugins[i]).Some?
    requires k < |plugins| ==> Effect(plugins[k]).None?
    ensures ApplySpec(tools, plugins[..k]).error == None
    ensures k < |plugins| ==>
      ApplySpec(tools, plugins) == Applied(ApplySpec(tools, plugins[..k]).tools, Some(TypeError(UnusablePlugin)))
    ensures k == |plugins| ==> ApplySpec(tools, plugins).error == None
    decreases k
  {
    if k > 0 {
      var ts := Effect(plugins[0]).value;
      assert plugins[..k][1..] == plugins[1..][..k - 1];
      ApplyStopsAtUnusable(RegisterAll(tools, ts), plugins[1..], k - 1);
    }
  }

  /** Registering the tools of one plugin. */
  method Perform<V>(registry: ToolRegistry<V>, ts: seq<Tool<V>>)
    modifies registry
    ensures registry.tools == RegisterAll(old(registry.tools), ts)
  {
    var j := 0;
    while j < |ts|
      invariant 0 <= j <= |ts|
      invariant registry.tools == RegisterAll(old(registry.tools), ts[..j])
    {
      assert ts[..j + 1][..j] == ts[..j];
      registry.Register(ts[j]);
      j := j + 1;
    }
    assert ts[..j] == ts;
  }

  /** `apply_plugins(registry, plugins)`. */
  method ApplyPlugins<V>(registry: ToolRegistry<V>, plugins: seq<Plugin<V>>) returns (error: Option<PluginError>)
    modifies registry
    ensures Applied(registry.tools, error) == ApplySpec(old(registry.tools), plugins)
  {
    var i := 0;
    while i < |plugins|
      invariant 0 <= i <= |plugins|
      invariant ApplySpec(registry.tools, plugins[i..]) == ApplySpec(old(registry.tools), plugins)
    {
      var plugin := plugins[i];
      assert plugins[i..][1..] == plugins[i + 1..];
      if plugin.register.Some? {
        Perform(registry, plugin.register.value);
        i := i + 1;
        continue;
      }
      if plugin.call.Some? {
        Perform(registry, plugin.call.value);
        i := i + 1;
        continue;
      }
      return Some(TypeError(UnusablePlugin));
    }
    return None;
  }
}
