/** Hook dispatch to plugins (PluginsManager.js). A plugin is an object
    whose properties, looked up by hook name, are callbacks; dispatching a
    hook calls every plugin that has it, in registration order, and
    collects one result per plugin. */
module Plugins {

  /** What a callback can return, as far as the engine distinguishes:
      nothing (`undefined`), a boolean, or any other value. */
  datatype Value = Undefined | Bool(b: bool) | Other(tag: int)

  /** The hook names the engine dispatches. */
  const BindingRegistered := "bindingRegistered"
  const AllBindingsStopped := "allBindingsStopped"
  const BeforeHandled := "beforeBindingHandled"
  const AfterHandled := "afterBindingHandled"

  /** Plugin identity: the same plugin object registered twice has one id. */
  type PluginId = nat

  /** An argument handed to a callback: a key array, the manager, or the
      plugin object itself. */
  datatype Arg = Keys(keys: seq<string>) | ManagerRef | PluginRef(id: PluginId)

  /** A plugin object: its callbacks by hook name; an absent name is an
      absent (falsy) property. */
  datatype Plugin = Plugin(id: PluginId, hooks: map<string, seq<Arg> -> Value>)

  /** One callback invocation: which plugin, which hook, which arguments. */
  datatype Invocation = Invocation(plugin: PluginId, hook: string, args: seq<Arg>)

  /** What `handlePlugin` does with one plugin: skip it, or call it. */
  datatype Outcome = Skipped | Invoked(call: Invocation, result: Value)

  /** Arguments passed to a callback: the dispatch parameters, then the
      manager, then the plugin. */
  function CallArgs(params: seq<Arg>, plugin: Plugin): seq<Arg> {
    params + [ManagerRef, PluginRef(plugin.id)]
  }

  /** `handlePlugin(plugin, hook, ...params)`. */
  function HandlePlugin(plugin: Plugin, hook: string, params: seq<Arg>): (o: Outcome)
    ensures o.Skipped? <==> hook !in plugin.hooks
    ensures o.Invoked? ==> o.call == Invocation(plugin.id, hook, CallArgs(params, plugin))
    ensures o.Invoked? ==> o.result == plugin.hooks[hook](CallArgs(params, plugin))
  {
    if hook !in plugin.hooks then Skipped
    else
      var args := CallArgs(params, plugin);
      Invoked(Invocation(plugin.id, hook, args), plugin.hooks[hook](args))
  }

  /** The value `handlePlugin` returns: `undefined` for a skipped plugin. */
  function ResultOf(o: Outcome): Value {
    if o.Invoked? then o.result else Undefined
  }

  /** `_loopOverPlugins`: one result per plugin, in plugin order. */
  function LoopOverPlugins(ps: seq<Plugin>, hook: string, params: seq<Arg>): (r: seq<Value>)
    ensures |r| == |ps|
  {
    if ps == [] then [] else [ResultOf(HandlePlugin(ps[0], hook, params))] + LoopOverPlugins(ps[1..], hook, params)
  }

  /** Result `i` of `_loopOverPlugins` is what `handlePlugin` returns for plugin `i`. */
  lemma {:induction false} LoopOverPluginsIndex(ps: seq<Plugin>, hook: string, params: seq<Arg>)
    ensures forall i :: 0 <= i < |ps| ==> LoopOverPlugins(ps, hook, params)[i] == ResultOf(HandlePlugin(ps[i], hook, params))
  {
    if ps != [] {
      var r, rest := LoopOverPlugins(ps, hook, params), LoopOverPlugins(ps[1..], hook, params);
      LoopOverPluginsIndex(ps[1..], hook, params);
      forall i | 0 < i < |ps|
        ensures r[i] == ResultOf(HandlePlugin(ps[i], hook, params))
      {
        assert r[i] == rest[i - 1] && ps[1..][i - 1] == ps[i];
      }
    }
  }

  /** The callbacks a dispatch calls, in order: one per plugin that has the hook. */
  function Invocations(ps: seq<Plugin>, hook: string, params: seq<Arg>): (r: seq<Invocation>)
    ensures |r| <= |ps|
  {
    if ps == [] then []
    else
      var o := HandlePlugin(ps[0], hook, params);
      (if o.Invoked? then [o.call] else []) + Invocations(ps[1..], hook, params)
  }

  /** A callback call of `hook`: the dispatch parameters, then the manager,
      then the plugin called. */
  predicate WellShaped(c: Invocation, hook: string, params: seq<Arg>) {
    c.hook == hook && c.args == params + [ManagerRef, PluginRef(c.plugin)]
  }

  /** Every callback a dispatch calls is for that hook, with the dispatch
      parameters followed by the manager and the plugin called; a hook no
      plugin has calls nothing. */
  lemma {:induction false} InvocationsShape(ps: seq<Plugin>, hook: string, params: seq<Arg>)
    ensures forall k :: 0 <= k < |Invocations(ps, hook, params)| ==> WellShaped(Invocations(ps, hook, params)[k], hook, params)
    ensures (forall i :: 0 <= i < |ps| ==> hook !in ps[i].hooks) ==> Invocations(ps, hook, params) == []
  {
    if ps != [] {
      InvocationsShape(ps[1..], hook, params);
      var o := HandlePlugin(ps[0], hook, params);
      var head, rest := if o.Invoked? then [o.call] else [], Invocations(ps[1..], hook, params);
      var r := Invocations(ps, hook, params);
      assert r == head + rest;
      assert forall k :: 0 <= k < |head| ==> WellShaped(head[k], hook, params);
      forall k | 0 <= k < |r|
        ensures WellShaped(r[k], hook, params)
      {
        if k < |head| {
          assert r[k] == head[k];
        } else {
          assert r[k] == rest[k - |head|];
        }
      }
      if forall i :: 0 <= i < |ps| ==> hook !in ps[i].hooks {
        assert hook !in ps[0].hooks;
        assert forall i :: 0 <= i < |ps[1..]| ==> ps[1..][i] == ps[i + 1];
      }
    }
  }

  /** A plugin vetoes by returning exactly `false` (`results.includes(false)`). */
  predicate HasVeto(results: seq<Value>) {
    Bool(false) in results
  }

  /** The veto test seen from the plugins: some plugin has the hook and its
      callback returns `false` for these arguments. */
  lemma VetoIff(ps: seq<Plugin>, hook: string, params: seq<Arg>)
    ensures HasVeto(LoopOverPlugins(ps, hook, params))
        <==> exists i :: 0 <= i < |ps| && hook in ps[i].hooks && ps[i].hooks[hook](CallArgs(params, ps[i])) == Bool(false)
  {
    var r := LoopOverPlugins(ps, hook, params);
    LoopOverPluginsIndex(ps, hook, params);
    if HasVeto(r) {
      var i :| 0 <= i < |r| && r[i] == Bool(false);
      assert hook in ps[i].hooks;
    }
  }

  /** Dispatching over a concatenation of plugin lists is the concatenation
      of the dispatches, for the results and for the callbacks called. */
  lemma {:induction false} DispatchAppend(a: seq<Plugin>, b: seq<Plugin>, hook: string, params: seq<Arg>)
    ensures LoopOverPlugins(a + b, hook, params) == LoopOverPlugins(a, hook, params) + LoopOverPlugins(b, hook, params)
    ensures Invocations(a + b, hook, params) == Invocations(a, hook, params) + Invocations(b, hook, params)
  {
    if a == [] {
      assert a + b == b;
    } else {
      var ab := a + b;
      assert ab[0] == a[0] && ab[1..] == a[1..] + b;
      DispatchAppend(a[1..], b, hook, params);
      var h := [ResultOf(HandlePlugin(a[0], hook, params))];
      var o := HandlePlugin(a[0], hook, params);
      var c := if o.Invoked? then [o.call] else [];
      assert LoopOverPlugins(ab, hook, params) == h + LoopOverPlugins(a[1..] + b, hook, params);
      assert Invocations(ab, hook, params) == c + Invocations(a[1..] + b, hook, params);
      assert h + (LoopOverPlugins(a[1..], hook, params) + LoopOverPlugins(b, hook, params))
          == (h + LoopOverPlugins(a[1..], hook, params)) + LoopOverPlugins(b, hook, params);
      assert c + (Invocations(a[1..], hook, params) + Invocations(b, hook, params))
          == (c + Invocations(a[1..], hook, params)) + Invocations(b, hook, params);
    }
  }

  /** Dispatching to a single plugin: skipped yields `undefined` and calls
      nothing; otherwise its callback result is collected and one call is made. */
  lemma DispatchOne(p: Plugin, hook: string, params: seq<Arg>)
    ensures LoopOverPlugins([p], hook, params) == [if hook in p.hooks then p.hooks[hook](CallArgs(params, p)) else Undefined]
    ensures Invocations([p], hook, params) == if hook in p.hooks then [Invocation(p.id, hook, CallArgs(params, p))] else []
  {
    assert [p][1..] == [];
  }

  /** The plugin registry (`PluginsManager`). `log` records, in order, every
      plugin callback the registry has called; what those callbacks do
      beyond returning a value is outside the model. */
  class PluginsManager {
    var plugins: seq<Plugin>
    var log: seq<Invocation>

    /** `new PluginsManager(manager)`: no plugins yet. */
    constructor()
      ensures plugins == [] && log == []
    {
      plugins := [];
      log := [];
    }

    /** `add(...ps)`: append after the existing plugins, duplicates kept. */
    method Add(ps: seq<Plugin>)
      modifies this`plugins
      ensures plugins == old(plugins) + ps
      ensures |plugins| == |old(plugins)| + |ps|
    {
      plugins := plugins + ps;
    }

    /** `handleSpecific(ps, hook, ...params)`: dispatch over the given list. */
    method HandleSpecific(ps: seq<Plugin>, hook: string, params: seq<Arg>) returns (results: seq<Value>)
      modifies this`log
      ensures results == LoopOverPlugins(ps, hook, params)
      ensures log == old(log) + Invocations(ps, hook, params)
    {
      results := LoopOverPlugins(ps, hook, params);
      log := log + Invocations(ps, hook, params);
    }

    /** `handle(hook, ...params)`: dispatch over the registered plugins;
      the plugin list itself is left as it is. */
    method Handle(hook: string, params: seq<Arg>) returns (results: seq<Value>)
      modifies this`log
      ensures results == LoopOverPlugins(plugins, hook, params)
      ensures |results| == |plugins|
      ensures log == old(log) + Invocations(plugins, hook, params)
    {
      results := HandleSpecific(plugins, hook, params);
    }
  }
}
