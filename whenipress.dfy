/** The library's entry point (whenipress.js): one registry created when
    the module loads, and the `whenipress(...keys)` function over it. The
    module-level registry is the `manager` of a `Whenipress` object;
    `Call` is the exported function. */
module Entry {
  import opened Plugins
  import opened Engine

  /** What `whenipress(...keys)` hands back: the registry itself, or the
      binding that `register` created. */
  datatype Returned = TheManager(manager: PendingKeyboardEventManager)
                    | NewBinding(binding: PendingKeyboardEvent)

  class Whenipress {
    /** `const manager = new PendingKeyboardEventManager()`, made once. */
    const manager: PendingKeyboardEventManager

    /** Loading the module: an empty registry with no plugins. */
    constructor()
      ensures fresh(manager) && fresh(manager.pluginsManager)
      ensures manager.Valid() && manager.registeredEvents == [] && manager.modifiers == []
      ensures manager.pluginsManager.plugins == [] && manager.pluginsManager.log == []
    {
      manager := new PendingKeyboardEventManager();
    }

    /** `whenipress(...keys)`: with no keys, the registry and no change;
        otherwise `manager.register(...keys)`, one more binding at the end
        of `bindings()`. */
    method Call(keys: seq<string>) returns (r: Returned)
      requires manager.Valid()
      modifies manager`registeredEvents, manager.pluginsManager`log
      ensures manager.Valid()
      ensures keys == [] ==>
                r == TheManager(manager)
                && manager.registeredEvents == old(manager.registeredEvents)
                && manager.pluginsManager.log == old(manager.pluginsManager.log)
      ensures keys != [] ==>
                && r.NewBinding? && fresh(r.binding)
                && r.binding.IsNewOf(manager, manager.pluginsManager)
                && r.binding.keysToWatch == manager.modifiers + keys
                && manager.registeredEvents == old(manager.registeredEvents) + [r.binding]
                && manager.Bindings() == old(manager.Bindings()) + [manager.modifiers + keys]
                && manager.pluginsManager.log == old(manager.pluginsManager.log)
                   + Invocations(manager.pluginsManager.plugins, BindingRegistered, [Keys(manager.modifiers + keys)])
      ensures |manager.Bindings()| == |old(manager.Bindings())| + if keys == [] then 0 else 1
    {
      if |keys| == 0 {
        return TheManager(manager);
      }
      var e := manager.Register(keys);
      r := NewBinding(e);
    }
  }
}
