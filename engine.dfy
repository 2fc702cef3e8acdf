/** The binding engine's two stateful classes: a binding
    (`PendingKeyboardEvent`, PendingKeyboardEvent.js) and the registry of
    live bindings (`PendingKeyboardEventManager`,
    PendingKeyboardEventManager.js). They live in one module because they
    refer to each other: the registry creates bindings, and a binding that
    stops reports to the registry that created it.

    The DOM is outside the model: a binding's listeners being attached is
    the flag `listening`, and the browser delivering an event to them is a
    call of `KeyDown` / `KeyUp`. Calls of the user's handlers are recorded
    in `matched` and `released`. */
module Engine {
  import opened Seqs
  import opened KeyMatching
  import opened Plugins
  import opened Binding
  import opened Grouping

  /** Everything a binding keeps apart from whether its listeners are
      attached: its bookkeeping, its modifier flags, the double-press
      timeout, whether a release handler is set, and the handler calls so far. */
  datatype BindingView = BindingView(progress: Progress, once: bool, twice: bool, timeout: int,
                                     releaseHandler: bool, matched: seq<seq<string>>,
                                     released: seq<KeyEvent>)

  /** What `new PendingKeyboardEvent(manager, ...keys)` starts with. */
  const NewView := BindingView(Fresh, false, false, 500, false, [], [])

  /** The plugin callbacks one key-down runs: `beforeBindingHandled` once
      the gates up to the focus guard have passed, `afterBindingHandled`
      after the handler. Every call gets the watched keys, and only a fired
      key-down reaches the `afterBindingHandled` callbacks. */
  function KeyDownLog(plugins: seq<Plugin>, watched: seq<string>, stage: Stage): (r: seq<Invocation>)
    ensures |r| <= 2 * |plugins|
    ensures !(stage.Vetoed? || stage.Fired?) ==> r == []
    ensures forall k :: 0 <= k < |r| ==>
              WellShaped(r[k], r[k].hook, [Keys(watched)])
              && (r[k].hook == BeforeHandled || (stage == Fired && r[k].hook == AfterHandled))
  {
    var before, after := Invocations(plugins, BeforeHandled, [Keys(watched)]), Invocations(plugins, AfterHandled, [Keys(watched)]);
    InvocationsShape(plugins, BeforeHandled, [Keys(watched)]);
    InvocationsShape(plugins, AfterHandled, [Keys(watched)]);
    assert forall k :: 0 <= k < |before + after| ==>
             (before + after)[k] == if k < |before| then before[k] else after[k - |before|];
    match stage
    case Unmatched | Deferred | Focused => []
    case Vetoed => before
    case Fired => before + after
  }

  /** The watched keys of each binding, in order: `bindings()`'s `map`. */
  function KeysOf(events: seq<PendingKeyboardEvent>): (r: seq<seq<string>>)
    ensures |r| == |events|
  {
    if events == [] then [] else KeysOf(events[..|events| - 1]) + [events[|events| - 1].keysToWatch]
  }

  /** Entry `i` of `KeysOf(events)` is the watched keys of binding `i`. */
  lemma {:induction false} KeysOfIndex(events: seq<PendingKeyboardEvent>)
    ensures forall i :: 0 <= i < |events| ==> KeysOf(events)[i] == events[i].keysToWatch
  {
    if events != [] {
      var init := events[..|events| - 1];
      KeysOfIndex(init);
      assert forall i :: 0 <= i < |init| ==> events[i] == init[i];
    }
  }

  /** One more binding adds its watched keys at the end. */
  lemma KeysOfSnoc(events: seq<PendingKeyboardEvent>, e: PendingKeyboardEvent)
    ensures KeysOf(events + [e]) == KeysOf(events) + [e.keysToWatch]
  {
    assert (events + [e])[..|events|] == events;
  }

  /** Every binding in `events` reports to manager `m`. */
  ghost predicate OwnedBy(events: seq<PendingKeyboardEvent>, m: PendingKeyboardEventManager) {
    forall i :: 0 <= i < |events| ==> events[i].manager == m
  }

  /** One registered key combination (`PendingKeyboardEvent`). */
  class PendingKeyboardEvent {
    const keysToWatch: seq<string>
    const manager: PendingKeyboardEventManager
    /** The plugin registry current when the binding was created: a later
        `flushPlugins` does not reach it. */
    const pluginsManager: PluginsManager

    var keysCurrentlyBeingPressed: seq<string>
    var pressCount: nat
    /** `setTimeout` resets of `_pressCount` scheduled and not yet run. */
    var pendingResets: nat
    var totalKeyDownCount: nat
    var totalKeyUpCount: nat
    var stopAfterNextRun: bool
    var onlyFireOnDoublePress: bool
    var doublePressTimeout: int
    var hasReleasedHandler: bool
    /** The key-down and key-up listeners are attached to the document. */
    var listening: bool
    /** The `keys` payload of every call of the match handler, in order. */
    var matched: seq<seq<string>>
    /** The event of every call of the release handler, in order. */
    var released: seq<KeyEvent>

    function State(): Progress
      reads this
    {
      Progress(keysCurrentlyBeingPressed, pressCount, pendingResets, totalKeyDownCount, totalKeyUpCount)
    }

    ghost function View(): BindingView
      reads this
    {
      BindingView(State(), stopAfterNextRun, onlyFireOnDoublePress, doublePressTimeout,
                  hasReleasedHandler, matched, released)
    }

    /** What every listener call keeps: the key-up total never passes the
        key-down total, the key-down total counts the handler's calls, and
        every call of the release handler used up at least one key-up. */
    ghost predicate Valid()
      reads this
    {
      && Balanced(State())
      && totalKeyDownCount == |matched|
      && |released| <= totalKeyUpCount
    }

    /** Hence the release handler has run at most once per call of the
        match handler. */
    lemma ReleasedAtMostMatched()
      requires Valid()
      ensures |released| <= |matched|
    {
    }

    /** Just created by manager `m` over plugin registry `pm`, and not yet
        attached. */
    ghost predicate IsNewOf(m: PendingKeyboardEventManager, pm: PluginsManager)
      reads this
    {
      manager == m && pluginsManager == pm && View() == NewView && !listening
    }

    /** `new PendingKeyboardEvent(manager, ...keys)`: nothing pressed, no
        flags, no listeners; the binding shares the manager's current
        plugin registry. */
    constructor(manager: PendingKeyboardEventManager, keys: seq<string>)
      ensures this.manager == manager && pluginsManager == manager.pluginsManager
      ensures keysToWatch == keys
      ensures View() == NewView && !listening && Valid()
    {
      keysCurrentlyBeingPressed := [];
      stopAfterNextRun := false;
      onlyFireOnDoublePress := false;
      doublePressTimeout := 500;
      pressCount := 0;
      pendingResets := 0;
      totalKeyDownCount := 0;
      totalKeyUpCount := 0;
      hasReleasedHandler := false;
      listening := false;
      matched := [];
      released := [];
      this.manager := manager;
      pluginsManager := manager.pluginsManager;
      keysToWatch := keys;
    }

    /** `then(handler)`: attach the key-down and key-up listeners. */
    method Then() returns (self: PendingKeyboardEvent)
      modifies this`listening
      ensures self == this && listening
    {
      listening := true;
      self := this;
    }

    /** `do(handler)`: another name for `then`. */
    method Do() returns (self: PendingKeyboardEvent)
      modifies this`listening
      ensures self == this && listening
    {
      self := Then();
    }

    /** `run(handler)`: another name for `then`. */
    method Run() returns (self: PendingKeyboardEvent)
      modifies this`listening
      ensures self == this && listening
    {
      self := Then();
    }

    /** `whenReleased(handler)`: set the release handler. */
    method WhenReleased() returns (self: PendingKeyboardEvent)
      modifies this`hasReleasedHandler
      ensures self == this && hasReleasedHandler
    {
      hasReleasedHandler := true;
      self := this;
    }

    /** `once()`: stop after the next successful match. */
    method Once() returns (self: PendingKeyboardEvent)
      modifies this`stopAfterNextRun
      ensures self == this && stopAfterNextRun
    {
      stopAfterNextRun := true;
      self := this;
    }

    /** `twiceRapidly(timeout = 500)`: fire only on a double press. */
    method TwiceRapidly(timeout: int := 500) returns (self: PendingKeyboardEvent)
      modifies this`onlyFireOnDoublePress, this`doublePressTimeout
      ensures self == this && onlyFireOnDoublePress && doublePressTimeout == timeout
    {
      onlyFireOnDoublePress := true;
      doublePressTimeout := timeout;
      self := this;
    }

    /** `stop()`: detach both listeners and report to the manager, which
        drops this binding from its registry. */
    method Stop()
      requires manager.Valid()
      modifies this`listening, manager`registeredEvents
      ensures manager.Valid() && !listening
      ensures manager.registeredEvents == RemoveAll(old(manager.registeredEvents), {this})
      ensures old(this in manager.registeredEvents) ==>
                |manager.registeredEvents| == |old(manager.registeredEvents)| - 1
    {
      listening := false;
      manager.ChildStopped(this);
    }

    /** `_storeKeyBeingPressed(event)`. */
    method StoreKeyBeingPressed(ev: KeyEvent)
      modifies this`keysCurrentlyBeingPressed
      ensures keysCurrentlyBeingPressed
              == old(keysCurrentlyBeingPressed) + [Recorded(keysToWatch, ev.key, ev.code)]
    {
      if ev.code in keysToWatch {
        keysCurrentlyBeingPressed := keysCurrentlyBeingPressed + [ev.code];
        return;
      }
      keysCurrentlyBeingPressed := keysCurrentlyBeingPressed + [ev.key];
    }

    /** `_resetPressCount()`. */
    method ResetPressCount()
      modifies this`pressCount
      ensures pressCount == 0
    {
      pressCount := 0;
    }

    /** `_shouldHandleOrSkipDoublePress()`: when the flag is set, count the
        press and let it through only as the second one; otherwise schedule a
        reset of the count. */
    method ShouldHandleOrSkipDoublePress() returns (go: bool)
      modifies this`pressCount, this`pendingResets
      ensures go == GatePasses(onlyFireOnDoublePress, old(pressCount))
      ensures pressCount == GateCount(onlyFireOnDoublePress, old(pressCount))
      ensures pendingResets == if go then old(pendingResets) else old(pendingResets) + 1
    {
      if !onlyFireOnDoublePress {
        return true;
      }
      pressCount := pressCount + 1;
      if pressCount == 2 {
        return true;
      }
      pendingResets := pendingResets + 1;
      return false;
    }

    /** `_removeReleasedKeyFromKeysBeingPressedArray(event)`. */
    method RemoveReleasedKeyFromKeysBeingPressed(ev: KeyEvent)
      modifies this`keysCurrentlyBeingPressed
      ensures keysCurrentlyBeingPressed == RemoveAll(old(keysCurrentlyBeingPressed), {ev.key, ev.code})
    {
      keysCurrentlyBeingPressed := RemoveAll(keysCurrentlyBeingPressed, {ev.key, ev.code});
    }

    /** The key-down listener installed by `then`. `focused` is the value of
        `_manager.focusedElement`. A listener that is not attached is not
        called, so nothing changes. */
    method KeyDown(ev: KeyEvent, focused: bool)
      requires Valid() && manager.Valid()
      modifies this`keysCurrentlyBeingPressed, this`pressCount, this`pendingResets,
               this`totalKeyDownCount, this`matched, this`listening,
               manager`registeredEvents, pluginsManager`log
      ensures Valid() && manager.Valid()
      ensures !old(listening) ==>
                State() == old(State()) && matched == old(matched) && !listening
                && manager.registeredEvents == old(manager.registeredEvents)
                && pluginsManager.log == old(pluginsManager.log)
      ensures old(listening) ==>
                var r := OnKeyDown(keysToWatch, onlyFireOnDoublePress, pluginsManager.plugins,
                                   old(State()), ev, focused);
                var stops := r.stage == Fired && stopAfterNextRun;
                && State() == r.progress
                && matched == old(matched) + (if r.stage == Fired then [r.progress.pressed] else [])
                && listening == !stops
                && manager.registeredEvents
                   == (if stops then RemoveAll(old(manager.registeredEvents), {this}) else old(manager.registeredEvents))
                && pluginsManager.log == old(pluginsManager.log) + KeyDownLog(pluginsManager.plugins, keysToWatch, r.stage)
    {
      if !listening {
        return;
      }
      StoreKeyBeingPressed(ev);
      if !SameValues(keysCurrentlyBeingPressed, keysToWatch) {
        return;
      }
      var stage := HandleMatch(focused);
    }

    /** The key-down listener once the recorded keys match: the double-press
        gate, the focus guard, then the plugins and the handler. `stage`
        says how far the event got. */
    method HandleMatch(focused: bool) returns (stage: Stage)
      requires Valid() && manager.Valid() && listening
      modifies this`pressCount, this`pendingResets, this`totalKeyDownCount, this`matched,
               this`listening, manager`registeredEvents, pluginsManager`log
      ensures Valid() && manager.Valid()
      ensures stage == AfterMatch(keysToWatch, onlyFireOnDoublePress, pluginsManager.plugins, old(State()), focused).stage
      ensures State() == AfterMatch(keysToWatch, onlyFireOnDoublePress, pluginsManager.plugins, old(State()), focused).progress
      ensures matched == old(matched) + if stage == Fired then [keysCurrentlyBeingPressed] else []
      ensures listening == !(stage == Fired && stopAfterNextRun)
      ensures manager.registeredEvents
              == if stage == Fired && stopAfterNextRun then RemoveAll(old(manager.registeredEvents), {this})
                 else old(manager.registeredEvents)
      ensures pluginsManager.log == old(pluginsManager.log) + KeyDownLog(pluginsManager.plugins, keysToWatch, stage)
    {
      var go := ShouldHandleOrSkipDoublePress();
      if !go {
        return Deferred;
      }
      if focused {
        return Focused;
      }
      stage := Dispatch();
    }

    /** The tail of the key-down listener, once the keys match, the
        double-press gate has passed and no element has focus: ask the
        plugins, then either reset the press count (vetoed) or call the
        handler, count the match, notify the plugins and, for a `once`
        binding, stop. */
    method Dispatch() returns (stage: Stage)
      requires Valid() && manager.Valid()
      modifies this`pressCount, this`totalKeyDownCount, this`matched, this`listening,
               manager`registeredEvents, pluginsManager`log
      ensures Valid() && manager.Valid()
      ensures stage == if Vetoes(pluginsManager.plugins, keysToWatch) then Vetoed else Fired
      ensures pressCount == 0
      ensures totalKeyDownCount == old(totalKeyDownCount) + if stage == Fired then 1 else 0
      ensures matched == old(matched) + if stage == Fired then [keysCurrentlyBeingPressed] else []
      ensures listening == (old(listening) && !(stage == Fired && stopAfterNextRun))
      ensures manager.registeredEvents
              == if stage == Fired && stopAfterNextRun then RemoveAll(old(manager.registeredEvents), {this})
                 else old(manager.registeredEvents)
      ensures pluginsManager.log == old(pluginsManager.log) + KeyDownLog(pluginsManager.plugins, keysToWatch, stage)
    {
      ghost var log0 := pluginsManager.log;
      var before := pluginsManager.Handle(BeforeHandled, [Keys(keysToWatch)]);
      if Bool(false) in before {
        ResetPressCount();
        return Vetoed;
      }
      Fire();
      stage := Fired;
      ghost var b := Invocations(pluginsManager.plugins, BeforeHandled, [Keys(keysToWatch)]);
      ghost var a := Invocations(pluginsManager.plugins, AfterHandled, [Keys(keysToWatch)]);
      assert pluginsManager.log == (log0 + b) + a == log0 + (b + a);
    }

    /** No plugin vetoed: call the handler with the keys being pressed, reset
        the press count, count the match, run `afterBindingHandled` and, for
        a `once` binding, stop. */
    method Fire()
      requires Valid() && manager.Valid()
      modifies this`pressCount, this`totalKeyDownCount, this`matched, this`listening,
               manager`registeredEvents, pluginsManager`log
      ensures Valid() && manager.Valid()
      ensures pressCount == 0 && totalKeyDownCount == old(totalKeyDownCount) + 1
      ensures matched == old(matched) + [keysCurrentlyBeingPressed]
      ensures listening == (old(listening) && !stopAfterNextRun)
      ensures manager.registeredEvents
              == if stopAfterNextRun then RemoveAll(old(manager.registeredEvents), {this})
                 else old(manager.registeredEvents)
      ensures pluginsManager.log == old(pluginsManager.log)
                + Invocations(pluginsManager.plugins, AfterHandled, [Keys(keysToWatch)])
    {
      matched := matched + [keysCurrentlyBeingPressed];
      ResetPressCount();
      totalKeyDownCount := totalKeyDownCount + 1;
      var after := pluginsManager.Handle(AfterHandled, [Keys(keysToWatch)]);
      if !stopAfterNextRun {
        return;
      }
      Stop();
    }

    /** The key-up listener installed by `then`. */
    method KeyUp(ev: KeyEvent)
      requires Valid()
      modifies this`keysCurrentlyBeingPressed, this`totalKeyUpCount, this`released
      ensures Valid()
      ensures !old(listening) ==> unchanged(this)
      ensures old(listening) ==>
                var r := OnKeyUp(old(State()), ev);
                && State() == r.progress
                && released == old(released) + if r.acknowledged && hasReleasedHandler then [ev] else []
    {
      if !listening {
        return;
      }
      RemoveReleasedKeyFromKeysBeingPressed(ev);
      if |keysCurrentlyBeingPressed| != 0 {
        return;
      }
      if totalKeyDownCount <= totalKeyUpCount {
        return;
      }
      totalKeyUpCount := totalKeyDownCount;
      if !hasReleasedHandler {
        return;
      }
      released := released + [ev];
    }

    /** The double-press reset scheduled by `_shouldHandleOrSkipDoublePress`
        runs; it is not cancelled by `stop`. */
    method TimeoutExpired()
      requires pendingResets > 0
      modifies this`pressCount, this`pendingResets
      ensures State() == OnTimeout(old(State()))
    {
      ResetPressCount();
      pendingResets := pendingResets - 1;
    }
  }

  /** The registry (`PendingKeyboardEventManager`). */
  class PendingKeyboardEventManager {
    var registeredEvents: seq<PendingKeyboardEvent>
    var modifiers: seq<string>
    var pluginsManager: PluginsManager

    /** Live bindings are distinct objects, each created by this manager. */
    ghost predicate Valid()
      reads this
    {
      Distinct(registeredEvents)
      && OwnedBy(registeredEvents, this)
    }

    constructor()
      ensures Valid() && registeredEvents == [] && modifiers == []
      ensures fresh(pluginsManager) && pluginsManager.plugins == [] && pluginsManager.log == []
    {
      registeredEvents := [];
      modifiers := [];
      pluginsManager := new PluginsManager();
    }

    /** `register(...keys)`: a new binding on the current modifiers followed by
        `keys`, appended to the registry and announced to the plugins. */
    method Register(keys: seq<string>) returns (e: PendingKeyboardEvent)
      requires Valid()
      modifies this`registeredEvents, pluginsManager`log
      ensures Valid()
      ensures fresh(e) && e.keysToWatch == modifiers + keys
      ensures e.IsNewOf(this, pluginsManager)
      ensures registeredEvents == old(registeredEvents) + [e]
      ensures pluginsManager.log == old(pluginsManager.log)
                + Invocations(pluginsManager.plugins, BindingRegistered, [Keys(modifiers + keys)])
    {
      var keysWithModifiers := modifiers + keys;
      e := new PendingKeyboardEvent(this, keysWithModifiers);
      assert e !in registeredEvents;
      registeredEvents := registeredEvents + [e];
      var results := pluginsManager.Handle(BindingRegistered, [Keys(keysWithModifiers)]);
    }

    /** `group(keys, handler)`: set the modifiers to `keys`, run the
        handler, clear the modifiers. The handler is given by the
        registrations it makes; the manager carries out the assignments to
        `modifiers` and the `register` calls this causes, in order. */
    method Group(spec: KeySpec, handler: seq<Step>) returns (created: seq<PendingKeyboardEvent>)
      requires Valid()
      modifies this`modifiers, this`registeredEvents, pluginsManager`log
      ensures Valid() && modifiers == []
      ensures registeredEvents == old(registeredEvents) + created
      ensures KeysOf(created) == Perform(ModifiersOf(spec), handler).registered
      ensures OwnedBy(created, this)
      ensures forall e :: e in created ==> fresh(e) && e.IsNewOf(this, pluginsManager)
      ensures pluginsManager.log == old(pluginsManager.log)
                + RegistrationLog(pluginsManager.plugins, KeysOf(created))
    {
      var ops := GroupOps(spec, handler);
      ghost var m0, events0, log0 := modifiers, registeredEvents, pluginsManager.log;
      created := [];
      var i := 0;
      while i < |ops|
        invariant 0 <= i <= |ops|
        invariant Grouped(m0, ops[..i], events0, log0, created)
        invariant forall e :: e in created ==> fresh(e) && e.IsNewOf(this, pluginsManager)
      {
        assert ops[..i + 1] == ops[..i] + [ops[i]];
        created := Apply(ops[i], m0, ops[..i], events0, log0, created);
        i := i + 1;
      }
      assert ops[..i] == ops;
      GroupOpsAgree(m0, spec, handler);
    }

    /** Part way through a group: the operations `done` have been carried
        out from modifiers `m0` and registered `created` after `events0`,
        with their `bindingRegistered` callbacks after `log0`. */
    ghost predicate Grouped(m0: seq<string>, done: seq<Op>, events0: seq<PendingKeyboardEvent>,
                            log0: seq<Invocation>, created: seq<PendingKeyboardEvent>)
      reads this, pluginsManager
    {
      && Valid()
      && modifiers == Exec(m0, done).modifiers
      && registeredEvents == events0 + created
      && OwnedBy(created, this)
      && KeysOf(created) == Exec(m0, done).registered
      && pluginsManager.log == log0 + RegistrationLog(pluginsManager.plugins, KeysOf(created))
    }

    /** One more manager operation of a group. */
    method Apply(op: Op, ghost m0: seq<string>, ghost done: seq<Op>, ghost events0: seq<PendingKeyboardEvent>,
                 ghost log0: seq<Invocation>, created: seq<PendingKeyboardEvent>)
      returns (created': seq<PendingKeyboardEvent>)
      requires Grouped(m0, done, events0, log0, created)
      modifies this`modifiers, this`registeredEvents, pluginsManager`log
      ensures Grouped(m0, done + [op], events0, log0, created')
      ensures forall e :: e in created' && e !in created ==> fresh(e) && e.IsNewOf(this, pluginsManager)
    {
      assert (done + [op])[..|done|] == done;
      match op {
        case SetModifiers(mods) =>
          modifiers := mods;
          created' := created;
        case RegisterKeys(keys) =>
          created' := RegisterNext(keys, events0, log0, created);
      }
    }

    /** A `register` call inside a group, with the bindings the group has
        registered so far: one more binding at the end of both. */
    method RegisterNext(keys: seq<string>, ghost events0: seq<PendingKeyboardEvent>,
                        ghost log0: seq<Invocation>, created: seq<PendingKeyboardEvent>)
      returns (created': seq<PendingKeyboardEvent>)
      requires Valid() && registeredEvents == events0 + created && OwnedBy(created, this)
      requires pluginsManager.log == log0 + RegistrationLog(pluginsManager.plugins, KeysOf(created))
      modifies this`registeredEvents, pluginsManager`log
      ensures Valid() && registeredEvents == events0 + created' && OwnedBy(created', this)
      ensures KeysOf(created') == KeysOf(created) + [modifiers + keys]
      ensures forall e :: e in created' && e !in created ==> fresh(e) && e.IsNewOf(this, pluginsManager)
      ensures pluginsManager.log == log0 + RegistrationLog(pluginsManager.plugins, KeysOf(created'))
    {
      ghost var before, mid := KeysOf(created), pluginsManager.log;
      var e := Register(keys);
      created' := created + [e];
      KeysOfSnoc(created, e);
      LogAfterRegistration(log0, mid, pluginsManager.plugins, before, e.keysToWatch);
    }

    /** `use(...plugins)`: register plugins with the current plugin registry. */
    method Use(ps: seq<Plugin>)
      modifies pluginsManager`plugins
      ensures pluginsManager.plugins == old(pluginsManager.plugins) + ps
    {
      pluginsManager.Add(ps);
    }

    /** `flushPlugins()`: switch to a new, empty plugin registry; live
        bindings keep the registry they were created with. */
    method FlushPlugins()
      modifies this`pluginsManager
      ensures fresh(pluginsManager) && pluginsManager.plugins == [] && pluginsManager.log == []
    {
      pluginsManager := new PluginsManager();
    }

    /** `bindings()`: the watched keys of every live binding, in
        registration order. */
    function Bindings(): (r: seq<seq<string>>)
      reads this
      ensures |r| == |registeredEvents|
      ensures forall i :: 0 <= i < |registeredEvents| ==> r[i] == registeredEvents[i].keysToWatch
    {
      KeysOfIndex(registeredEvents);
      KeysOf(registeredEvents)
    }

    /** `stopAll()`: stop every live binding, empty the registry, announce it. */
    method StopAll()
      requires Valid()
      modifies this`registeredEvents, registeredEvents, pluginsManager`log
      ensures Valid() && registeredEvents == []
      ensures forall e :: e in old(registeredEvents) ==> !e.listening && e.View() == old(e.View())
      ensures pluginsManager.log == old(pluginsManager.log)
                + Invocations(pluginsManager.plugins, AllBindingsStopped, [])
    {
      var events := registeredEvents;
      var i := 0;
      while i < |events|
        invariant 0 <= i <= |events|
        invariant Valid()
        invariant forall e :: e in events ==> e.manager == this
        invariant forall j :: 0 <= j < i ==> !events[j].listening
        invariant forall e :: e in events ==> e.View() == old(e.View())
        invariant pluginsManager.log == old(pluginsManager.log)
      {
        events[i].Stop();
        i := i + 1;
      }
      registeredEvents := [];
      var results := pluginsManager.Handle(AllBindingsStopped, []);
    }

    /** `_childStopped(child)`: drop exactly the entries that are `child`. */
    method ChildStopped(child: PendingKeyboardEvent)
      requires Valid()
      modifies this`registeredEvents
      ensures Valid()
      ensures registeredEvents == RemoveAll(old(registeredEvents), {child})
      ensures child in old(registeredEvents) ==> |registeredEvents| == |old(registeredEvents)| - 1
      ensures child !in old(registeredEvents) ==> registeredEvents == old(registeredEvents)
    {
      RemoveAllDistinct(registeredEvents, {child});
      if child in registeredEvents {
        RemoveOnlyOccurrence(registeredEvents, child);
      } else {
        RemoveAllNone(registeredEvents, {child});
      }
      registeredEvents := RemoveAll(registeredEvents, {child});
    }
  }
}

