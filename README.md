# whenipress keyboard-binding engine, modelled in Dafny

whenipress is a JavaScript library for keyboard shortcuts. `whenipress('a', 'b')` registers a
*binding* on a key combination. `.then(handler)` attaches key-down and key-up listeners to the
document. The handler fires when exactly the watched keys are held, compared regardless of order.
Chained calls configure the binding:

- `whenReleased(handler)` sets a handler that runs once every key is lifted after a match;
- `once()` stops the binding after its first match;
- `twiceRapidly()` makes it fire only on a double press.

A single registry (`PendingKeyboardEventManager`) keeps the live bindings. It can group
registrations under shared modifier keys (`group`), list the bindings' keys, stop them all, and hand
lifecycle hooks to *plugins*. Plugins are objects whose methods are called by hook name. A
`beforeBindingHandled` hook that returns `false` vetoes the handler.

The model has eight modules:

| module | file | models |
|---|---|---|
| `Seqs` | `seqs.dfy` | the order-keeping filter used by the key-up listener and by `_childStopped` |
| `KeyMatching` | `key_matching.dfy` | `checkArraysHaveSameValuesRegardlessOfOrder`, `_arraysAreEqual`, and the token `_storeKeyBeingPressed` records |
| `Plugins` | `plugins.dfy` | `PluginsManager`: `handlePlugin`, `_loopOverPlugins`, and the class with a log of every callback call |
| `Binding` | `binding.dfy` | one binding's key-down, key-up and timer steps as pure transitions on its bookkeeping, plus runs of events |
| `Grouping` | `grouping.dfy` | what a `group` handler registers, as a pure function and as the manager's sequence of operations |
| `Engine` | `engine.dfy` | the classes `PendingKeyboardEvent` and `PendingKeyboardEventManager` with their fields updated in place |
| `Entry` | `whenipress.dfy` | the module-level registry and the exported `whenipress(...keys)` function |
| `Scenarios` | `scenarios.dfy` | the runs the library's own tests walk through, stated over the model |

The classes' listener methods are proved against the pure transitions of `Binding`.
`PendingKeyboardEvent.KeyDown` leaves exactly the state that `Binding.OnKeyDown` computes, and
`KeyUp` the state of `Binding.OnKeyUp`. Those functions are what the run lemmas are about.

`Group` is proved against `Grouping.Perform`, the pure reading of the handler, by way of the
manager's own operation trace (`GroupOps`). Every plugin dispatch appends to `PluginsManager.log`
exactly the calls that `Plugins.Invocations` lists.

Where the library's documentation and its code disagree, the model follows the code:

- **Unwatched keys.** The key-down listener records every key, watched or not
  (`PendingKeyboardEvent.js:93-99`). A stray key therefore blocks the match until it is lifted
  (`KeyMatching.StrayKeyPreventsMatch`); it is not ignored.
- **Comparison.** Keys are compared by equal length plus mutual inclusion
  (`PendingKeyboardEvent.js:172-194`), not as multisets. `KeyMatching.DuplicatesAreNotCounted`
  exhibits two arrays that compare equal but are different multisets.
- **Focus guard.** There is no check on the event's target element. A `focusedElement` property of
  the manager is consulted instead (`PendingKeyboardEvent.js:32`), and it is never assigned.
- **Missing hooks.** Only `bindingRegistered`, `allBindingsStopped`, `beforeBindingHandled` and
  `afterBindingHandled` exist. There is no `bindingStopped`, no `mounted` call on `use`, and no
  options helper for plugins.
- **Hook arguments.** The hooks that concern one binding receive its watched key array, then the
  manager and the plugin; `allBindingsStopped` gets no keys, only the manager and the plugin. No
  hook receives a binding object.
- **flushPlugins.** It replaces the manager's plugin registry with a new one
  (`PendingKeyboardEventManager.js:29-31`). Bindings made earlier keep the registry they captured
  at construction (`PendingKeyboardEvent.js:16`) and go on dispatching to the old plugins.
- **Nested groups.** Groups do not nest. An inner group replaces the modifiers, and then clears
  them for the rest of the outer group (`Grouping.GroupsDoNotNest`).

## Model

| member | source | states |
|---|---|---|
| Seqs.RemoveAll | PendingKeyboardEvent.js:121-125 | the kept entries are exactly the entries of the input not in the dropped set, and there are no more of them than in the input |
| Seqs.RemoveAllAppend | PendingKeyboardEventManager.js:44 | filtering a concatenation is the concatenation of the filtered parts, so relative order is kept |
| Seqs.RemoveAllSingleton | PendingKeyboardEventManager.js:44 | a single entry survives the filter exactly when it is not dropped |
| Seqs.RemoveAllIdempotent | PendingKeyboardEvent.js:121-125 | releasing the same key twice leaves what releasing it once left |
| Seqs.RemoveAllNone | PendingKeyboardEventManager.js:44 | removing an object that is not in the registry leaves the registry as it was |
| Seqs.RemoveAllDistinct | PendingKeyboardEventManager.js:44 | filtering keeps a duplicate-free registry duplicate-free |
| Seqs.RemoveOnlyOccurrence | PendingKeyboardEventManager.js:43-45 | removing a binding held once shrinks the registry by exactly one |
| KeyMatching.Recorded | PendingKeyboardEvent.js:93-99 | the recorded token is the event's code or its key, the code whenever the binding watches it; it is a watched key exactly when the code or the key is watched |
| KeyMatching.EveryIncluded | PendingKeyboardEvent.js:185-189 | true exactly when every item of the first array occurs in the second |
| KeyMatching.ArraysAreEqual | PendingKeyboardEvent.js:180-194 | true exactly when the arrays have equal length and the same set of values |
| KeyMatching.SameValues | PendingKeyboardEvent.js:172-178 | the order-insensitive comparison holds exactly when the lengths agree and the value sets agree |
| KeyMatching.SameValuesSymmetric | PendingKeyboardEvent.js:172-194 | the comparison does not depend on which array is pressed and which is watched |
| KeyMatching.PermutationMatches | PendingKeyboardEvent.js:172-194 | holding exactly the watched keys, in any order, matches |
| KeyMatching.StrayKeyPreventsMatch | PendingKeyboardEvent.js:93-99 | a recorded key that is not watched rules out a match while it is held |
| KeyMatching.DuplicatesAreNotCounted | PendingKeyboardEvent.js:180-194 | two arrays with different multisets but equal length and value sets compare equal |
| KeyMatching.ExtraKeyNeverMatches | tests/whenipress.test.js:139-147 | none of the prefixes of `z`, `c`, `a` matches the watched `z`, `a` |
| Plugins.HandlePlugin | PluginsManager.js:22-28 | a plugin without the hook is skipped; otherwise its callback is called with the parameters followed by the manager and the plugin, and its value is returned |
| Plugins.LoopOverPlugins | PluginsManager.js:30-32 | one result per plugin |
| Plugins.LoopOverPluginsIndex | PluginsManager.js:30-32 | result `i` is what `handlePlugin` returns for plugin `i`, in plugin order |
| Plugins.Invocations | PluginsManager.js:14-32 | a dispatch calls at most one callback per plugin |
| Plugins.InvocationsShape | PluginsManager.js:22-32 | every call is of the dispatched hook with the parameters, the manager and the calling plugin; a hook no plugin has calls nothing |
| Plugins.VetoIff | PendingKeyboardEvent.js:36 | the results contain `false` exactly when some plugin has the hook and its callback returns `false` |
| Plugins.DispatchAppend | PluginsManager.js:10-16 | dispatching over appended plugin lists is the concatenation of both results and both call lists |
| Plugins.DispatchOne | PluginsManager.js:22-32 | dispatching to one plugin gives its callback's value and one call, or `undefined` and no call |
| Plugins.PluginsManager.constructor | PluginsManager.js:3-8 | a new registry has no plugins and has made no calls |
| Plugins.PluginsManager.Add | PluginsManager.js:10-12 | the new plugins are appended after the existing ones, duplicates kept |
| Plugins.PluginsManager.HandleSpecific | PluginsManager.js:18-20 | returns the per-plugin results over the given list, and logs exactly that list's callback calls |
| Plugins.PluginsManager.Handle | PluginsManager.js:14-16 | returns one result per registered plugin, and logs exactly their callback calls |
| Binding.OnKeyDown | PendingKeyboardEvent.js:21-54 | records the key; no match exactly when the pressed keys lack the watched values; a match is deferred exactly when the double-press gate refuses, skipped exactly when the gate passes with focus, vetoed exactly when it passes without focus and a plugin returns `false`, and fired otherwise; a veto or a firing resets the press count and only a firing counts a key-down |
| Binding.AfterMatch | PendingKeyboardEvent.js:28-53 | after a match: deferred exactly when the gate refuses; focused exactly when the gate passes with focus, checked before the plugins; vetoed exactly when the gate passes without focus and a plugin returns `false`, with the press count reset; fired otherwise |
| Binding.OnKeyUp | PendingKeyboardEvent.js:56-74 | drops the lifted key by name and by code; a release is acknowledged exactly when nothing is left held and a match is unacknowledged, and it catches the key-up count up to the key-down count |
| Binding.OnTimeout | PendingKeyboardEvent.js:116 | a scheduled reset sets the press count to zero and is used up; nothing else changes |
| Binding.StepsKeepBalance | PendingKeyboardEvent.js:45-67 | every step keeps the key-up count at most the key-down count |
| Binding.RunOne | PendingKeyboardEvent.js:21-74 | a run of one event is that event's transition |
| Binding.RunAppend | PendingKeyboardEvent.js:21-74 | a run in two parts is the second part started where the first ended, with matches and releases added up |
| Binding.RunBookkeeping | PendingKeyboardEvent.js:45-67 | over any run the key-down count grows by the number of matches, the balance is kept, and releases are bounded by the growth of the key-up count |
| Binding.ReleasesNeverExceedMatches | PendingKeyboardEvent.js:63-73 | from a new binding no run acknowledges more releases than it has matches |
| Binding.ReleaseOncePerMatch | PendingKeyboardEvent.js:59-67 | an acknowledged release leaves nothing held, and the next key-up acknowledges nothing |
| Binding.DoubleTapFires | tests/whenipress.test.js:183-197 | with the double-press flag, two taps of the key with no reset in between make exactly one match and one acknowledged release: the first tap is deferred, and its key-up acknowledges nothing |
| Binding.SlowDoubleTapDoesNotFire | PendingKeyboardEvent.js:105-119 | when the reset timer runs between two taps, neither tap fires |
| Binding.VetoSuppressesMatchAndRelease | tests/plugins.test.js:77-96 | under a vetoing plugin, a full press of the key fires neither the handler nor the release handler, and leaves the bookkeeping of a new binding |
| Grouping.ModifiersOf | PendingKeyboardEventManager.js:20 | a single key string becomes a one-key modifier list; an array is used as given |
| Grouping.PerformStep | PendingKeyboardEventManager.js:12-23 | a registration watches the current modifiers followed by its keys and leaves the modifiers alone; a nested group leaves the modifiers empty |
| Grouping.Perform | PendingKeyboardEventManager.js:12-23 | a handler leaves the modifiers either as they were or empty, and empty whenever it runs a nested group |
| Grouping.PerformAppend | PendingKeyboardEventManager.js:19-23 | a handler run in two parts registers what the parts register, the second starting from the modifiers the first left |
| Grouping.FlatHandlerPrefixes | PendingKeyboardEventManager.js:11-23 | a handler that only registers gives one binding per registration, each on the modifiers followed by its keys, and leaves the modifiers as they were |
| Grouping.GroupsDoNotNest | PendingKeyboardEventManager.js:19-23 | inside an inner group only its own modifiers apply, and a later registration in the outer group gets no modifiers |
| Grouping.RegistrationLogSnoc | PendingKeyboardEventManager.js:15 | one more registration adds its `bindingRegistered` calls at the end of the log |
| Grouping.LogAfterRegistration | PendingKeyboardEventManager.js:15 | a log that held the registration calls so far still does after one more registration's calls |
| Grouping.ExecAppend | PendingKeyboardEventManager.js:19-23 | carrying out manager operations in two parts is the same as carrying them out at once |
| Grouping.ExecOne | PendingKeyboardEventManager.js:12-20 | assigning modifiers changes only the modifiers; a registration watches the modifiers followed by its keys |
| Grouping.StepOpsAgree | PendingKeyboardEventManager.js:19-23 | the manager's operations for one handler step register what the step registers |
| Grouping.HandlerOpsAgree | PendingKeyboardEventManager.js:19-23 | the manager's operations for a handler register what the handler registers |
| Grouping.GroupOpsAgree | PendingKeyboardEventManager.js:19-23 | a group registers what its handler registers under the group's modifiers, whatever the modifiers were before, and leaves them empty |
| Engine.KeyDownLog | PendingKeyboardEvent.js:36-47 | a key-down stopped before the veto check calls no plugin; every call it makes gets the watched keys, the manager and the plugin, and is a `beforeBindingHandled` call or, only for a fired key-down, an `afterBindingHandled` call; at most two calls per plugin |
| Engine.KeysOf | PendingKeyboardEventManager.js:34 | one key list per binding |
| Engine.KeysOfIndex | PendingKeyboardEventManager.js:34 | entry `i` is the watched keys of binding `i` |
| Engine.KeysOfSnoc | PendingKeyboardEventManager.js:14 | a binding added at the end adds its watched keys at the end |
| Engine.PendingKeyboardEvent.constructor | PendingKeyboardEvent.js:3-18 | a new binding watches the given keys, holds nothing, has zero counts and no listeners, and captures the manager's current plugin registry |
| Engine.PendingKeyboardEvent.ReleasedAtMostMatched | PendingKeyboardEvent.js:45-73 | the class invariant every listener keeps gives at most one call of the release handler per call of the match handler |
| Engine.PendingKeyboardEvent.Then | PendingKeyboardEvent.js:20-77 | attaches the listeners and returns the same binding |
| Engine.PendingKeyboardEvent.Do | PendingKeyboardEvent.js:79-81 | the same as `then` |
| Engine.PendingKeyboardEvent.Run | PendingKeyboardEvent.js:83-85 | the same as `then` |
| Engine.PendingKeyboardEvent.WhenReleased | PendingKeyboardEvent.js:87-91 | sets the release handler and returns the same binding |
| Engine.PendingKeyboardEvent.Once | PendingKeyboardEvent.js:127-131 | sets stop-after-next-run and returns the same binding |
| Engine.PendingKeyboardEvent.TwiceRapidly | PendingKeyboardEvent.js:133-138 | sets the double-press flag and the timeout, 500 by default, and returns the same binding |
| Engine.PendingKeyboardEvent.Stop | PendingKeyboardEvent.js:140-144 | detaches the listeners and removes exactly this binding from the registry, one entry fewer when it was there |
| Engine.PendingKeyboardEvent.StoreKeyBeingPressed | PendingKeyboardEvent.js:93-99 | appends the physical code when it is watched, otherwise the key name |
| Engine.PendingKeyboardEvent.ResetPressCount | PendingKeyboardEvent.js:101-103 | the press count becomes zero |
| Engine.PendingKeyboardEvent.ShouldHandleOrSkipDoublePress | PendingKeyboardEvent.js:105-119 | without the flag, passes; with it, counts the press, passes on the second, and otherwise schedules a reset |
| Engine.PendingKeyboardEvent.RemoveReleasedKeyFromKeysBeingPressed | PendingKeyboardEvent.js:121-125 | drops every held entry equal to the lifted key's name or code |
| Engine.PendingKeyboardEvent.KeyDown | PendingKeyboardEvent.js:21-54 | a detached binding changes nothing; an attached one ends in the state `OnKeyDown` gives, records the handler's payload when it fires, logs the hook calls, and leaves the registry when a `once` binding fires |
| Engine.PendingKeyboardEvent.HandleMatch | PendingKeyboardEvent.js:28-53 | ends in the state `AfterMatch` gives, with the matching handler call, hook calls and `once` stop |
| Engine.PendingKeyboardEvent.Dispatch | PendingKeyboardEvent.js:36-53 | vetoed exactly when a plugin returns `false`; either way the press count is reset; only a fired match counts a key-down, calls the handler and may stop a `once` binding |
| Engine.PendingKeyboardEvent.Fire | PendingKeyboardEvent.js:40-53 | calls the handler with the held keys, resets the press count, counts one key-down and stops a `once` binding |
| Engine.PendingKeyboardEvent.KeyUp | PendingKeyboardEvent.js:56-74 | a detached binding changes nothing; an attached one ends in the state `OnKeyUp` gives and calls the release handler, when one is set, exactly on an acknowledged release |
| Engine.PendingKeyboardEvent.TimeoutExpired | PendingKeyboardEvent.js:116 | the scheduled reset ends in the state `OnTimeout` gives |
| Engine.PendingKeyboardEventManager.constructor | PendingKeyboardEventManager.js:7-9 | no bindings, no modifiers, and a fresh empty plugin registry |
| Engine.PendingKeyboardEventManager.Register | PendingKeyboardEventManager.js:11-17 | a new binding on the modifiers followed by the keys, appended to the registry, with one `bindingRegistered` call per plugin that has it |
| Engine.PendingKeyboardEventManager.Group | PendingKeyboardEventManager.js:19-23 | the bindings created are new, unattached and appended, and watch what `Perform` gives for the group's modifiers; afterwards the modifiers are empty and the log holds their registration calls |
| Engine.PendingKeyboardEventManager.Use | PendingKeyboardEventManager.js:25-27 | the plugins are appended to the current registry |
| Engine.PendingKeyboardEventManager.FlushPlugins | PendingKeyboardEventManager.js:29-31 | the manager switches to a fresh empty registry; existing bindings keep the old one |
| Engine.PendingKeyboardEventManager.Bindings | PendingKeyboardEventManager.js:33-35 | the watched keys of every live binding, in registration order |
| Engine.PendingKeyboardEventManager.StopAll | PendingKeyboardEventManager.js:37-41 | every binding that was live is detached with its bookkeeping intact, the registry is empty, and `allBindingsStopped` is called on every plugin that has it |
| Engine.PendingKeyboardEventManager.ChildStopped | PendingKeyboardEventManager.js:43-45 | removes exactly the entries that are the child: one fewer when it was there, none otherwise |
| Entry.Whenipress.constructor | whenipress.js:3 | the module's single registry starts with no bindings, no modifiers and no plugins |
| Entry.Whenipress.Call | whenipress.js:5-11 | with no keys, returns the registry and changes nothing; otherwise returns a new binding on the modifiers and keys, one more entry in `bindings()` |
| Scenarios.CleanupScenario | tests/whenipress.test.js:57-80 | the `p` binding fires twice, is stopped, fires no more, and one binding stays registered |
| Scenarios.StopAllScenario | tests/whenipress.test.js:82-102 | bindings fire four times before `stopAll`, and none is registered afterwards |
| Scenarios.BindingsScenario | tests/whenipress.test.js:104-111 | `bindings()` lists `n,e,s` and `l,i,h` in registration order |
| Scenarios.OnceScenario | tests/whenipress.test.js:113-124 | a `once` binding fires once over four presses and is then unregistered |
| Scenarios.ExactKeysOnly | tests/whenipress.test.js:139-147 | pressing `z`, `c`, `a` on a binding watching `z`, `a` fires neither the handler nor the release handler |
| Scenarios.GroupScenario | tests/whenipress.test.js:149-165 | a group on `a`, `z` registers `a,z,b` and `a,z,c` and clears the modifiers |
| Scenarios.GroupedKeysMatch | tests/whenipress.test.js:149-165 | of the key sets held during the test's presses, `b`, `c`, `a`, `a`+`b` and `a`+`c` match neither grouped binding, `a`,`c`,`z` matches only the one on `a`,`z`,`c` and `a`,`b`,`z` only the one on `a`,`z`,`b` |
| Scenarios.GroupedHandlersFireTwice | tests/whenipress.test.js:149-165 | every key event of the test's six presses reaches both grouped bindings; each of them fires exactly once, so the handlers run twice in all |
| Scenarios.DownsRun | tests/whenipress.test.js:257-258 | the key-downs of a press record each key after those already held, and the handler fires once for every held key set along the way that has the watched values |
| Scenarios.UpsRun | tests/whenipress.test.js:257-260 | lifting the keys of a press of different named keys in the order they went down leaves nothing held and fires nothing |
| Scenarios.PressRun | tests/whenipress.test.js:257-260 | a whole press from nothing held fires the handler once per matching held key set and ends with nothing held |
| Scenarios.PressesRun | tests/whenipress.test.js:257-260 | presses in a row add up their handler calls and end with nothing held |
| Scenarios.MatchesShort | PendingKeyboardEvent.js:172-194 | while fewer keys are held than are watched, no key-down matches |
| Scenarios.MatchesLast | PendingKeyboardEvent.js:172-194 | a press that ends with as many keys held as are watched can match only at its last key-down, and does iff the full key set has the watched values |
| Scenarios.GroupedTotal | tests/whenipress.test.js:158-163 | for a binding on three keys, the test's six presses fire it once per three-key press whose keys have its values |
| Scenarios.SingleStringGroup | tests/whenipress.test.js:167-181 | a group given one key string prefixes that key |
| Scenarios.KeyUpsNeverMatch | PendingKeyboardEvent.js:56-74 | key-ups alone never fire the handler nor count a key-down |
| Scenarios.ReleaseAfterAllKeysUp | tests/whenipress.test.js:215-238 | with `a`, `b`, `c` held the handler has fired and lifting `a` releases nothing; lifting `b` and `c` then releases once |
| Scenarios.DuplicatePluginCalledTwice | tests/plugins.test.js:145-159 | a plugin added twice has its `bindingRegistered` callback called twice |

## Left out

- DOM listeners are modelled as one `listening` flag. Calling `then` twice on a binding attaches a second pair of listeners in the library; the model does not capture that.
- Handlers are user code. Their side effects and exceptions are left out: the model records the payload of each call in `matched` and the event of each release in `released`. A handler that throws inside `group` would leave the modifiers set; that is not modelled.
- The `keys` payload of the handler is the live `keysCurrentlyBeingPressed` array in the library. A key-up replaces that field with a new filtered array, but later key-downs before the next key-up push onto the very array a handler was given. The model records a copy.
- The modifiers array given to `group` is aliased by the manager while the handler runs. A handler mutating it would change the keys of its later registrations; the model takes it by value. Once `group` returns the field is reset to a new empty array.
- Plugin callbacks are pure functions of their arguments. A callback that registers or stops bindings, or calls back into the manager, while it runs is not modelled.
- `bindings()` and the `beforeBindingHandled` and `afterBindingHandled` hooks hand out each binding's own `keysToWatch` array, so a caller or plugin mutating it would change the binding. The model passes the keys by value.
- Timers: `setTimeout` is modelled as a count of pending resets. `Engine.PendingKeyboardEvent.TimeoutExpired` runs one of them when the caller says so. Durations, and the order of concurrent timers, are not interpreted.
- Engine.PendingKeyboardEvent.Stop: a stopped binding's pending timers still run in the library; the model lets `TimeoutExpired` run on a detached binding too, and does not cancel them.
- The focus guard reads `manager.focusedElement`, which nothing in the library assigns; the key-down methods and `Binding.OnKeyDown` take it as a `focused` parameter.
- Plugins.HandlePlugin: a hook property that is present but falsy (`null`, `0`, `''`) is skipped by the library; the model treats every present hook as callable.
- Plugins.PluginsManager.HandleSpecific: the library's default of the registered plugins when the list is `undefined` is not modelled; the list is always given.
- Callback return values are abstracted to `undefined`, a boolean, or some other value; only `false` matters to the engine.
- Plugin identity is a plugin id: the same object added twice carries the same id.
- A group's handler is described by the registrations and nested groups it makes (`Grouping.Step`). Other code it runs is not modelled.
- `lodash/filter` is modelled by `Seqs.RemoveAll`.
- Scenarios.StopAllScenario uses one-key bindings, where the test also binds key combinations; the number of calls and the empty registry are what it states.
- Scenarios.CleanupScenario, Scenarios.OnceScenario, Scenarios.StopAllScenario and Scenarios.GroupScenario are stated over any distinct key names rather than the test's literal keys, where the literals add nothing.
- The build configuration (`webpack.mix.js`) and the type declarations (`whenipress.d.ts`) describe packaging, not behaviour, and are not part of this model.
- Scenarios.CleanupScenario and Scenarios.StopAllScenario hand each key event only to the binding it is aimed at, where the document delivers it to every attached binding. With distinct key names, another binding's listeners only record the key and drop it again on its key-up, so no handler count changes; that is not proved for the combined set of bindings.
- Scenarios.GroupedHandlersFireTwice runs each grouped binding on its own over the whole event sequence through `Binding.Run`, not the two objects side by side.
- The tests' own helpers that build DOM events are replaced by `Scenarios.Named`, a key event whose code is empty.
